# Canary: proofs about the hard parts of the server

A Dafny model of the pieces of the Canary game server where money, items and
files are at stake, and proofs of what these pieces promise. One module per
piece; each keeps the form of the code it models: classes with the fields that
the code updates, loops with invariants, recursion where the code recurs. Most
methods are proved equal to a pure function on values, and the properties are
lemmas about these functions.

- `WalkCache`: the table of walkable tiles around a creature, shifted in place.
- `Gold`: paying with coins in nested containers, change, and the bank.
- `Market`: offers as escrow, over players, accounts, the offer table and the
  expiry query whose callback comes later. `Sums` adds up their maps;
  `MarketOutcomes` says when each step goes through and what it leaves behind.
- `Trade`: the two-sided trade, its registry of items, and the items that move
  meanwhile. `Pockets` is the search for a place on a player and in nested bags;
  `TradeOutcomes` says when a trade starts, goes through and is called off.
- `Scheduler`: the creature buckets and their sweep; `SchedulerRuns` follows an
  addition and a removal over the sweeps that come.
- `MoveItem`: moves between two cylinders, with swap, split and merge.
- `Loot`: the search for a container with room.
- `OtbTree`, `FileStream`, `ItemStream`: the binary formats, over `Bytes`.
- `SqlBatch`: batched inserts.
- `Experience`, `EventBits`, `BossCurve`, `Bestiary`: arithmetic and indexes.
- `Options`, `Arithmetic`, `Stacks` and `Sequences` serve several of them.

`dafny verify dfyconfig.toml` checks the whole project.

## Where the code does not do what it is for

The model follows the code. Where a promise fails, its exact condition is proved;
where that does not already name the inputs, a lemma runs one.

- Walk cache: `getDistanceY` is an absolute distance
  (src/game/movement/position.hpp:62-64), so its use as a signed row offset is
  wrong for steps to the south-east and south-west (`SouthDiagonalBreaks`,
  `StepKeepsCoherence`).
- Market: an expiry callback refunds what the query saw. If the offer was
  accepted in part in between, gold or items appear (`StaleRefund`,
  `StaleReturn`, `GoldConserved`, `ItemsStep`).
- Market: a player who has too few pieces for an offer loses those it has: what
  was taken by then is not given back (`PieceLost`, `HalfWay`).
- Trade: a stack can pass the test because an old stack has room, but is moved as
  a stack of its own (`PartnerKeepsBoth`). Any item can pass it because there is
  room in the bag it is traded for; when that bag has left, its place is closed if
  it was in a worn bag past the limits, which the bags in it do not count against
  (`PartnerKeepsTrinket`). Then, or if the item cannot be moved, one side has both
  items (`ExchangeAllOrNothing`).
- Trade: an acceptance stands when the other side makes its first offer after it,
  so a player can get an item it never saw (`AcceptedUnseen`, `SeenUnlessLate`).
- Scheduler: a creature added to the bucket during its sweep can push another
  out of it (`AppendedPushesOut`, `SweepAccounts`).
- Loot: a merge makes the counter follow the wrong item, and the loop can stop
  early (`StopsTooEarly`, `ContainersDecide`). The repair for an empty last container
  is dead code (`RepairFindsNothing`).
- Gold: `addMoney` multiplies in 32 bits (`FirstWrong`, `MintedExactly`).
- Strings: `writeString` drops what is longer than 65535 (`ItemSurvives`);
  `getString` does not unescape (`StringReadsBack`).
- Batches: the string of values is cut at `),(`, also inside a row
  (`WholeRowsExactly`). A flush by `addRow` keeps the rows it has sent, which then
  go out again (`SentTwice`, `SentOnce`).
- Experience: the total damage is summed in 32 bits (`ThreeAttackers`,
  `NeverTooMuch`).
- Boss points: the bonus falls from 250 to 251 points and again where the radicand
  leaves 32 bits, and the way back is off by one from 51 to 99 (`NeverLess`,
  `BonusFalls`, `BonusOfPoints`).
- Bestiary: points come twice if an earlier stage needs more kills than the
  last (`AwardedOnce`).

## Assumptions

- Network sends, sounds, effects, messages, metrics and logging do nothing.
- Callbacks, ownership and distance checks, and loading another player answer
  anything; they are parameters.
- `WalkCache`: no change of an item alters who may enter its tile while its type has
  none of the flags that make the code look (`ChangeKeepsCoherence` is exact).
- `Gold`: coin stacks can be removed, the ceiling of the division is exact, an
  added coin item is a stack of its own, and the cylinder is not null. `flags` only
  reach calls that are not modelled.
- `Market`: additions to the inbox with `FLAG_NOLIMIT` succeed, database statements
  succeed, and items that do not stack have no stash. The offers are looked up by id.
- `Trade`, `Market`: items and players are numbers.
- `Trade`: whoever offers a container is among the players told of an item put into
  it. The code tells everyone within two squares, and calls a trade off when its
  owner is more than one square from the item (src/creatures/players/player.cpp:1876-1880,
  src/items/containers/container.cpp:387-427).
- `Pockets`: a player wears no locked bag and no inbox; bags hold no more than their
  capacity, and quivers no bags; the equip event answers the same for the test and
  the move; the limits on bags and items are those of the default configuration.
- `MoveItem`: cylinders are containers; the destination has been resolved, the
  item in the way exists when a swap is asked for, and stacks fit their size before.
- `Loot`: an item is at most one stack, and the tree of containers does not change while
  it is looted, except for the item itself.
- `OtbTree`, `ItemStream`, `FileStream`: numbers are little-endian in memory.
- `Experience`: the ratio is exact. `BossCurve`: so is the root.

## Model

| member | source | states |
|---|---|---|
| WalkCache.StepKeepsCoherence | src/creatures/creature.cpp:503-584 | A step of one tile keeps every cache that agrees with the map in agreement with it, whatever the map, exactly when the step is not to the south-east or south-west: there the row offset is an absolute distance |
| WalkCache.StepCell | src/creatures/creature.cpp:503-584 | Each cell that a step has to keep right answers, after the in-place shifts and the refilled edge, as a fresh query of its tile at the new position |
| WalkCache.SouthDiagonalBreaks | src/creatures/creature.cpp:533-580 | A map and a cache that agree before a step to the south-east or south-west and disagree after it |
| WalkCache.SteppedCell | src/creatures/creature.cpp:503-584 | Where each cell of the shifted table comes from: a cell of the old table, a fresh query, or an update of the two tiles of the move |
| WalkCache.RecomputedCoherent | src/creatures/creature.cpp:274-288 | A full recompute agrees with the map in every cell but the centre |
| WalkCache.PatchedCoherent | src/creatures/creature.cpp:290-304 | updateTileCache makes the cell of its tile right, and touches no other cell |
| WalkCache.ChangeKeepsCoherence | src/creatures/creature.cpp:333-364 | A change of a tile keeps the cache in agreement exactly when an item was added, one of its types has blockSolid or blockPathFind (or is ground, for a removal), the cache does not show the tile, or the tile is as walkable as it was |
| WalkCache.AddedCoherent | src/creatures/creature.cpp:333-337 | Whatever is added to whatever tile, a cache that agreed with the map agrees with it afterwards |
| WalkCache.UpdatedCoherent | src/creatures/creature.cpp:339-349 | So does an update, if the answer for the tile changes only when the old or the new type has blockSolid or blockPathFind |
| WalkCache.RemovedCoherent | src/creatures/creature.cpp:351-364 | So does a removal, if the answer for the tile changes only when the type has blockSolid or blockPathFind, or is ground |
| WalkCache.EventCoherent | src/creatures/creature.cpp:333-379 | In a world that obeys this law, tile changes, other creatures that appear, move or are removed, teleports and own steps keep a cache in agreement with the map that they leave, except a southward diagonal |
| WalkCache.RunCoherent | src/creatures/creature.cpp:274-597 | Over any run of events in a world that obeys this law, without a southward diagonal, the cache agrees with the map |
| WalkCache.RunEnds | src/creatures/creature.cpp:274-597 | The map it agrees with is the one the last event left, around the place of the last own step or teleport |
| WalkCache.WalkCache.UpdateMapCache | src/creatures/creature.cpp:274-288 | The loop leaves exactly the recomputed table |
| WalkCache.WalkCache.UpdateTileAt | src/creatures/creature.cpp:290-295 | One cell changes, and only for an offset inside the window |
| WalkCache.WalkCache.ShiftRowsSouth | src/creatures/creature.cpp:510-514 | The descending loop moves every row down by one without overwriting a row that is still needed |
| WalkCache.WalkCache.ShiftRowsNorth | src/creatures/creature.cpp:521-525 | The ascending loop moves every row up by one |
| WalkCache.WalkCache.ShiftColumnsWest | src/creatures/creature.cpp:534-550 | The ascending loop over the columns, with the rows that a diagonal leaves out |
| WalkCache.WalkCache.ShiftColumnsEast | src/creatures/creature.cpp:557-573 | The descending loop over the columns, with the rows that a diagonal leaves out |
| WalkCache.WalkCache.OnOwnMove | src/creatures/creature.cpp:503-584 | The whole table after a move of the creature itself, a teleport and a change of floor included |
| WalkCache.WalkCache.OnOtherMove | src/creatures/creature.cpp:585-597 | The table after a move of another creature |
| WalkCache.WalkCache.OnTileItem | src/creatures/creature.cpp:333-364 | The table after an item is added to, changed on, or removed from a tile; after an addition the cell of the tile answers as the map does |
| WalkCache.WalkCache.OnOtherAppear | src/creatures/creature.cpp:366-384 | The table after another creature has appeared |
| WalkCache.WalkCache.OnOtherRemove | src/creatures/creature.cpp:381-393 | The table after another creature was removed |
| WalkCache.WalkCache.GetWalkCache | src/creatures/creature.cpp:306-331 | The three answers: off the floor and own tile by rule, in the window as the map would answer if the cache agrees with it, and 2 outside |
| Gold.Cylinder.RemoveMoney | src/game/game.cpp:2271-2351 | True exactly when the coins on hand, and the bank if it may be used and the cylinder is a player, reach the amount (as a 64-bit sum, written out below 2^64); then the bank pays exactly what the coins lack, and wealth, that is coins, change on cylinder and tile, and bank, falls by exactly the amount; the cheapest stacks are used up first; false changes nothing |
| Gold.Scan | src/game/game.cpp:2279-2317 | The worklist over nested containers ends and meets every item exactly once, whatever the depth; the coins come out sorted by worth and their sum is the recursive sum over all items |
| Gold.ScanItems | src/game/game.cpp:2303-2317 | One container: its containers are queued, its coins listed, nothing is lost |
| Gold.Emplace | src/game/game.cpp:2311-2314 | A coin stack joins the list in order of worth, behind stacks of equal worth |
| Gold.SortedNeighbours | src/game/game.cpp:2279-2317 | In that list no coin stack is worth less than its neighbour in front |
| Gold.Cylinder.Spend | src/game/game.cpp:2329-2344 | Stacks are spent in order; what is not used is untouched; the change is less than one coin of the broken stack |
| Gold.Cylinder.BreakStack | src/game/game.cpp:2334-2339 | The broken stack loses less than all, and coins plus change pay exactly what was left |
| Gold.Cylinder.FromBank | src/game/game.cpp:2346-2348 | The guard on the bank balance never keeps back what is owed |
| Gold.Cylinder.AddMoney | src/game/game.cpp:2353-2397 | How many coins of each kind are handed out, and what they are worth, with 32-bit product and 8-bit counts; below 4294970000 every stack has 1 to 100 coins |
| Gold.MintedExactly | src/game/game.cpp:2353-2397 | addMoney hands out the amount exactly when its 32-bit product does not wrap, or wraps a multiple of 25 times with a remainder of gold coins |
| Gold.MintedKinds | src/game/game.cpp:2353-2397 | What is handed out is these counts of crystal, platinum and gold coins; below the limit a count of 10000s, of 100s in the rest, and of ones |
| Gold.SafeAmounts | src/game/game.cpp:2358-2396 | No amount below 4294970000 is affected |
| Gold.FirstWrong | src/game/game.cpp:2358-2396 | The next amount, 4294970000, is wrong: 4096 gold too many are handed out |
| Gold.Change | src/game/game.cpp:2335-2336 | Rounding up the pieces to break: at most the stack, and the change is below one unit |
| Gold.TotalOfBag | src/game/game.cpp:2279-2317 | Worth does not depend on the order in which items are met |
| Gold.CoinsAreItems | src/game/game.cpp:2279-2322 | The coins listed are exactly the items of positive worth, none twice |
| Gold.SpentTotal | src/game/game.cpp:2329-2344 | The coins that are left after spending up to a stack are worth what that stack and the later ones are worth |
| Market.GoldConserved | src/game/game.cpp:8555-8992 | Over every interleaving of create, cancel, accept, expiry query and expiry callback, bank plus coins plus gold held by buy offers never falls by more than the creation fees, and falls by exactly the fees if and only if no callback meets a buy offer that shrank since its query |
| Market.ExpireGold | src/io/iomarket.cpp:145-220 | The refund of the row from the query is right exactly when the offer still holds what the row says |
| Market.ItemsNeverGrow | src/game/game.cpp:8421-8992 | Over every run in which no callback meets a sell offer of the item that shrank since its query, stash plus locker plus inbox plus sell offers never grows, for stackable items, store coins, and items that come as single pieces |
| Market.ItemsStep | src/game/game.cpp:8421-8992 | One event makes pieces of such an item appear exactly when it is a callback for a sell offer of it that shrank since its query |
| Market.AfterCountable | src/game/game.cpp:8421-8992 | Items that come as single pieces go on coming as single pieces, whatever the event |
| Market.StaleRefund | src/io/iomarket.cpp:145-235 | A run in which gold appears: a buy offer of two, its expiry query, the sale of one piece, and the callback |
| Market.StaleReturn | src/io/iomarket.cpp:145-235 | A run in which a piece appears: two pieces on sale, their expiry query, the sale of one, and the callback |
| Market.LeavesOnce | src/io/iomarket.cpp:305-332 | Whatever interleaves with queries and callbacks, an id leaves the table at most once, and stays gone |
| Market.AfterValid | src/game/game.cpp:8555-8992 | Every event keeps owners known, ids unused again, and rows that wait no smaller than their offers |
| Market.EmptyIsValid | src/game/game.cpp:8555-8639 | A table without offers satisfies this, for any players and accounts |
| Market.RemovalTotal | src/game/game.cpp:8422-8490 | removeOfferItems never adds a piece; true means exactly the amount is gone; other items are untouched |
| Market.TakeStacksTotal | src/game/game.cpp:8448-8468 | The loop over stacks removes exactly what it counts down |
| Market.TakeSinglesTotal | src/game/game.cpp:8469-8481 | The loop over single pieces removes at most the amount, with its 16-bit counter |
| Market.CollectTotal | src/game/game.cpp:8584-8599 | Taking the pieces in, store coins or items: no gold moves, and success means exactly the amount |
| Market.CreateTotals | src/game/game.cpp:8555-8639 | A created offer holds exactly what was taken, gold falls by the fee only, and a refused one multiplies nothing |
| Market.CancelTotals | src/game/game.cpp:8641-8721 | Cancelling gives back exactly what the offer held |
| Market.AcceptTotals | src/game/game.cpp:8723-8992 | Accepting moves gold and pieces between the two sides and out of the offer, without loss when it succeeds, and multiplies nothing when it fails |
| Market.CreateParty | src/game/game.cpp:8555-8639 | The maker of an offer, and nobody else, pays the fee and what the offer holds |
| Market.CancelParty | src/game/game.cpp:8641-8721 | The owner of a cancelled offer, and nobody else, gets what it held |
| Market.AcceptParties | src/game/game.cpp:8723-8992 | The price and the pieces of an acceptance pass between its two sides in the right directions, and nobody else is touched |
| MarketOutcomes.CreateSucceeds | src/game/game.cpp:8492-8639 | An offer is created exactly when its maker is there and admitted, price, amount and item are allowed, and bank and coins pay the fee, with price times amount for a buy offer, or the maker has a locker and can hand the pieces in for a sell offer |
| MarketOutcomes.CreateOutcome | src/game/game.cpp:8584-8639 | It stands under the next id; the coins pay first and the bank exactly what they lack |
| MarketOutcomes.NotCreated | src/game/game.cpp:8492-8600 | An offer that is refused before pieces are taken leaves everything as it was |
| MarketOutcomes.FeeBounds | src/game/game.cpp:8568-8570 | The fee is one percent of the price, in whole gold pieces for each piece, at least 20 and at most 100000 in all |
| MarketOutcomes.HandsInIfCan | src/game/game.cpp:8422-8490 | The pieces can be handed in exactly when account, or stash and reachable stacks of this item and tier, hold enough; pieces that do not stack must come from one of the two, or the locker must hold exactly what the stash lacks |
| MarketOutcomes.HandsInTier | src/game/game.cpp:8448-8481 | Only pieces of this item and tier leave the locker |
| MarketOutcomes.DeliveredTier | src/game/game.cpp:8675-8708 | The pieces delivered lie in the inbox with the tier of the offer, store coins on the account |
| MarketOutcomes.DeliveredStacks | src/game/game.cpp:8675-8708 | They lie behind what was there, as stacks of which all but the last are full |
| MarketOutcomes.CancelOutcome | src/game/game.cpp:8641-8721 | A player who is there and admitted and owns the offer cancels it, if it is a buy offer or its item has a type: then it is gone and marked as cancelled, price times amount is in the bank, or the pieces of its tier in the inbox or on the account |
| MarketOutcomes.NotCancelled | src/game/game.cpp:8641-8672 | Any other cancel changes nothing |
| MarketOutcomes.AcceptSucceeds | src/game/game.cpp:8723-8992 | An acceptance goes through exactly when both sides are there on different accounts, the amount is allowed and no more than the offer holds, and the buyer has the gold, or the seller a locker and the pieces; then the offer shrinks by the amount or is gone and marked as accepted, and the price lands in the bank of the seller |
| MarketOutcomes.AcceptReceived | src/game/game.cpp:8806-8960 | The pieces land with the buyer, with the tier of the offer |
| MarketOutcomes.AcceptBalances | src/game/game.cpp:8806-8960 | The price goes from the buyer, or from the offer, to the seller, and the pieces from the offer, or from the seller, to the buyer; nothing else and nobody else changes |
| MarketOutcomes.NotAccepted | src/game/game.cpp:8723-8800 | An acceptance that is refused before pieces are taken changes nothing |
| MarketOutcomes.HalfWay | src/game/game.cpp:8795-8815 | When handing in fails half way, what was taken by then is not given back |
| MarketOutcomes.PieceLost | src/game/game.cpp:8594-8625 | A player with one piece in the stash offers two: the piece is gone and there is no offer |
| MarketOutcomes.ExpireOutcome | src/io/iomarket.cpp:145-220 | A row of an offer that is gone does nothing; else the offer is gone and marked as expired, and its owner has what the row says, in the bank or in the inbox with its tier |
| Market.ExpireParty | src/io/iomarket.cpp:145-220 | The owner in the row, and nobody else, gets what the row says |
| Market.ExpireTotals | src/io/iomarket.cpp:145-220 | What a callback adds to gold and items, for any row and any offer |
| Market.MarketHouse.CreateOffer | src/game/game.cpp:8555-8639 | The players, accounts and table after the call, on every path |
| Market.MarketHouse.CancelOffer | src/game/game.cpp:8641-8721 | The same for a cancellation |
| Market.MarketHouse.AcceptOffer | src/game/game.cpp:8723-8992 | The same for an acceptance, of either kind |
| Market.MarketHouse.TakeOfferItems | src/game/game.cpp:8422-8490 | Stash first, then the stacks in order, up to the first that cannot be removed |
| Market.MarketHouse.TakeFromStacks | src/game/game.cpp:8448-8468 | The loop over stacks, stack by stack |
| Market.MarketHouse.TakeFromSingles | src/game/game.cpp:8469-8481 | The loop over pieces that do not stack |
| Market.MarketHouse.AddToInbox | src/game/game.cpp:8675-8708 | The splitting loop hands out stacks of at most the stack size that sum to the amount |
| Market.MarketHouse.QueryExpired | src/io/iomarket.cpp:222-235 | The query only takes a snapshot |
| Market.MarketHouse.ProcessExpired | src/io/iomarket.cpp:145-220 | The callback handles its rows in order, each with the table as it is by then |
| Market.MarketHouse.LeaveTable | src/io/iomarket.cpp:305-332 | True exactly for an id that is in the table, which then leaves it |
| Trade.RunValid | src/game/game.cpp:4384-4796 | Over every run, moves of items into and out of containers included, partners point at each other, an idle or acknowledged side offers nothing, the registry holds exactly the items on offer, none inside another, and nobody stays in transfer |
| Trade.SeenUnlessLate | src/game/game.cpp:4454-4594 | When two sides come to an exchange, the one that accepted first has seen the offer it gets, exactly unless that offer is the first one of its partner and came after the acceptance |
| Trade.RunAware | src/game/game.cpp:4454-4796 | Over every run, an accepted side has seen the offer that stands, or there was none to see and it came later |
| Trade.AcceptedUnseen | src/game/game.cpp:4521-4628 | A run of four events in which the items change hands although player 1 accepted while player 2 offered nothing |
| Trade.MoveValid | src/creatures/players/player.cpp:1600-1622 | A move of any item, wherever to, keeps that: the notifications call off the trade of whoever offers a container the item has come into |
| Trade.CheckAllClears | src/creatures/players/player.cpp:2000-2018 | After all who saw an item arrive have been told, none of them offers that item or one around it |
| Trade.AcceptValid | src/game/game.cpp:4556-4656 | Accepting, whatever the checks answer and wherever there is room, keeps that |
| Trade.StartValid | src/game/game.cpp:4454-4554 | Starting with an item that is neither on offer, nor inside or around one that is, keeps that |
| Trade.CloseValid | src/game/game.cpp:4757-4796 | Closing sets both sides free and takes both items off the registry |
| Trade.ExchangeAllOrNothing | src/game/game.cpp:4597-4655 | Both items change hands or none does, exactly unless the tests pass, the first item has a place with the partner, and the second one may not be moved or has no place of its own with the player once the first has left |
| Trade.WhatIsLeftOver | src/game/game.cpp:4606-4628 | A movable item left over that way is stackable, or the first item came directly out of a worn bag that is past the limits even without it; any other item that passes the test still has a place, even when the test found it inside the item that leaves |
| Trade.PartnerKeepsBoth | src/game/game.cpp:4606-4628 | A sword from the ground against fifty coins, whose receiver has a full bag with eighty coins: the partner ends up with sword and coins |
| Trade.PartnerKeepsTrinket | src/game/game.cpp:4606-4628 | An empty bag against a trinket, with the bag in a worn bag around five thousand items: the trinket passes the test because it fits into the bag that leaves, and the partner ends up with both |
| TradeOutcomes.RequestOutcome | src/game/game.cpp:4384-4554 | A request starts a trade exactly when both are there and free for each other and nothing on offer is the item, holds it or lies in it; the stages, partners and the registry afterwards |
| TradeOutcomes.AcceptOutcome | src/game/game.cpp:4556-4656 | The first acceptance is only noted; the second frees both sides, takes both items off the registry, and hands over what passes the tests and finds a place |
| TradeOutcomes.CloseOutcome | src/game/game.cpp:4757-4796 | Closing, and leaving the game, free both sides, take both items off the registry, and move nothing |
| TradeOutcomes.TransferStands | src/game/game.cpp:4757-4761 | While the items change hands, nothing closes the trade, neither a request nor a notification |
| TradeOutcomes.MissAllClears | src/creatures/players/player.cpp:1610-1622 | After all of these players were told that an item leaves, nothing on offer by one of them is that item, holds it, or lies in it; or, when it leaves a container, lies deeper in that container |
| TradeOutcomes.MoveCallsOff | src/creatures/players/player.cpp:1920-2018 | A move calls off exactly the trades of which a side was told that its item left with it or lay in its way, or saw it arrive in what it offers; all others stand as they are |
| TradeOutcomes.MoveOutcome | src/creatures/players/player.cpp:1920-2018 | The item with all that is in it leaves what it was in and is in its new containers, carried by whoever carries those |
| TradeOutcomes.LeavingEndsTrade | src/creatures/players/player.cpp:1610-1622 | In any run, a trader who is told that its offered item has left, or something in it or around it, trades no longer, nor does its partner, and the offer is off the registry |
| Trade.TradeDesk.IsEntangled | src/game/game.cpp:4454-4486 | The loop over the registry finds an item that is on offer, inside one, or around one |
| Trade.TradeDesk.RequestTrade | src/game/game.cpp:4384-4519 | The state after a request |
| Trade.TradeDesk.CloseTrade | src/game/game.cpp:4757-4796 | The state after a close; none while either side is in transfer |
| Trade.TradeDesk.Notify | src/game/game.cpp:4757-4761 | A close asked for by a notification during the exchange changes nothing |
| Trade.TradeDesk.AcceptTrade | src/game/game.cpp:4556-4656 | The state after an acceptance |
| Trade.TradeDesk.CarryOut | src/game/game.cpp:4591-4655 | The state after an exchange |
| Trade.TradeDesk.OnRemoveItem | src/creatures/players/player.cpp:1934-1943 | Whose trade is off when an item leaves a container, a slot or a tile |
| Trade.TradeDesk.MoveItem | src/creatures/players/player.cpp:1920-2018 | The state after a move and all its notifications |
| Pockets.FindsPlace | src/creatures/players/player.cpp:3389-3495 | The breadth-first search finds a place for an item that joins no stack exactly when an empty slot takes it or a bag at any depth has room |
| Pockets.FindsJoin | src/creatures/players/player.cpp:3389-3495 | A stackable item that may join a stack finds a destination exactly when some slot takes it, empty or with a stack that has room, or some bag in reach has such a stack or a free place |
| Pockets.SearchOrder | src/creatures/players/player.cpp:3389-3495 | It is the first slot in the order of the search that serves, and a bag only when no slot does |
| Pockets.PlaceStays | src/creatures/players/player.cpp:3083-3240 | An item that leaves takes no place away from another: room elsewhere is kept, and for room inside it there is its own, unless it lay directly in a worn bag that is past the limits |
| Pockets.CrampedBags | src/items/containers/container.cpp:429-517 | The exception: the item that leaves lies directly in a worn bag that has 5000 items, or for a bag 500 bags, even without it |
| Pockets.RoomStays | src/items/containers/container.cpp:429-517 | The same for one bag, with the limits on items and bags and the rule for quivers; a worn bag counts all below it, a bag in it only what is its own |
| Pockets.SlotsStayOpen | src/creatures/players/player.cpp:3083-3240 | Emptying a hand or a slot closes no other slot, two-handed weapons, shields and quivers included |
| Pockets.LighterBy | src/creatures/players/player.cpp:3083-3240 | When an item leaves, the player can take on its weight more, wherever it lay |
| Pockets.RightHand | src/creatures/players/player.cpp:3147-3192 | Shields and quivers that belong in the right hand, unless an item needs both hands, save for a quiver beside a distance weapon; a two-handed item only with the left hand free; anything else beside nothing two-handed, no second shield and no second weapon |
| Pockets.LeftHand | src/creatures/players/player.cpp:3194-3233 | Weapons that belong in the left hand, a two-handed one only with the right hand free, save for a distance weapon beside a quiver; the rest as for the right hand |
| Pockets.BagTakes | src/items/containers/container.cpp:429-517 | A bag with fewer than 5000 items, at any depth, takes another one that is not too heavy, and another bag only up to 500 bags, its own included; a quiver takes only ammunition |
| Pockets.AdmitsPlace | src/game/game.cpp:1951-1987 | internalAddItem as a test admits an item that does not stack exactly when there is a place for it |
| Pockets.NeverTooHeavy | src/game/game.cpp:1951-1987 | Whatever the test admits, or a move receives, is not too heavy; a move receives a movable item exactly when there is a place for it, outside the item it must not enter |
| Pockets.AdmittedStays | src/game/game.cpp:1951-1987 | So an item that does not stack and passed internalAddItem as a test has a place afterwards, with the same exception |
| Pockets.ReceivesAfterwards | src/game/game.cpp:1708-1813 | The move then succeeds exactly for a movable item that has a place of its own |
| Pockets.QueryDestination | src/creatures/players/player.cpp:3389-3495 | The loops over slots and bags give that slot or bag, with and without joining stacks |
| Pockets.SearchBags | src/creatures/players/player.cpp:3437-3491 | The list of bags, which grows while it is worked off |
| Pockets.VisitBag | src/creatures/players/player.cpp:3440-3490 | One bag: a free place, a stack to join, or the bags in it |
| Pockets.TestAddItem | src/game/game.cpp:1951-1987 | What the test answers |
| Pockets.TestMoveItem | src/game/game.cpp:1708-1834 | What the move answers |
| Scheduler.SweepValid | src/game/game.cpp:5925-5954 | A marked creature lies in exactly one bucket once, an unmarked one in none, also when creatures add and remove others during the sweep |
| Scheduler.AtMostOneTurn | src/game/game.cpp:5925-5954 | No creature has two turns in one sweep |
| Scheduler.TurnsInFront | src/game/game.cpp:5930-5953 | What had its turn stays in front in the order of the turns, and every step is a turn or a removal |
| Scheduler.AllAccounted | src/game/game.cpp:5930-5953 | Every member of the rest of the bucket has a turn or is removed, as long as no removal meets a bucket that has grown past the end of the sweep and still has members to come |
| Scheduler.SweepAccounts | src/game/game.cpp:5925-5954 | In a whole sweep everyone is accounted for exactly when that never happens |
| Scheduler.SomeoneMissed | src/game/game.cpp:5943-5949 | When it happens, some member has neither a turn nor a removal of its own |
| Scheduler.EveryActiveOneTurn | src/game/game.cpp:5925-5954 | Then every active member has exactly one turn |
| Scheduler.HarmlessOneTurn | src/game/game.cpp:5906-5954 | The same from what the creatures do alone: none adds a creature to the bucket that is swept |
| Scheduler.AppendedPushesOut | src/game/game.cpp:5930-5953 | With a new member an active old member can go without a turn |
| SchedulerRuns.RemovalTakesEffect | src/game/game.cpp:5918-5923 | Asking to remove a listed creature clears its flag and nothing else; unless it is added again it has no turn in the next sweep, and the sweep of its bucket unlists it if nothing overtakes; a creature that is not listed keeps its flag |
| SchedulerRuns.AdditionTakesEffect | src/game/game.cpp:5906-5916 | Afterwards the creature is active and listed, in the bucket it was in or at the end of the one drawn, and has its turn when that bucket is swept, unless it is removed or overtaken |
| SchedulerRuns.ActiveHasTurn | src/game/game.cpp:5906-5954 | Over the sweeps that follow, with any additions and removals before and during them: an active creature has exactly one turn in the sweep of its bucket, at most nine sweeps away, unless it is removed by then or overtaken in it |
| SchedulerRuns.RemovedIsUnlisted | src/game/game.cpp:5918-5954 | Over the sweeps that follow, a creature to be removed has no turn, and is unlisted at the latest by the tenth, unless it is added again or overtaken in the sweep of its bucket |
| Scheduler.Game.CheckCreatures | src/game/game.cpp:5925-5954 | The state and the turns of a sweep |
| Scheduler.Game.AddCreatureCheck | src/game/game.cpp:5906-5916 | The state after adding a check |
| Scheduler.Game.RemoveCreatureCheck | src/game/game.cpp:5918-5923 | The state after removing a check |
| Scheduler.Game.RemoveAt | src/game/game.cpp:5943-5949 | The last of the bucket takes the place of the removed |
| MoveItem.InternalMoveItem | src/game/game.cpp:1693-1915 | On every return path the pieces of every kind over both cylinders are conserved and no stack exceeds its size; exactly when the item goes over, when the item in the way comes back and when the answer is success; how much went over, how much joined a stack of the same kind (as much as it has room for), which items each cylinder keeps, and when nothing changed |
| MoveItem.Transfer | src/game/game.cpp:1819-1852 | Removal, merge and remainder neither add nor lose a piece |
| MoveItem.Merge | src/game/game.cpp:1828-1834 | A stack of the same kind and attributes takes the smaller of what comes and what it has room for; any other takes none |
| MoveItem.Exchange | src/game/game.cpp:1759-1775 | The item in the way ends whole in the other cylinder |
| MoveItem.MakeRoom | src/game/game.cpp:1745-1777 | The swap takes place or nothing changes |
| MoveItem.Cylinder.RemoveThing | src/items/containers/container.cpp:751-783 | Part of a stack, or the item, and the count that is left |
| MoveItem.HeldSplit | src/items/containers/container.cpp:751-783 | Taking one item out of a cylinder takes exactly its pieces |
| Loot.TriedInOrder | src/game/game.cpp:2723-2797 | Containers are tried breadth first, then once the backpack and all below it, and all of them unless an attempt answers otherwise or the counter reaches 0 |
| Loot.WalkMeetsAll | src/items/containers/container.cpp:912-964 | The iterator meets every nested container exactly once |
| Loot.RepairFindsNothing | src/game/game.cpp:2736-2742 | The repair for an empty last container never finds a container |
| Loot.RemainderFollows | src/game/game.cpp:2771-2773 | The counter follows the item exactly when an attempt moves nothing, merges nothing, or merges all or just half of it |
| Loot.CounterFollows | src/game/game.cpp:2763-2797 | Over a whole loop the counter is what is left at every step exactly when that holds of every attempt made, at the count it is made with |
| Loot.ContainersDecide | src/game/game.cpp:2763-2797 | With the answers of containers of given free places and stacks: the counter is right over the whole loop exactly when the first stack of each container that is tried takes nothing, all of the item, or, without a free place, just half of it |
| Loot.EvenIsCountable | src/items/containers/container.cpp:519-566 | The same for one container |
| Loot.AllOrNotEnough | src/items/containers/container.cpp:519-566 | An attempt succeeds exactly when all pieces go over |
| Loot.StacksFillUp | src/items/containers/container.cpp:519-566 | The pieces that join stacks take up just so much of their room |
| Loot.NoMergeIsCountable | src/game/game.cpp:2763-2797 | It holds as long as no piece joins a stack |
| Loot.NothingLeftIsNothing | src/game/game.cpp:2777-2797 | If each attempt can be counted so, a counter at 0 means that nothing is left |
| Loot.StopsTooEarly | src/game/game.cpp:2763-2797 | With merges the loop can stop with 40 pieces left and a container with a free place not tried |
| Loot.Looting.ProcessLootItems | src/game/game.cpp:2777-2797 | Answer, containers tried and pieces left, and that the loop ends for any tree |
| Loot.Looting.FindNextAvailableContainer | src/game/game.cpp:2723-2745 | The next container of the walk |
| Loot.Looting.HandleFallbackLogic | src/game/game.cpp:2747-2761 | The main backpack, once |
| OtbTree.RoundTrip | src/io/fileloader.cpp:17-106 | Parsing the escaped encoding of a document, and reading kinds, unescaped props and children from the tree, gives the document back; only a lone node without props is too short to be opened |
| OtbTree.AcceptedIffBalanced | src/io/fileloader.cpp:40-90 | A file is accepted exactly when it starts a node and its markers outside escapes balance to the end |
| OtbTree.ParsesNode | src/io/fileloader.cpp:40-90 | The parse of an encoded node stops right behind it, whatever follows |
| OtbTree.TreeReads | src/io/fileloader.cpp:92-106 | The prop ranges of that tree unescape to the props that were written |
| OtbTree.UnescapeEscape | src/io/fileloader.cpp:92-106 | Unescaping undoes escaping |
| OtbTree.Loader.ParseTree | src/io/fileloader.cpp:40-90 | The loop with its stack of nodes builds the tree of the recursive format on the heap |
| OtbTree.FinishedFields | src/io/fileloader.cpp:40-90 | The nodes on the heap have the kind, the prop range and the children of the tree |
| OtbTree.Loader.GetProps | src/io/fileloader.cpp:92-106 | The buffer holds the unescaped props; false leaves it alone |
| OtbTree.Open | src/io/fileloader.cpp:17-30 | Which files can be opened |
| FileStream.NodeReadsBack | src/io/filestream.cpp:41-155 | A node of the tree format, with children to any depth, reads back field by field to its last byte, and the depth returns |
| FileStream.StringReadsBack | src/io/filestream.cpp:102-115 | A string in a node reads back exactly when it is shorter than 8192 and none of its bytes had to be escaped |
| FileStream.FieldsReadBack | src/io/filestream.cpp:41-115 | Numbers of any size and plain strings, one after the other |
| FileStream.NumberReadsBack | src/io/filestream.cpp:41-64 | An escaped little-endian number reads back |
| FileStream.BytesReadBack | src/io/filestream.cpp:41-64 | Escaped bytes read back, and the cursor stands right behind them |
| FileStream.MarkersAreUndone | src/io/filestream.cpp:133-155 | A node call that answers false leaves the cursor where it was exactly when it read no escape |
| FileStream.MarkersAnswer | src/io/filestream.cpp:133-155 | Which bytes node calls take for their marker, at the start of the data, inside a node, after an escape, and at the end of the data |
| FileStream.ShortReadsThrow | src/io/filestream.cpp:41-115 | Numbers that reach beyond the data, and strings that do or are too long, throw |
| FileStream.FileStream.Read | src/io/filestream.cpp:41-64 | The value, the exception, or a byte taken from behind the data |
| FileStream.FileStream.GetString | src/io/filestream.cpp:102-115 | The same for a string |
| FileStream.FileStream.StartNode | src/io/filestream.cpp:133-145 | Answer, cursor and depth |
| FileStream.FileStream.EndNode | src/io/filestream.cpp:147-155 | Answer, cursor and depth |
| ItemStream.ItemRoundTrip | src/io/iomapserialize.cpp:112-235 | Loading what was saved gives the same tree, children in order, overlong strings dropped, and consumes exactly its bytes |
| ItemStream.ItemSurvives | src/io/iomapserialize.cpp:112-235 | Nothing at all is lost exactly when every string is shorter than 65536 |
| ItemStream.MalformedIsBad | src/io/iomapserialize.cpp:112-160 | Unknown tags, values that are cut off, a number of items where there is no container, and a container without the end of its attributes are refused |
| ItemStream.KidsRoundTrip | src/io/iomapserialize.cpp:229-231 | Written last to first and each put in front, children end in their order |
| ItemStream.AttrsRoundTrip | src/items/item.cpp:820-831 | Attributes read back up to what stands behind them |
| ItemStream.SaveItem | src/io/iomapserialize.cpp:218-235 | The bytes appended |
| ItemStream.LoadOne | src/io/iomapserialize.cpp:129-160 | On any bytes loading ends; a bad item leaves the parent alone, a good one goes in front |
| ItemStream.LoadInto | src/io/iomapserialize.cpp:112-127 | As many items as the count says, then the end of attributes |
| ItemStream.UnserializeAttr | src/items/item.cpp:820-831 | The attribute loop, with the item count of a container |
| ItemStream.ReadAttr | src/items/containers/container.cpp:138-146 | One attribute; the count of a container ends the loop |
| ItemStream.PropWriteStream.WriteString | src/io/fileloader.hpp:135-144 | An overlong string is written as an empty one |
| ItemStream.PropStream.ReadStored | src/io/fileloader.hpp:69-105 | A number of its size or a string; a number that is cut off takes nothing, a string whose characters are cut off takes its length |
| SqlBatch.WholeRowsExactly | src/database/database.cpp:323-370 | Every call sends whole rows, wherever the values may have to be cut, exactly when no row holds a closing parenthesis, a comma and an opening parenthesis in a row |
| SqlBatch.WholeRowsForAnyQuery | src/database/database.cpp:323-370 | The same over the queries and upsert clauses there can be, for values of at most 8 MiB |
| SqlBatch.SentOnce | src/database/database.cpp:289-370 | Over a run of addRow calls and the execute behind them, every row is sent exactly once if and only if there is at most one row or query and rows fit the packet size |
| SqlBatch.SentTwice | src/database/database.cpp:289-370 | Two rows, of which the first is sent twice |
| SqlBatch.SaveRows | src/io/functions/iologindata_save_player.cpp:358-369 | The statements sent by a loop that adds its rows and executes, and its answer |
| SqlBatch.PlainRowsSent | src/database/database.cpp:289-370 | For such rows a call sends each row once and in order, and gets through exactly when every row leaves room |
| SqlBatch.AllValuesSent | src/database/database.cpp:343-369 | The batches of a call that gets through, joined with commas, are the values |
| SqlBatch.StatementsFit | src/database/database.cpp:346-367 | No statement is longer than MAX_QUERY_SIZE + 2, exactly as long as query and upsert clause fit; else all goes out at once |
| SqlBatch.SendsWholeRows | src/database/database.cpp:343-369 | Cutting the string is the same as packing rows greedily |
| SqlBatch.EachRowOnce | src/database/database.cpp:343-369 | The packing holds each row once, in order |
| SqlBatch.PackSucceeds | src/database/database.cpp:345-351 | When the packing finds room for all rows |
| SqlBatch.FindsFit | src/database/database.cpp:345-351 | The place where the string is cut is behind the last row that fits |
| SqlBatch.DBInsert.Execute | src/database/database.cpp:323-370 | Which statements were sent, and the answer, with a database that may refuse |
| SqlBatch.DBInsert.AddRow | src/database/database.cpp:289-311 | The values are those of all rows; past the packet size the statements of the earlier rows go out first, up to a refusal, and these rows stay |
| SqlBatch.DBInsert.BuildUpsert | src/database/database.cpp:331-341 | The upsert clause |
| SqlBatch.ClauseText | src/database/database.cpp:331-341 | The text of the clause: each column takes its new value, with commas between |
| Experience.NeverTooMuch | src/creatures/creature.cpp:650-691 | The shares never exceed what was lost, whatever that is, exactly when the damage of the attackers that count is at most the 32-bit total or the total is 0 |
| Experience.ThreeAttackers | src/creatures/creature.cpp:1141-1162 | Three attackers whose damage passes 32 bits are handed more than was lost |
| Experience.HardlyLess | src/creatures/creature.cpp:650-691 | With all attackers there and a total below 2 to the 32, less than one point an attacker is lost to rounding |
| Experience.RedirectionKeeps | src/creatures/creature.cpp:666-689 | Sending shares to party leaders loses none |
| Experience.EachGetsEarned | src/creatures/creature.cpp:666-689 | Everyone gets the shares of exactly the attackers it receives for: its own, or as leader of a sharing party those of its members and their summons |
| Experience.WhoReceives | src/creatures/creature.cpp:666-689 | A summon earns for its master, a player in a sharing party for the leader; a master who is gone or no player is passed over |
| Experience.OnlyAttackersEarn | src/creatures/creature.cpp:666-689 | Attackers who are gone and the victim itself earn nothing for anybody |
| Experience.SharesBound | src/creatures/creature.cpp:1160-1162 | The sum of the rounded shares against the exact one |
| Experience.Creature.Damages | src/creatures/creature.cpp:1141-1158 | Both 32-bit sums |
| Experience.Creature.GetGainedExperience | src/creatures/creature.cpp:1160-1162 | The share of one attacker |
| Experience.Creature.ShareExperience | src/creatures/creature.cpp:650-691 | The experience map |
| EventBits.RunKeeps | src/creatures/creature.cpp:1573-1625 | Over any run, bit t is set exactly when an event of type t is listed, and no event is listed twice |
| EventBits.RunLists | src/creatures/creature.cpp:1573-1625 | After any run an event is listed once if the last step that names it registered it, or none names it and it was listed before, and else not at all |
| EventBits.RegisterKeeps | src/creatures/creature.cpp:1573-1592 | Registering keeps that; it answers false exactly for an event that is unknown or listed |
| EventBits.UnregisterKeeps | src/creatures/creature.cpp:1594-1625 | Unregistering keeps that and removes the event |
| EventBits.BitSet | src/creatures/creature.cpp:1585-1587 | Setting a bit leaves the others |
| EventBits.BitCleared | src/creatures/creature.cpp:1621-1623 | Clearing a bit leaves the others |
| EventBits.Creature.GetCreatureEvents | src/creatures/creature.cpp:1627-1641 | The early exit gives the same as a filter |
| EventBits.Creature.RegisterCreatureEvent | src/creatures/creature.cpp:1573-1592 | List, bits and answer |
| EventBits.Creature.UnregisterCreatureEvent | src/creatures/creature.cpp:1594-1625 | List, bits and answer, with the loop that erases as it goes |
| BossCurve.StepHolds | src/io/io_bosstiary.cpp:213-235 | From 100 on, a bonus is reached by exactly the points from its own to those of the next |
| BossCurve.BonusOfPoints | src/io/io_bosstiary.cpp:213-235 | Points of a bonus give it back, except that it is one less from 51 to 99, and 25 below 25 |
| BossCurve.NextIsAhead | src/io/io_bosstiary.cpp:213-235 | The points for the next bonus lie ahead, except in the second half of every twenty points from 251 to 1249 |
| BossCurve.NeverLess | src/io/io_bosstiary.cpp:213-221 | More points never give less bonus, except from 250 to 251 through 259 |
| BossCurve.BonusFalls | src/io/io_bosstiary.cpp:213-221 | From 2684355760 points on the bonus is less than that of one point before: below 100 first, and then that of 2684354560 points less, because the radicand has turned over |
| BossCurve.PointsOfStep | src/io/io_bosstiary.cpp:223-235 | Above 100 the points are 1250 plus five times a triangle |
| Bestiary.AwardedOnce | src/io/iobestiary.cpp:217-242 | Over every run of kills the charm points are awarded once, exactly when the last stage is the largest and above 0 |
| Bestiary.Player.AddBestiaryKill | src/io/iobestiary.cpp:217-242 | Kill count and charm points after a kill |

## Left out

- Gold.Cylinder.AddMoney: does not model that an added stack may merge into one that is there; its worth is the same.
- Gold.Cylinder.RemoveMoney: a null cylinder, for which the code answers false, is not modelled.
- Market.LeavesOnce: a database statement that fails is not modelled.
- Market.ItemsNeverGrow: counts by item over a run; by item and tier only for each step (`MarketOutcomes`), since the stash knows no tiers.
- MarketOutcomes.CreateSucceeds: for an item that does not stack, its pieces in the locker are taken to be single; so too in `AcceptSucceeds`.
- Trade.ExchangeAllOrNothing: the decay and canRemove rules behind internalRemoveItem are one flag; where the items end up inside containers is brought in by the moves that follow.
- Pockets.QueryDestination: a destination slot given by number, and items that are already with the player, are not modelled.
- MoveItem.InternalMoveItem: the loop that resolves the destination (for a player, `Pockets`), and the silent refusals of `addThing` for an index beyond the capacity, are not modelled.
- Loot.Looting.ProcessLootItems: does not model the branch for an item without a parent, which moves all or nothing and leaves the counter alone.
- ItemStream.ReadAttr: the composite attributes are not modelled.
- ItemStream.LoadOne: does not model the branch for stationary items on a tile, beds, nor the saving of whole tiles; attributes are numbers of fixed size and strings.
- Experience.Creature.ShareExperience: the list of killers and the creature with the most damage are not modelled.
- Experience.NeverTooMuch: for one given loss the condition is sufficient only; it is exact over all losses.
- BossCurve.StepHolds: for points whose radicand leaves 32 bits, only what `BonusFalls` says is proved.
- Bestiary.Player.AddBestiaryKill: the signed storage value behind the kill count is a plain number here.
- Scheduler: the creatures' own behaviour in a turn, beyond adding and removing checks.
- The charm rune bits of the bestiary, and buying and assigning charms: a table of bits with easy members.
- Fiendish and influenced monsters, highscores, preys, houses, player attributes: tables or plumbing.
- Combat and speed formulas and random rolls: floating point without an integer meaning.
- Lua, configuration, MySQL handles, protocols, start-up: foreign code and I/O.
