// The table of walkable tiles around a creature, shifted in place by its steps
// (src/creatures/creature.cpp:274-331, 504-597).
module WalkCache {

  const HALF_W: int := 11
  const HALF_H: int := 11
  const WIDTH: nat := 2 * HALF_W + 1
  const HEIGHT: nat := 2 * HALF_H + 1

  type Coord = c: int | 0 <= c < 0x1_0000

  datatype Position = Position(x: Coord, y: Coord, z: nat)

  /** The tiles that exist and whose queryAdd answers NOERROR for the creature. */
  type World = set<Position>

  type Grid = g: seq<seq<bool>> |
      |g| == HEIGHT && forall r :: 0 <= r < HEIGHT ==> |g[r]| == WIDTH
    witness seq(HEIGHT, _ => seq(WIDTH, _ => false))

  /** static_cast<uint16_t> */
  function Wrap(c: int): Coord {
    c % 0x1_0000
  }

  /** What queryAdd says now about the tile at an offset of p, coordinates wrapped to 16 bits. */
  function Fresh(w: World, p: Position, dx: int, dy: int): bool {
    Position(Wrap(p.x + dx), Wrap(p.y + dy), p.z) in w
  }

  predicate OnMap(p: Position, dx: int, dy: int) {
    0 <= p.x + dx < 0x1_0000 && 0 <= p.y + dy < 0x1_0000
  }

  predicate InWindow(dx: int, dy: int) {
    -HALF_W <= dx <= HALF_W && -HALF_H <= dy <= HALF_H
  }

  // --------------------------------------------------------------------
  // Coherence: what the cache is for
  // --------------------------------------------------------------------

  /** The cell agrees with its tile. The creature's own cell and cells off the map are exempt. */
  predicate Right(walkable: bool, p: Position, w: World, r: int, c: int) {
    var dx, dy := c - HALF_W, r - HALF_H;
    OnMap(p, dx, dy) && (dx != 0 || dy != 0) ==>
      (walkable <==> Position(p.x + dx, p.y + dy, p.z) in w)
  }

  predicate CellOk(g: Grid, p: Position, w: World, r: int, c: int)
    requires 0 <= r < HEIGHT && 0 <= c < WIDTH
  {
    Right(g[r][c], p, w, r, c)
  }

  ghost predicate Coherent(g: Grid, p: Position, w: World) {
    forall r, c :: 0 <= r < HEIGHT && 0 <= c < WIDTH ==> CellOk(g, p, w, r, c)
  }

  /** The two worlds answer alike everywhere except on the tiles of `touched`. */
  ghost predicate AgreeExcept(w0: World, w1: World, touched: set<Position>) {
    forall q :: q !in touched ==> (q in w0 <==> q in w1)
  }

  // --------------------------------------------------------------------
  // What each update does, as functions of the table
  // --------------------------------------------------------------------

  /** updateMapCache: the position is wrapped first, so an off-map cell is out of range and kept. */
  function Recomputed(g: Grid, p: Position, w: World): Grid {
    seq(HEIGHT, r requires 0 <= r < HEIGHT =>
      seq(WIDTH, c requires 0 <= c < WIDTH =>
        if OnMap(p, c - HALF_W, r - HALF_H) then Fresh(w, p, c - HALF_W, r - HALF_H) else g[r][c]))
  }

  function RowsDown(g: Grid): Grid {
    seq(HEIGHT, r requires 0 <= r < HEIGHT => if r == 0 then g[0] else g[r - 1])
  }

  function RowsUp(g: Grid): Grid {
    seq(HEIGHT, r requires 0 <= r < HEIGHT => if r == HEIGHT - 1 then g[r] else g[r + 1])
  }

  function ColumnsLeft(g: Grid, lo: nat, hi: nat): Grid {
    seq(HEIGHT, r requires 0 <= r < HEIGHT =>
      seq(WIDTH, c requires 0 <= c < WIDTH =>
        if lo <= r <= hi && c < WIDTH - 1 then g[r][c + 1] else g[r][c]))
  }

  function ColumnsRight(g: Grid, lo: nat, hi: nat): Grid {
    seq(HEIGHT, r requires 0 <= r < HEIGHT =>
      seq(WIDTH, c requires 0 <= c < WIDTH =>
        if lo <= r <= hi && c > 0 then g[r][c - 1] else g[r][c]))
  }

  function FilledRow(g: Grid, row: nat, p: Position, w: World): Grid
    requires row < HEIGHT
  {
    g[row := seq(WIDTH, c requires 0 <= c < WIDTH => Fresh(w, p, c - HALF_W, row - HALF_H))]
  }

  function FilledColumn(g: Grid, col: nat, p: Position, w: World): Grid
    requires col < WIDTH
  {
    seq(HEIGHT, r requires 0 <= r < HEIGHT => g[r][col := Fresh(w, p, col - HALF_W, r - HALF_H)])
  }

  /** updateTileCache(tile, pos) for a tile at q, seen by a creature at p. */
  function Patched(g: Grid, p: Position, q: Position, w: World): Grid {
    if q.z == p.z && InWindow(q.x - p.x, q.y - p.y) then
      var r, c := HALF_H + q.y - p.y, HALF_W + q.x - p.x;
      g[r := g[r][c := q in w]]
    else g
  }

  /** Position::getDistanceY: the absolute difference. */
  function DistanceY(p: Position, q: Position): nat {
    if p.y >= q.y then p.y - q.y else q.y - p.y
  }

  function VerticalPart(g: Grid, old_: Position, new_: Position, w: World): Grid {
    if old_.y > new_.y then FilledRow(RowsDown(g), 0, new_, w)
    else if old_.y < new_.y then FilledRow(RowsUp(g), HEIGHT - 1, new_, w)
    else g
  }

  /** The rows that the sideways shift visits: it tests the sign of a distance that has none. */
  function HorizontalPart(g: Grid, old_: Position, new_: Position, w: World): Grid {
    var lo := DistanceY(old_, new_);
    if old_.x < new_.x then FilledColumn(ColumnsLeft(g, lo, HEIGHT - 1), WIDTH - 1, new_, w)
    else if old_.x > new_.x then FilledColumn(ColumnsRight(g, lo, HEIGHT - 1), 0, new_, w)
    else g
  }

  /** onCreatureMove of the owner, not teleported and on one floor. */
  function Stepped(g: Grid, old_: Position, new_: Position, w: World): Grid {
    Patched(HorizontalPart(VerticalPart(g, old_, new_, w), old_, new_, w), new_, old_, w)
  }

  // --------------------------------------------------------------------
  // One step
  // --------------------------------------------------------------------

  predicate Adjacent(p: Position, q: Position) {
    p.z == q.z && -1 <= q.x - p.x <= 1 && -1 <= q.y - p.y <= 1
  }

  predicate SouthDiagonal(p: Position, q: Position) {
    q.y > p.y && q.x != p.x
  }

  /** The column that the sideways part refills. */
  predicate RefilledColumn(p: Position, q: Position, c: int) {
    (q.x > p.x && c == WIDTH - 1) || (q.x < p.x && c == 0)
  }

  /** The cells a step leaves right whatever the map looks like. */
  predicate Kept(p: Position, q: Position, r: int, c: int) {
    SouthDiagonal(p, q) ==> 0 < r < HEIGHT - 1 || RefilledColumn(p, q, c)
  }

  lemma VerticalCell(g: Grid, old_: Position, new_: Position, w: World, r: nat, c: nat)
    requires -1 <= new_.y - old_.y <= 1 && r < HEIGHT && c < WIDTH
    ensures var dy := new_.y - old_.y;
      VerticalPart(g, old_, new_, w)[r][c] ==
        if 0 <= r + dy < HEIGHT then g[r + dy][c] else Fresh(w, new_, c - HALF_W, r - HALF_H)
  {
    hide RowsDown, RowsUp, FilledRow;
    if old_.y > new_.y {
      FilledCell(RowsDown(g), 0, new_, w, r, c);
      RowDown(g, r);
    } else if old_.y < new_.y {
      FilledCell(RowsUp(g), HEIGHT - 1, new_, w, r, c);
      RowUp(g, r);
    }
  }

  lemma RowDown(g: Grid, r: nat)
    requires r < HEIGHT
    ensures RowsDown(g)[r] == if r == 0 then g[0] else g[r - 1]
  {
  }

  lemma RowUp(g: Grid, r: nat)
    requires r < HEIGHT
    ensures RowsUp(g)[r] == if r == HEIGHT - 1 then g[r] else g[r + 1]
  {
  }

  lemma FilledCell(g: Grid, row: nat, p: Position, w: World, r: nat, c: nat)
    requires row < HEIGHT && r < HEIGHT && c < WIDTH
    ensures FilledRow(g, row, p, w)[r][c] == if r == row then Fresh(w, p, c - HALF_W, r - HALF_H) else g[r][c]
  {
    hide Fresh;
  }

  lemma HorizontalCell(g: Grid, old_: Position, new_: Position, w: World, r: nat, c: nat)
    requires Adjacent(old_, new_) && r < HEIGHT && c < WIDTH
    ensures var dx := new_.x - old_.x;
      HorizontalPart(g, old_, new_, w)[r][c] ==
        if RefilledColumn(old_, new_, c) then Fresh(w, new_, c - HALF_W, r - HALF_H)
        else if r >= DistanceY(old_, new_) then g[r][c + dx] else g[r][c]
  {
  }

  lemma PatchedCell(g: Grid, p: Position, q: Position, w: World, r: nat, c: nat)
    requires r < HEIGHT && c < WIDTH
    ensures Patched(g, p, q, w)[r][c] ==
      if q.z == p.z && r == HALF_H + q.y - p.y && c == HALF_W + q.x - p.x then q in w else g[r][c]
  {
  }

  /** Where the value of each cell comes from after a step. */
  function Source(g: Grid, old_: Position, new_: Position, w: World, r: nat, c: nat): bool
    requires Adjacent(old_, new_) && r < HEIGHT && c < WIDTH
  {
    var dx, dy := new_.x - old_.x, new_.y - old_.y;
    if r == HALF_H - dy && c == HALF_W - dx then old_ in w
    else if RefilledColumn(old_, new_, c) then Fresh(w, new_, c - HALF_W, r - HALF_H)
    else
      var from := if r >= DistanceY(old_, new_) then c + dx else c;
      if 0 <= r + dy < HEIGHT then g[r + dy][from] else Fresh(w, new_, from - HALF_W, r - HALF_H)
  }

  lemma SteppedCell(g: Grid, old_: Position, new_: Position, w: World, r: nat, c: nat)
    requires Adjacent(old_, new_) && r < HEIGHT && c < WIDTH
    ensures Stepped(g, old_, new_, w)[r][c] == Source(g, old_, new_, w, r, c)
  {
    hide VerticalPart, HorizontalPart, Patched;
    var v := VerticalPart(g, old_, new_, w);
    PatchedCell(HorizontalPart(v, old_, new_, w), new_, old_, w, r, c);
    HorizontalCell(v, old_, new_, w, r, c);
    if !RefilledColumn(old_, new_, c) {
      VerticalCell(g, old_, new_, w, r, if r >= DistanceY(old_, new_) then c + new_.x - old_.x else c);
    }
  }

  lemma SourceRight(g: Grid, old_: Position, new_: Position, w0: World, w1: World, r: nat, c: nat)
    requires Coherent(g, old_, w0)
    requires Adjacent(old_, new_)
    requires AgreeExcept(w0, w1, {old_, new_})
    requires r < HEIGHT && c < WIDTH && Kept(old_, new_, r, c)
    ensures Right(Source(g, old_, new_, w1, r, c), new_, w1, r, c)
  {
    var dx, dy := new_.x - old_.x, new_.y - old_.y;
    if 0 <= r + dy < HEIGHT && 0 <= c + dx < WIDTH {
      assert CellOk(g, old_, w0, r + dy, c + dx);
    }
  }

  /** Every cell a step keeps right is right afterwards, whatever was on the map. */
  lemma StepCell(g: Grid, old_: Position, new_: Position, w0: World, w1: World, r: nat, c: nat)
    requires Coherent(g, old_, w0)
    requires Adjacent(old_, new_)
    requires AgreeExcept(w0, w1, {old_, new_})
    requires r < HEIGHT && c < WIDTH && Kept(old_, new_, r, c)
    ensures CellOk(Stepped(g, old_, new_, w1), new_, w1, r, c)
  {
    SteppedCell(g, old_, new_, w1, r, c);
    SourceRight(g, old_, new_, w0, w1, r, c);
  }

  function FreshGrid(p: Position, w: World): (g: Grid)
    ensures forall r, c :: 0 <= r < HEIGHT && 0 <= c < WIDTH ==>
      g[r][c] == Fresh(w, p, c - HALF_W, r - HALF_H)
  {
    seq(HEIGHT, r requires 0 <= r < HEIGHT =>
      seq(WIDTH, c requires 0 <= c < WIDTH => Fresh(w, p, c - HALF_W, r - HALF_H)))
  }

  lemma FreshGridCoherent(p: Position, w: World)
    ensures Coherent(FreshGrid(p, w), p, w)
  {
  }

  /** A southward diagonal reads the middle of the top row from its neighbour, and of the bottom row too. */
  lemma SouthDiagonalSource(old_: Position, new_: Position, dy: int)
    requires Adjacent(old_, new_) && SouthDiagonal(old_, new_)
    requires (dy == -HALF_H || dy == HALF_H) && 0 <= new_.y + dy < 0x1_0000
    ensures var w := {Position(new_.x, new_.y + dy, new_.z)};
      !Right(Source(FreshGrid(old_, w), old_, new_, w, HALF_H + dy, HALF_W), new_, w, HALF_H + dy, HALF_W)
  {
  }

  lemma WrongCell(g: Grid, p: Position, w: World, r: nat, c: nat)
    requires r < HEIGHT && c < WIDTH && !Right(g[r][c], p, w, r, c)
    ensures !Coherent(g, p, w)
  {
    assert !CellOk(g, p, w, r, c);
  }

  /** A world in which a step to the south-east or south-west leaves a wrong cell behind. */
  lemma SouthDiagonalBreaks(old_: Position, new_: Position) returns (g: Grid, w: World)
    requires Adjacent(old_, new_) && SouthDiagonal(old_, new_)
    ensures Coherent(g, old_, w) && !Coherent(Stepped(g, old_, new_, w), new_, w)
  {
    var dy := if new_.y >= HALF_H then -HALF_H else HALF_H;
    w := {Position(new_.x, new_.y + dy, new_.z)};
    g := FreshGrid(old_, w);
    FreshGridCoherent(old_, w);
    SouthDiagonalSource(old_, new_, dy);
    SteppedCell(g, old_, new_, w, HALF_H + dy, HALF_W);
    WrongCell(Stepped(g, old_, new_, w), new_, w, HALF_H + dy, HALF_W);
  }

  /** A step keeps every coherent cache coherent exactly when it is not a southward diagonal. */
  lemma StepKeepsCoherence(old_: Position, new_: Position)
    requires Adjacent(old_, new_)
    ensures (forall g: Grid, w0: World, w1: World ::
        Coherent(g, old_, w0) && AgreeExcept(w0, w1, {old_, new_}) ==>
          Coherent(Stepped(g, old_, new_, w1), new_, w1)) <==> !SouthDiagonal(old_, new_)
  {
    if SouthDiagonal(old_, new_) {
      var g, w := SouthDiagonalBreaks(old_, new_);
      assert AgreeExcept(w, w, {old_, new_});
    } else {
      forall g: Grid, w0: World, w1: World | Coherent(g, old_, w0) && AgreeExcept(w0, w1, {old_, new_})
        ensures Coherent(Stepped(g, old_, new_, w1), new_, w1)
      {
        forall r, c | 0 <= r < HEIGHT && 0 <= c < WIDTH
          ensures CellOk(Stepped(g, old_, new_, w1), new_, w1, r, c)
        {
          StepCell(g, old_, new_, w0, w1, r, c);
        }
      }
    }
  }

  // --------------------------------------------------------------------
  // Runs
  // --------------------------------------------------------------------

  /** The item types that decide whether a change of a tile is looked at. */
  datatype ItemType = ItemType(blockSolid: bool, blockPathFind: bool, ground: bool)

  datatype Change = Added | Updated(oldType: ItemType, newType: ItemType) | Removed(iType: ItemType)

  /** onAddTileItem always patches, onUpdateTileItem and onRemoveTileItem only for types that can block. */
  predicate Patches(change: Change) {
    match change
    case Added => true
    case Updated(o, n) => o.blockSolid || o.blockPathFind || n.blockPathFind || n.blockSolid
    case Removed(i) => i.blockSolid || i.blockPathFind || i.ground
  }

  /** What the creature can observe, each with the world as it is right after it. */
  datatype Event =
    | Step(to: Position, world: World)
    | Teleport(to: Position, world: World)
    | OtherMoved(left: Position, entered: Position, world: World)
    | OtherAppeared(at: Position, world: World)
    | OtherRemoved(at: Position, world: World)
    | TileChanged(at: Position, change: Change, world: World)

  datatype View = View(cells: Grid, at: Position, world: World)

  /** The game's own laws: a step goes to a neighbour, and an event touches only its tiles. */
  ghost predicate Possible(v: View, e: Event) {
    match e
    case Step(to, w) => Adjacent(v.at, to) && AgreeExcept(v.world, w, {v.at, to})
    case Teleport(_, _) => true
    case OtherMoved(l, n, w) => AgreeExcept(v.world, w, {l, n})
    case OtherAppeared(q, w) => AgreeExcept(v.world, w, {q})
    case OtherRemoved(q, w) => AgreeExcept(v.world, w, {q})
    case TileChanged(q, _, w) => AgreeExcept(v.world, w, {q})
  }

  function After(v: View, e: Event): View
    requires e.Step? ==> v.at.z == e.to.z
  {
    match e
    case Step(to, w) => View(Stepped(v.cells, v.at, to, w), to, w)
    case Teleport(to, w) => View(Recomputed(v.cells, to, w), to, w)
    case OtherMoved(l, n, w) =>
      View(Patched(Patched(v.cells, v.at, n, w), v.at, l, w), v.at, w)
    case OtherAppeared(q, w) => View(Patched(v.cells, v.at, q, w), v.at, w)
    case OtherRemoved(q, w) => View(Patched(v.cells, v.at, q, w), v.at, w)
    case TileChanged(q, change, w) => View(if Patches(change) then Patched(v.cells, v.at, q, w) else v.cells, v.at, w)
  }

  ghost predicate PossibleRun(v: View, run: seq<Event>)
    decreases |run|
  {
    run == [] || (Possible(v, run[0]) && PossibleRun(After(v, run[0]), run[1..]))
  }

  ghost function AfterRun(v: View, run: seq<Event>): View
    requires PossibleRun(v, run)
    decreases |run|
  {
    if run == [] then v else AfterRun(After(v, run[0]), run[1..])
  }

  /** The cache has a cell for this tile, and reads it. */
  predicate Shown(p: Position, q: Position) {
    q.z == p.z && InWindow(q.x - p.x, q.y - p.y) && q != p
  }

  /**
   * The law of the world, which is not the cache's doing: the answer for a tile changes by an update only
   * if the old or the new type can block, and by a removal only if the type can block or was the ground.
   */
  predicate Lawful(v: View, e: Event) {
    e.TileChanged? && Shown(v.at, e.at) && (e.at in v.world) != (e.at in e.world) ==>
      match e.change
      case Added => true
      case Updated(o, n) => o.blockSolid || o.blockPathFind || n.blockSolid || n.blockPathFind
      case Removed(i) => i.blockSolid || i.blockPathFind || i.ground
  }

  /** The world obeys its law, and no own step of the run goes to the south-east or south-west. */
  ghost predicate LawfulRun(v: View, run: seq<Event>)
    requires PossibleRun(v, run)
    decreases |run|
  {
    run != [] ==>
      Lawful(v, run[0]) && (run[0].Step? ==> !SouthDiagonal(v.at, run[0].to)) &&
      LawfulRun(After(v, run[0]), run[1..])
  }

  lemma RecomputedCoherent(g: Grid, p: Position, w: World)
    ensures Coherent(Recomputed(g, p, w), p, w)
  {
    forall r, c | 0 <= r < HEIGHT && 0 <= c < WIDTH
      ensures CellOk(Recomputed(g, p, w), p, w, r, c)
    {
      assert Recomputed(g, p, w)[r][c] ==
        if OnMap(p, c - HALF_W, r - HALF_H) then Fresh(w, p, c - HALF_W, r - HALF_H) else g[r][c];
    }
  }

  predicate CellOkBut(g: Grid, p: Position, w: World, stale: set<Position>, r: int, c: int)
    requires 0 <= r < HEIGHT && 0 <= c < WIDTH
  {
    CellOk(g, p, w, r, c) || (OnMap(p, c - HALF_W, r - HALF_H) &&
      Position(p.x + c - HALF_W, p.y + r - HALF_H, p.z) in stale)
  }

  /** Coherent up to the cells whose tiles are in `stale`. */
  ghost predicate CoherentBut(g: Grid, p: Position, w: World, stale: set<Position>) {
    forall r, c :: 0 <= r < HEIGHT && 0 <= c < WIDTH ==> CellOkBut(g, p, w, stale, r, c)
  }

  lemma WorldChanged(g: Grid, p: Position, w0: World, w1: World, touched: set<Position>)
    requires Coherent(g, p, w0) && AgreeExcept(w0, w1, touched)
    ensures CoherentBut(g, p, w1, touched)
  {
    forall r, c | 0 <= r < HEIGHT && 0 <= c < WIDTH ensures CellOkBut(g, p, w1, touched, r, c) {
      assert CellOk(g, p, w0, r, c);
    }
  }

  /** updateTileCache repairs the cell of its tile and no other. */
  lemma PatchedCoherent(g: Grid, p: Position, q: Position, w: World, stale: set<Position>)
    requires CoherentBut(g, p, w, stale)
    ensures CoherentBut(Patched(g, p, q, w), p, w, stale - {q})
  {
    forall r, c | 0 <= r < HEIGHT && 0 <= c < WIDTH
      ensures CellOkBut(Patched(g, p, q, w), p, w, stale - {q}, r, c)
    {
      assert CellOkBut(g, p, w, stale, r, c);
      PatchedCell(g, p, q, w, r, c);
    }
  }

  lemma NothingStale(g: Grid, p: Position, w: World, stale: set<Position>)
    requires CoherentBut(g, p, w, stale) && stale == {}
    ensures Coherent(g, p, w)
  {
    forall r, c | 0 <= r < HEIGHT && 0 <= c < WIDTH ensures CellOk(g, p, w, r, c) {
      assert CellOkBut(g, p, w, stale, r, c);
    }
  }

  lemma OnePatch(v: View, q: Position, w: World)
    requires Coherent(v.cells, v.at, v.world) && AgreeExcept(v.world, w, {q})
    ensures Coherent(Patched(v.cells, v.at, q, w), v.at, w)
  {
    WorldChanged(v.cells, v.at, v.world, w, {q});
    PatchedCoherent(v.cells, v.at, q, w, {q});
    NothingStale(Patched(v.cells, v.at, q, w), v.at, w, {q} - {q});
  }

  /**
   * A change of a tile keeps a coherent cache coherent exactly when a type of it can block, the cache
   * does not show the tile, or the answer for the tile stays as it was. An added item always keeps it.
   */
  lemma ChangeKeepsCoherence(v: View, q: Position, change: Change, w: World)
    requires Coherent(v.cells, v.at, v.world) && AgreeExcept(v.world, w, {q})
    ensures Coherent(After(v, TileChanged(q, change, w)).cells, v.at, w) <==>
      change.Added? || !Shown(v.at, q) || (q in v.world <==> q in w) ||
      (change.Updated? && (change.oldType.blockSolid || change.oldType.blockPathFind)) ||
      (change.Updated? && (change.newType.blockSolid || change.newType.blockPathFind)) ||
      (change.Removed? && (change.iType.blockSolid || change.iType.blockPathFind || change.iType.ground))
  {
    if Patches(change) {
      OnePatch(v, q, w);
    } else if Shown(v.at, q) {
      var r, c := HALF_H + q.y - v.at.y, HALF_W + q.x - v.at.x;
      assert CellOk(v.cells, v.at, v.world, r, c);
      if q in v.world <==> q in w {
        SameAnswers(v, w, q);
      } else {
        assert !CellOk(v.cells, v.at, w, r, c);
      }
    } else {
      SameAnswers(v, w, q);
    }
  }

  /** Whatever is added to whatever tile, the cache agrees with the map afterwards. */
  lemma AddedCoherent(v: View, q: Position, w: World)
    requires Coherent(v.cells, v.at, v.world) && AgreeExcept(v.world, w, {q})
    ensures Coherent(After(v, TileChanged(q, Added, w)).cells, v.at, w)
  {
    OnePatch(v, q, w);
  }

  /** An update keeps the cache right wherever an answer changes only with a type that can block. */
  lemma UpdatedCoherent(v: View, q: Position, o: ItemType, n: ItemType, w: World)
    requires Coherent(v.cells, v.at, v.world) && AgreeExcept(v.world, w, {q})
    requires q in v.world && q !in w ==> o.blockSolid || o.blockPathFind || n.blockSolid || n.blockPathFind
    requires q !in v.world && q in w ==> o.blockSolid || o.blockPathFind || n.blockSolid || n.blockPathFind
    ensures Coherent(After(v, TileChanged(q, Updated(o, n), w)).cells, v.at, w)
  {
    ChangeKeepsCoherence(v, q, Updated(o, n), w);
  }

  /** A removal keeps the cache right wherever an answer changes only with a type that blocks or bears. */
  lemma RemovedCoherent(v: View, q: Position, i: ItemType, w: World)
    requires Coherent(v.cells, v.at, v.world) && AgreeExcept(v.world, w, {q})
    requires q in v.world && q !in w ==> i.blockSolid || i.blockPathFind || i.ground
    requires q !in v.world && q in w ==> i.blockSolid || i.blockPathFind || i.ground
    ensures Coherent(After(v, TileChanged(q, Removed(i), w)).cells, v.at, w)
  {
    ChangeKeepsCoherence(v, q, Removed(i), w);
  }

  lemma SameAnswers(v: View, w: World, q: Position)
    requires Coherent(v.cells, v.at, v.world) && AgreeExcept(v.world, w, {q})
    requires Shown(v.at, q) ==> (q in v.world <==> q in w)
    ensures Coherent(v.cells, v.at, w)
  {
    forall r, c | 0 <= r < HEIGHT && 0 <= c < WIDTH ensures CellOk(v.cells, v.at, w, r, c) {
      assert CellOk(v.cells, v.at, v.world, r, c);
    }
  }

  lemma EventCoherent(v: View, e: Event)
    requires Coherent(v.cells, v.at, v.world) && Possible(v, e)
    requires Lawful(v, e) && (e.Step? ==> !SouthDiagonal(v.at, e.to))
    ensures var n := After(v, e);
      Coherent(n.cells, n.at, n.world) && n.world == e.world &&
      n.at == if e.Step? || e.Teleport? then e.to else v.at
  {
    match e
    case Step(to, w) => StepKeepsCoherence(v.at, to);
    case Teleport(to, w) => RecomputedCoherent(v.cells, to, w);
    case OtherMoved(l, n, w) =>
      WorldChanged(v.cells, v.at, v.world, w, {l, n});
      PatchedCoherent(v.cells, v.at, n, w, {l, n});
      PatchedCoherent(Patched(v.cells, v.at, n, w), v.at, l, w, {l, n} - {n});
      NothingStale(After(v, e).cells, v.at, w, {l, n} - {n} - {l});
    case OtherAppeared(q, w) => OnePatch(v, q, w);
    case OtherRemoved(q, w) => OnePatch(v, q, w);
    case TileChanged(q, change, w) => ChangeKeepsCoherence(v, q, change, w);
  }

  /** Over any run of a lawful world, with no southward diagonal, the cache keeps agreeing with the map. */
  lemma {:induction false} RunCoherent(v: View, run: seq<Event>)
    requires Coherent(v.cells, v.at, v.world)
    requires PossibleRun(v, run) && LawfulRun(v, run)
    ensures var n := AfterRun(v, run); Coherent(n.cells, n.at, n.world)
    decreases |run|
  {
    if run != [] {
      EventCoherent(v, run[0]);
      RunCoherent(After(v, run[0]), run[1..]);
    }
  }

  /** The map and the position that the cache then agrees with: the map as the last event left it, and where the
      creature went last. */
  lemma {:induction false} RunEnds(v: View, run: seq<Event>)
    requires PossibleRun(v, run)
    ensures AfterRun(v, run).world == if run == [] then v.world else run[|run| - 1].world
    ensures AfterRun(v, run).at == LastPlace(v.at, run)
    decreases |run|
  {
    if run != [] {
      hide Possible, Stepped, Patched, Recomputed;
      RunEnds(After(v, run[0]), run[1..]);
      LastPlaceNext(v.at, run);
    }
  }

  /** Where the creature is after its own steps and teleports, the latest of which counts. */
  function LastPlace(at: Position, run: seq<Event>): Position {
    if run == [] then at
    else
      var last := run[|run| - 1];
      if last.Step? || last.Teleport? then last.to else LastPlace(at, run[..|run| - 1])
  }

  lemma {:induction false} LastPlaceNext(at: Position, run: seq<Event>)
    requires run != []
    ensures LastPlace(at, run) == LastPlace(if run[0].Step? || run[0].Teleport? then run[0].to else at, run[1..])
    decreases |run|
  {
    if |run| > 1 {
      assert run[1..][|run[1..]| - 1] == run[|run| - 1];
      assert run[..|run| - 1][1..] == run[1..][..|run[1..]| - 1];
      LastPlaceNext(at, run[..|run| - 1]);
    } else {
      assert run[..0] == [] && run[1..] == [];
    }
  }

  // --------------------------------------------------------------------
  // The table itself
  // --------------------------------------------------------------------

  lemma SameGrid(a: Grid, b: Grid)
    requires forall r, c | 0 <= r < HEIGHT && 0 <= c < WIDTH :: a[r][c] == b[r][c]
    ensures a == b
  {
    forall r | 0 <= r < HEIGHT ensures a[r] == b[r] {
    }
  }

  class WalkCache {
    const cells: array2<bool>
    const usesCache: bool  // useCacheMap()
    var mapLoaded: bool
    var at: Position

    ghost predicate Valid() {
      cells.Length0 == HEIGHT && cells.Length1 == WIDTH
    }

    constructor (usesCache: bool, at: Position)
      ensures Valid() && this.usesCache == usesCache && this.at == at && !mapLoaded && fresh(cells)
      ensures forall r, c :: 0 <= r < HEIGHT && 0 <= c < WIDTH ==> !cells[r, c]
    {
      this.usesCache, this.at, mapLoaded := usesCache, at, false;
      cells := new bool[HEIGHT, WIDTH]((_, _) => false);
    }

    ghost function Cells(): (g: Grid)
      requires Valid()
      reads cells
      ensures forall r, c :: 0 <= r < HEIGHT && 0 <= c < WIDTH ==> g[r][c] == cells[r, c]
    {
      seq(HEIGHT, r requires 0 <= r < HEIGHT reads cells requires Valid() =>
        seq(WIDTH, c requires 0 <= c < WIDTH reads cells requires Valid() => cells[r, c]))
    }

    /** updateTileCache with an offset. */
    method UpdateTileAt(walkable: bool, dx: int, dy: int)
      requires Valid()
      modifies cells
      ensures InWindow(dx, dy) ==>
        Cells() == old(Cells())[HALF_H + dy := old(Cells())[HALF_H + dy][HALF_W + dx := walkable]]
      ensures !InWindow(dx, dy) ==> Cells() == old(Cells())
    {
      if InWindow(dx, dy) {
        cells[HALF_H + dy, HALF_W + dx] := walkable;
        ghost var g := old(Cells());
        SameGrid(Cells(), g[HALF_H + dy := g[HALF_H + dy][HALF_W + dx := walkable]]);
      }
    }

    /** updateTileCache with a position. */
    method UpdateTile(q: Position, world: World)
      requires Valid()
      modifies cells
      ensures Cells() == Patched(old(Cells()), at, q, world)
    {
      if q.z == at.z {
        UpdateTileAt(q in world, q.x - at.x, q.y - at.y);
      }
    }

    method UpdateMapCache(world: World)
      requires Valid()
      modifies cells
      ensures Cells() == Recomputed(old(Cells()), at, world)
    {
      var y := -HALF_H;
      while y <= HALF_H
        invariant -HALF_H <= y <= HALF_H + 1
        invariant forall r, c | 0 <= r < HEIGHT && 0 <= c < WIDTH ::
          cells[r, c] == if r < HALF_H + y then Recomputed(old(Cells()), at, world)[r][c] else old(cells[r, c])
      {
        var x := -HALF_W;
        while x <= HALF_W
          invariant -HALF_W <= x <= HALF_W + 1
          invariant forall r, c | 0 <= r < HEIGHT && 0 <= c < WIDTH ::
            cells[r, c] == if r < HALF_H + y || (r == HALF_H + y && c < HALF_W + x)
            then Recomputed(old(Cells()), at, world)[r][c] else old(cells[r, c])
        {
          var pos := Position(Wrap(at.x + x), Wrap(at.y + y), at.z);
          ghost var before := Cells();
          UpdateTile(pos, world);
          assert OnMap(at, x, y) ==> pos == Position(at.x + x, at.y + y, at.z);
          assert !OnMap(at, x, y) ==> !InWindow(pos.x - at.x, pos.y - at.y);
          forall r, c | 0 <= r < HEIGHT && 0 <= c < WIDTH
            ensures Cells()[r][c] == if OnMap(at, x, y) && r == HALF_H + y && c == HALF_W + x
                                     then Fresh(world, at, x, y) else before[r][c]
          {
            PatchedCell(before, at, pos, world, r, c);
          }
          x := x + 1;
        }
        y := y + 1;
      }
      SameGrid(Cells(), Recomputed(old(Cells()), at, world));
    }

    method ShiftRowsSouth()
      requires Valid()
      modifies cells
      ensures Cells() == RowsDown(old(Cells()))
    {
      var y := HEIGHT - 1;
      while y > 0
        invariant 0 <= y <= HEIGHT - 1
        invariant forall r, c | 0 <= r < HEIGHT && 0 <= c < WIDTH ::
          cells[r, c] == if r > y then old(cells[r - 1, c]) else old(cells[r, c])
      {
        y := y - 1;
        forall x | 0 <= x < WIDTH {
          cells[y + 1, x] := cells[y, x];
        }
      }
      SameGrid(Cells(), RowsDown(old(Cells())));
    }

    method ShiftRowsNorth()
      requires Valid()
      modifies cells
      ensures Cells() == RowsUp(old(Cells()))
    {
      for y := 0 to HEIGHT - 1
        invariant forall r, c | 0 <= r < HEIGHT && 0 <= c < WIDTH ::
          cells[r, c] == if r < y then old(cells[r + 1, c]) else old(cells[r, c])
      {
        forall x | 0 <= x < WIDTH {
          cells[y, x] := cells[y + 1, x];
        }
      }
      SameGrid(Cells(), RowsUp(old(Cells())));
    }

    method ShiftColumnsWest(starty: nat, endy: int)
      requires Valid() && endy < HEIGHT
      modifies cells
      ensures endy >= 0 ==> Cells() == ColumnsLeft(old(Cells()), starty, endy)
    {
      var y := starty;
      while y <= endy
        invariant starty <= y && (starty <= endy ==> y <= endy + 1)
        invariant forall r, c | 0 <= r < HEIGHT && 0 <= c < WIDTH ::
          cells[r, c] == if starty <= r < y && r <= endy && c < WIDTH - 1 then old(cells[r, c + 1])
          else old(cells[r, c])
      {
        for x := 0 to WIDTH - 1
          invariant forall r, c | 0 <= r < HEIGHT && 0 <= c < WIDTH ::
            cells[r, c] == if (starty <= r < y && c < WIDTH - 1) || (r == y && c < x) then old(cells[r, c + 1])
            else old(cells[r, c])
        {
          cells[y, x] := cells[y, x + 1];
        }
        y := y + 1;
      }
      if endy >= 0 {
        SameGrid(Cells(), ColumnsLeft(old(Cells()), starty, endy));
      }
    }

    method ShiftColumnsEast(starty: nat, endy: int)
      requires Valid() && endy < HEIGHT
      modifies cells
      ensures endy >= 0 ==> Cells() == ColumnsRight(old(Cells()), starty, endy)
    {
      var y := starty;
      while y <= endy
        invariant starty <= y && (starty <= endy ==> y <= endy + 1)
        invariant forall r, c | 0 <= r < HEIGHT && 0 <= c < WIDTH ::
          cells[r, c] == if starty <= r < y && r <= endy && c > 0 then old(cells[r, c - 1]) else old(cells[r, c])
      {
        var x := WIDTH - 1;
        while x > 0
          invariant 0 <= x <= WIDTH - 1
          invariant forall r, c | 0 <= r < HEIGHT && 0 <= c < WIDTH ::
            cells[r, c] == if (starty <= r < y && c > 0) || (r == y && c > x) then old(cells[r, c - 1])
            else old(cells[r, c])
        {
          x := x - 1;
          cells[y, x + 1] := cells[y, x];
        }
        y := y + 1;
      }
      if endy >= 0 {
        SameGrid(Cells(), ColumnsRight(old(Cells()), starty, endy));
      }
    }

    method FillRow(dy: int, world: World)
      requires Valid() && -HALF_H <= dy <= HALF_H
      modifies cells
      ensures Cells() == FilledRow(old(Cells()), HALF_H + dy, at, world)
    {
      var x := -HALF_W;
      while x <= HALF_W
        invariant -HALF_W <= x <= HALF_W + 1
        invariant forall r, c | 0 <= r < HEIGHT && 0 <= c < WIDTH ::
          cells[r, c] == if r == HALF_H + dy && c < HALF_W + x then Fresh(world, at, c - HALF_W, dy)
          else old(cells[r, c])
      {
        UpdateTileAt(Fresh(world, at, x, dy), x, dy);
        x := x + 1;
      }
      SameGrid(Cells(), FilledRow(old(Cells()), HALF_H + dy, at, world));
    }

    method FillColumn(dx: int, world: World)
      requires Valid() && -HALF_W <= dx <= HALF_W
      modifies cells
      ensures Cells() == FilledColumn(old(Cells()), HALF_W + dx, at, world)
    {
      var y := -HALF_H;
      while y <= HALF_H
        invariant -HALF_H <= y <= HALF_H + 1
        invariant forall r, c | 0 <= r < HEIGHT && 0 <= c < WIDTH ::
          cells[r, c] == if c == HALF_W + dx && r < HALF_H + y then Fresh(world, at, dx, r - HALF_H)
          else old(cells[r, c])
      {
        UpdateTileAt(Fresh(world, at, dx, y), dx, y);
        y := y + 1;
      }
      SameGrid(Cells(), FilledColumn(old(Cells()), HALF_W + dx, at, world));
    }

    /** onCreatureMove for the creature itself, already standing at its new position. */
    method OnOwnMove(old_: Position, teleport: bool, world: World)
      requires Valid()
      modifies cells
      ensures !mapLoaded ==> Cells() == old(Cells())
      ensures mapLoaded && (teleport || old_.z != at.z) ==> Cells() == Recomputed(old(Cells()), at, world)
      ensures mapLoaded && !teleport && old_.z == at.z ==> Cells() == Stepped(old(Cells()), old_, at, world)
    {
      if mapLoaded {
        if teleport || old_.z != at.z {
          UpdateMapCache(world);
        } else {
          if old_.y > at.y {
            ShiftRowsSouth();
            FillRow(-HALF_H, world);
          } else if old_.y < at.y {
            ShiftRowsNorth();
            FillRow(HALF_H, world);
          }
          if old_.x != at.x {
            var starty, endy := 0, HEIGHT - 1;
            var dy: int := DistanceY(old_, at);
            if dy < 0 {
              endy := endy + dy;
            } else if dy > 0 {
              starty := dy;
            }
            if old_.x < at.x {
              ShiftColumnsWest(starty, endy);
              FillColumn(HALF_W, world);
            } else {
              ShiftColumnsEast(starty, endy);
              FillColumn(-HALF_W, world);
            }
          }
          UpdateTile(old_, world);
        }
      }
    }

    /** onCreatureMove for another creature. */
    method OnOtherMove(left: Position, entered: Position, world: World)
      requires Valid()
      modifies cells
      ensures Cells() == if mapLoaded then After(View(old(Cells()), at, world), OtherMoved(left, entered, world)).cells
                         else old(Cells())
    {
      if mapLoaded {
        if entered.z == at.z {
          UpdateTile(entered, world);
        }
        if left.z == at.z {
          UpdateTile(left, world);
        }
      }
    }

    /** onAddTileItem, onUpdateTileItem and onRemoveTileItem. */
    method OnTileItem(q: Position, change: Change, world: World)
      requires Valid()
      modifies cells
      ensures Cells() == if mapLoaded then After(View(old(Cells()), at, world), TileChanged(q, change, world)).cells
                         else old(Cells())
      ensures mapLoaded && change.Added? && Shown(at, q) ==>
        (cells[HALF_H + q.y - at.y, HALF_W + q.x - at.x] <==> q in world)
    {
      if mapLoaded && Patches(change) && q.z == at.z {
        UpdateTile(q, world);
      }
    }

    /** onCreatureAppear for another creature. */
    method OnOtherAppear(q: Position, world: World)
      requires Valid()
      modifies cells
      ensures Cells() == if mapLoaded then After(View(old(Cells()), at, world), OtherAppeared(q, world)).cells
                         else old(Cells())
    {
      if mapLoaded && q.z == at.z {
        UpdateTile(q, world);
      }
    }

    /** onRemoveCreature for another creature. */
    method OnOtherRemove(q: Position, world: World)
      requires Valid()
      modifies cells
      ensures Cells() == if mapLoaded then After(View(old(Cells()), at, world), OtherRemoved(q, world)).cells
                         else old(Cells())
    {
      if mapLoaded && q.z == at.z {
        UpdateTile(q, world);
      }
    }

    /** onCreatureAppear for the creature itself. */
    method OnOwnAppear(world: World)
      requires Valid()
      modifies this, cells
      ensures Valid() && at == old(at)
      ensures usesCache ==> mapLoaded && Cells() == Recomputed(old(Cells()), at, world)
      ensures !usesCache ==> mapLoaded == old(mapLoaded) && Cells() == old(Cells())
    {
      if usesCache {
        mapLoaded := true;
        UpdateMapCache(world);
      }
    }

    /** getWalkCache: 0 and 1 answer for the tile, 2 asks the caller to look at the map itself. */
    method GetWalkCache(q: Position, ghost world: World) returns (answer: int)
      requires Valid()
      ensures answer == 2 <==> !usesCache || (q.z == at.z && !InWindow(q.x - at.x, q.y - at.y))
      ensures usesCache && q == at ==> answer == 1
      ensures usesCache && q.z != at.z ==> answer == 0
      ensures usesCache && q != at && q.z == at.z && InWindow(q.x - at.x, q.y - at.y) ==>
        (answer == 0 || answer == 1) && (Coherent(Cells(), at, world) ==> (answer == 1 <==> q in world))
    {
      if !usesCache {
        return 2;
      }
      if q.z != at.z {
        return 0;
      }
      if q == at {
        return 1;
      }
      var dx, dy := q.x - at.x, q.y - at.y;
      if -HALF_W <= dx <= HALF_W {
        if -HALF_H <= dy <= HALF_H {
          assert Coherent(Cells(), at, world) ==> CellOk(Cells(), at, world, HALF_H + dy, HALF_W + dx);
          return if cells[HALF_H + dy, HALF_W + dx] then 1 else 0;
        }
      }
      return 2;
    }
  }
}
