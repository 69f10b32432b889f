// The binary form of item trees in the house tables: written by saveItem, read
// by loadItem and loadContainer (src/io/iomapserialize.cpp:112-235), over the
// streams of src/io/fileloader.hpp:54-149.
module ItemStream {
  import opened Bytes

  type Id = i: int | 0 <= i < 0x1_0000

  const U16: int := 0x1_0000
  const U32: int := 0x1_0000_0000

  const ATTR_CONTAINER_ITEMS: byte := 23

  /** How the value behind an attribute tag is stored. */
  datatype Layout = Number(size: nat) | Text

  /** The tags that readAttr knows; 0 ends the attributes and 23 is the container's own. */
  type Tags = t: map<byte, Layout> | 0 !in t && ATTR_CONTAINER_ITEMS !in t witness map[]

  /** Item::items: which ids exist, and whether the item is a container. */
  type Kinds = map<Id, bool>

  datatype Attr = Attr(tag: byte, value: seq<byte>)

  datatype Item = Item(id: Id, attrs: seq<Attr>, kids: seq<Item>)

  // --------------------------------------------------------------------
  // Numbers and strings
  // --------------------------------------------------------------------

  function Put16(n: int): seq<byte>
    requires 0 <= n < U16
  {
    [n % 0x100, n / 0x100]
  }

  function Put32(n: int): seq<byte>
    requires 0 <= n < U32
  {
    Put16(n % U16) + Put16(n / U16)
  }

  function Get16(s: seq<byte>, i: nat): int
    requires i + 2 <= |s|
  {
    s[i] as int + 0x100 * (s[i + 1] as int)
  }

  function Get32(s: seq<byte>, i: nat): int
    requires i + 4 <= |s|
  {
    Get16(s, i) + U16 * Get16(s, i + 2)
  }

  lemma AtByte(s: seq<byte>, i: nat, b: byte)
    requires At(s, i, [b])
    ensures i < |s| && s[i] == b
  {
  }

  lemma At16(s: seq<byte>, i: nat, n: int)
    requires 0 <= n < U16 && At(s, i, Put16(n))
    ensures i + 2 <= |s| && Get16(s, i) == n
  {
    AtSlice(s, i, Put16(n));
    assert s[i..i + 2][0] == s[i] && s[i..i + 2][1] == s[i + 1];
  }

  lemma At32(s: seq<byte>, i: nat, n: int)
    requires 0 <= n < U32 && At(s, i, Put32(n))
    ensures i + 4 <= |s| && Get32(s, i) == n
  {
    AtSplit(s, i, Put16(n % U16), Put16(n / U16));
    At16(s, i, n % U16);
    At16(s, i + 2, n / U16);
  }

  /** writeString: a string too long for its 16-bit length is dropped, and its length written as 0. */
  function PutString(v: seq<byte>): seq<byte> {
    if |v| >= U16 then Put16(0) else Put16(|v|) + v
  }

  /** The string that comes back. */
  function Kept(v: seq<byte>): seq<byte> {
    if |v| >= U16 then [] else v
  }

  lemma AtString(s: seq<byte>, i: nat, v: seq<byte>)
    requires At(s, i, PutString(v))
    ensures i + 2 + |Kept(v)| == i + |PutString(v)| <= |s|
    ensures Get16(s, i) == |Kept(v)| && s[i + 2..i + 2 + |Kept(v)|] == Kept(v)
  {
    assert PutString(v) == Put16(|Kept(v)|) + Kept(v);
    hide PutString, Kept, At, Get16;
    AtSplit(s, i, Put16(|Kept(v)|), Kept(v));
    At16(s, i, |Kept(v)|);
    AtSlice(s, i + 2, Kept(v));
  }

  // --------------------------------------------------------------------
  // Writing
  // --------------------------------------------------------------------

  function PutAttr(a: Attr, tags: Tags): seq<byte> {
    [a.tag] + if a.tag in tags && tags[a.tag].Text? then PutString(a.value) else a.value
  }

  function PutAttrs(attrs: seq<Attr>, tags: Tags): seq<byte> {
    if attrs == [] then [] else PutAttr(attrs[0], tags) + PutAttrs(attrs[1..], tags)
  }

  /** saveItem: the children of a container come last to first. */
  function Save(x: Item, tags: Tags, kinds: Kinds): seq<byte>
    decreases x, 0
  {
    Put16(x.id) + PutAttrs(x.attrs, tags) +
    (if x.id in kinds && kinds[x.id]
     then [ATTR_CONTAINER_ITEMS] + Put32(|x.kids| % U32) + SaveAll(x.kids, tags, kinds) else []) + [0]
  }

  function SaveAll(xs: seq<Item>, tags: Tags, kinds: Kinds): seq<byte>
    decreases xs, 1
  {
    if xs == [] then []
    else Save(xs[|xs| - 1], tags, kinds) + SaveAll(xs[..|xs| - 1], tags, kinds)
  }

  // --------------------------------------------------------------------
  // Reading
  // --------------------------------------------------------------------

  /** What unserializeAttr makes of the bytes: for a container also the number of its items. */
  datatype Attrs = BadAttrs | GoodAttrs(attrs: seq<Attr>, next: nat, count: int)

  /** Attributes until a 0, the item count of a container, an error, or the end of the bytes. */
  function ReadAttrs(s: seq<byte>, i: nat, tags: Tags, container: bool): (r: Attrs)
    requires i <= |s|
    ensures r.GoodAttrs? ==> i <= r.next <= |s| && r.count >= 0
    decreases |s| - i
  {
    if i == |s| then GoodAttrs([], i, 0)
    else if s[i] == 0 then GoodAttrs([], i + 1, 0)
    else if s[i] == ATTR_CONTAINER_ITEMS && container then
      if i + 5 > |s| then BadAttrs else GoodAttrs([], i + 5, Get32(s, i + 1))
    else if s[i] !in tags then BadAttrs
    else
      var v := ReadValue(s, i + 1, tags[s[i]]);
      if v.None? then BadAttrs else
      var r := ReadAttrs(s, v.next, tags, container);
      if r.BadAttrs? then BadAttrs else r.(attrs := [Attr(s[i], v.value)] + r.attrs)
  }

  datatype Value = None | Some(value: seq<byte>, next: nat)

  function ReadValue(s: seq<byte>, i: nat, layout: Layout): (r: Value)
    requires i <= |s|
    ensures r.Some? ==> i <= r.next <= |s|
  {
    match layout
    case Number(size) => if i + size > |s| then None else Some(s[i..i + size], i + size)
    case Text =>
      if i + 2 > |s| then None else
      var n := Get16(s, i);
      if i + 2 + n > |s| then None else Some(s[i + 2..i + 2 + n], i + 2 + n)
  }

  /** The items that reached the parent, in the parent's order, and where reading stopped. */
  datatype Load = Bad | Loaded(items: seq<Item>, next: nat)

  /** loadItem into a container: an id without an item type is skipped. */
  function LoadItem(s: seq<byte>, i: nat, tags: Tags, kinds: Kinds): (r: Load)
    requires i <= |s|
    ensures r.Loaded? ==> i + 2 <= r.next <= |s|
    decreases |s| - i, 0
  {
    if i + 2 > |s| then Bad else
    var id := Get16(s, i);
    if id !in kinds then Loaded([], i + 2) else
    var a := ReadAttrs(s, i + 2, tags, kinds[id]);
    if a.BadAttrs? then Bad
    else if !kinds[id] then Loaded([Item(id, a.attrs, [])], a.next)
    else
      var r := LoadContainer(s, a.next, a.count, [], tags, kinds);
      if r.Bad? then Bad else Loaded([Item(id, a.attrs, r.items)], r.next)
  }

  /** loadContainer: each item goes in front of those already there, then the attributes end. */
  function LoadContainer(s: seq<byte>, i: nat, count: nat, items: seq<Item>, tags: Tags, kinds: Kinds): (r: Load)
    requires i <= |s|
    ensures r.Loaded? ==> i <= r.next <= |s|
    decreases |s| - i, 1
  {
    if count == 0 then if i < |s| && s[i] == 0 then Loaded(items, i + 1) else Bad
    else
      var r := LoadItem(s, i, tags, kinds);
      if r.Bad? then Bad else LoadContainer(s, r.next, count - 1, r.items + items, tags, kinds)
  }

  /** Bytes that are refused: a tag that no item has, a number of items where there is no container, a value that is
      cut off, and a container whose items are not followed by the end of its attributes. */
  lemma MalformedIsBad(s: seq<byte>, i: nat, container: bool, items: seq<Item>, tags: Tags, kinds: Kinds)
    requires i < |s| && s[i] != 0
    ensures s[i] !in tags && !(container && s[i] == ATTR_CONTAINER_ITEMS) ==>
      ReadAttrs(s, i, tags, container).BadAttrs?
    ensures s[i] in tags && tags[s[i]].Number? && i + 1 + tags[s[i]].size > |s| ==>
      ReadAttrs(s, i, tags, container).BadAttrs?
    ensures s[i] in tags && tags[s[i]].Text? && (i + 3 > |s| || i + 3 + Get16(s, i + 1) > |s|) ==>
      ReadAttrs(s, i, tags, container).BadAttrs?
    ensures LoadContainer(s, i, 0, items, tags, kinds).Bad?
    ensures LoadContainer(s, |s|, 0, items, tags, kinds).Bad?
  {
  }

  // --------------------------------------------------------------------
  // Round trip
  // --------------------------------------------------------------------

  /** An item as the game holds it: its kind and tags exist, numbers have their size, and only containers
      hold items. */
  predicate Proper(x: Item, tags: Tags, kinds: Kinds)
    decreases x, 0
  {
    x.id in kinds && ProperAttrs(x.attrs, tags) && (!kinds[x.id] ==> x.kids == []) && |x.kids| < U32 &&
    ProperAll(x.kids, tags, kinds)
  }

  predicate ProperAll(xs: seq<Item>, tags: Tags, kinds: Kinds)
    decreases xs, 1
  {
    xs == [] || (Proper(xs[|xs| - 1], tags, kinds) && ProperAll(xs[..|xs| - 1], tags, kinds))
  }

  predicate ProperAttrs(attrs: seq<Attr>, tags: Tags) {
    attrs == [] || (ProperAttr(attrs[0], tags) && ProperAttrs(attrs[1..], tags))
  }

  predicate ProperAttr(a: Attr, tags: Tags) {
    a.tag in tags && (tags[a.tag].Number? ==> |a.value| == tags[a.tag].size)
  }

  /** The item with its overlong strings gone. */
  function Clipped(x: Item, tags: Tags): Item
    decreases x, 0
  {
    Item(x.id, ClippedAttrs(x.attrs, tags), ClippedAll(x.kids, tags))
  }

  function ClippedAll(xs: seq<Item>, tags: Tags): seq<Item>
    decreases xs, 1
  {
    if xs == [] then [] else ClippedAll(xs[..|xs| - 1], tags) + [Clipped(xs[|xs| - 1], tags)]
  }

  function ClippedAttr(a: Attr, tags: Tags): Attr {
    if a.tag in tags && tags[a.tag].Text? then a.(value := Kept(a.value)) else a
  }

  function ClippedAttrs(attrs: seq<Attr>, tags: Tags): seq<Attr> {
    if attrs == [] then [] else [ClippedAttr(attrs[0], tags)] + ClippedAttrs(attrs[1..], tags)
  }

  function Prepend(attrs: seq<Attr>, r: Attrs): Attrs {
    if r.BadAttrs? then BadAttrs else r.(attrs := attrs + r.attrs)
  }

  lemma PrependTwice(a: seq<Attr>, b: seq<Attr>, r: Attrs)
    ensures Prepend(a, Prepend(b, r)) == Prepend(a + b, r)
    ensures Prepend([], r) == r
  {
    if r.GoodAttrs? {
      assert a + (b + r.attrs) == a + b + r.attrs;
      assert [] + r.attrs == r.attrs;
    }
  }

  /** Attributes read back up to what stands behind them, a 0 or the item count of a container. */
  lemma {:induction false} AttrsRoundTrip(s: seq<byte>, i: nat, attrs: seq<Attr>, tags: Tags, container: bool)
    requires At(s, i, PutAttrs(attrs, tags))
    requires ProperAttrs(attrs, tags)
    ensures ReadAttrs(s, i, tags, container) ==
      Prepend(ClippedAttrs(attrs, tags), ReadAttrs(s, i + |PutAttrs(attrs, tags)|, tags, container))
    decreases attrs
  {
    hide At, ReadAttrs;
    var after := ReadAttrs(s, i + |PutAttrs(attrs, tags)|, tags, container);
    if attrs == [] {
      PrependTwice([], [], after);
    } else {
      var next := i + |PutAttr(attrs[0], tags)|;
      FirstAttr(s, i, attrs, tags, container);
      AttrsRoundTrip(s, next, attrs[1..], tags, container);
      AttrsJoin(attrs, tags, ReadAttrs(s, i, tags, container), ReadAttrs(s, next, tags, container), after);
    }
  }

  lemma AttrsJoin(attrs: seq<Attr>, tags: Tags, first: Attrs, second: Attrs, after: Attrs)
    requires attrs != []
    requires first == Prepend([ClippedAttr(attrs[0], tags)], second)
    requires second == Prepend(ClippedAttrs(attrs[1..], tags), after)
    ensures first == Prepend(ClippedAttrs(attrs, tags), after)
  {
    PrependTwice([ClippedAttr(attrs[0], tags)], ClippedAttrs(attrs[1..], tags), after);
  }

  lemma FirstAttr(s: seq<byte>, i: nat, attrs: seq<Attr>, tags: Tags, container: bool)
    requires At(s, i, PutAttrs(attrs, tags)) && ProperAttrs(attrs, tags) && attrs != []
    ensures var next := i + |PutAttr(attrs[0], tags)|;
      At(s, next, PutAttrs(attrs[1..], tags)) && ProperAttrs(attrs[1..], tags) &&
      next + |PutAttrs(attrs[1..], tags)| == i + |PutAttrs(attrs, tags)| &&
      ReadAttrs(s, i, tags, container) ==
        Prepend([ClippedAttr(attrs[0], tags)], ReadAttrs(s, next, tags, container))
  {
    hide At, ReadAttrs, PutAttr, Prepend, ClippedAttr, ProperAttr;
    AtSplit(s, i, PutAttr(attrs[0], tags), PutAttrs(attrs[1..], tags));
    OneAttr(s, i, attrs[0], tags, container);
  }

  lemma OneAttr(s: seq<byte>, i: nat, a: Attr, tags: Tags, container: bool)
    requires At(s, i, PutAttr(a, tags)) && ProperAttr(a, tags)
    ensures ReadAttrs(s, i, tags, container) ==
      Prepend([ClippedAttr(a, tags)], ReadAttrs(s, i + |PutAttr(a, tags)|, tags, container))
  {
    AttrRoundTrip(s, i, a, tags);
  }

  lemma AttrRoundTrip(s: seq<byte>, i: nat, a: Attr, tags: Tags)
    requires At(s, i, PutAttr(a, tags)) && ProperAttr(a, tags)
    ensures i < |s| && s[i] == a.tag
    ensures ReadValue(s, i + 1, tags[a.tag]) ==
      Some(if tags[a.tag].Text? then Kept(a.value) else a.value, i + |PutAttr(a, tags)|)
  {
    var v := if tags[a.tag].Text? then PutString(a.value) else a.value;
    AtSplit(s, i, [a.tag], v);
    if tags[a.tag].Text? {
      AtString(s, i + 1, a.value);
    } else {
      AtSlice(s, i + 1, a.value);
    }
  }

  function SavedKids(x: Item, tags: Tags, kinds: Kinds): seq<byte> {
    if x.id in kinds && kinds[x.id]
    then [ATTR_CONTAINER_ITEMS] + Put32(|x.kids| % U32) + SaveAll(x.kids, tags, kinds) else []
  }

  lemma SaveParts(x: Item, tags: Tags, kinds: Kinds)
    ensures Save(x, tags, kinds) == Put16(x.id) + (PutAttrs(x.attrs, tags) + (SavedKids(x, tags, kinds) + [0]))
  {
    var id, attrs, inner := Put16(x.id), PutAttrs(x.attrs, tags), SavedKids(x, tags, kinds);
    assert id + attrs + inner + [0] == id + (attrs + (inner + [0]));
  }

  /** Where the parts of a saved item lie: attributes at i + 2, the container part at n, and the 0 at end. */
  lemma SaveLayout(s: seq<byte>, i: nat, x: Item, tags: Tags, kinds: Kinds) returns (n: nat, end: nat)
    requires At(s, i, Save(x, tags, kinds))
    ensures n == i + 2 + |PutAttrs(x.attrs, tags)| && end == n + |SavedKids(x, tags, kinds)|
    ensures end == i + |Save(x, tags, kinds)| - 1 < |s| && s[end] == 0
    ensures i + 2 <= |s| && Get16(s, i) == x.id
    ensures At(s, i + 2, PutAttrs(x.attrs, tags)) && At(s, n, SavedKids(x, tags, kinds))
  {
    hide At, Save, SavedKids, PutAttrs, Get16;
    var attrs, inner := PutAttrs(x.attrs, tags), SavedKids(x, tags, kinds);
    SaveParts(x, tags, kinds);
    n := i + 2 + |attrs|;
    end := n + |inner|;
    AtSplit(s, i, Put16(x.id), attrs + (inner + [0]));
    AtSplit(s, i + 2, attrs, inner + [0]);
    AtSplit(s, n, inner, [0]);
    At16(s, i, x.id);
    AtByte(s, end, 0);
  }

  lemma KidsLayout(s: seq<byte>, n: nat, x: Item, tags: Tags, kinds: Kinds)
    requires At(s, n, SavedKids(x, tags, kinds)) && x.id in kinds && kinds[x.id] && |x.kids| < U32
    ensures n + 5 + |SaveAll(x.kids, tags, kinds)| == n + |SavedKids(x, tags, kinds)| <= |s|
    ensures s[n] == ATTR_CONTAINER_ITEMS && Get32(s, n + 1) == |x.kids| && At(s, n + 5, SaveAll(x.kids, tags, kinds))
  {
    hide SaveAll, At, Get32;
    var all := SaveAll(x.kids, tags, kinds);
    var head := [ATTR_CONTAINER_ITEMS] + Put32(|x.kids|);
    AtSplit(s, n, head, all);
    AtSplit(s, n, [ATTR_CONTAINER_ITEMS], Put32(|x.kids|));
    AtByte(s, n, ATTR_CONTAINER_ITEMS);
    At32(s, n + 1, |x.kids|);
    assert |head| == 5;
  }

  /** The bytes of a saved item that is no container, read back. */
  lemma PlainAttrs(s: seq<byte>, i: nat, x: Item, tags: Tags, kinds: Kinds)
    requires At(s, i, Save(x, tags, kinds)) && Proper(x, tags, kinds) && !kinds[x.id]
    ensures i + 2 <= |s| && Get16(s, i) == x.id
    ensures ReadAttrs(s, i + 2, tags, false) == GoodAttrs(ClippedAttrs(x.attrs, tags), i + |Save(x, tags, kinds)|, 0)
  {
    hide At, SaveAll;
    var n, end := SaveLayout(s, i, x, tags, kinds);
    AttrsRoundTrip(s, i + 2, x.attrs, tags, false);
    assert ClippedAttrs(x.attrs, tags) + [] == ClippedAttrs(x.attrs, tags);
  }

  lemma AttrsThenCount(s: seq<byte>, i: nat, attrs: seq<Attr>, count: int, tags: Tags)
    requires At(s, i, PutAttrs(attrs, tags)) && ProperAttrs(attrs, tags)
    requires var n := i + |PutAttrs(attrs, tags)|;
      n + 5 <= |s| && s[n] == ATTR_CONTAINER_ITEMS && Get32(s, n + 1) == count
    ensures ReadAttrs(s, i, tags, true) == GoodAttrs(ClippedAttrs(attrs, tags), i + |PutAttrs(attrs, tags)| + 5, count)
  {
    AttrsRoundTrip(s, i, attrs, tags, true);
    assert ClippedAttrs(attrs, tags) + [] == ClippedAttrs(attrs, tags);
  }

  /** The bytes of a saved container: attributes and the number of its items, the items from next on, and a 0. */
  lemma ContainerAttrs(s: seq<byte>, i: nat, x: Item, tags: Tags, kinds: Kinds) returns (next: nat)
    requires At(s, i, Save(x, tags, kinds)) && x.id in kinds && kinds[x.id] && |x.kids| < U32
    requires ProperAttrs(x.attrs, tags)
    ensures i + 2 <= |s| && Get16(s, i) == x.id
    ensures ReadAttrs(s, i + 2, tags, true) == GoodAttrs(ClippedAttrs(x.attrs, tags), next, |x.kids|)
    ensures At(s, next, SaveAll(x.kids, tags, kinds))
    ensures next + |SaveAll(x.kids, tags, kinds)| == i + |Save(x, tags, kinds)| - 1 < |s|
    ensures s[i + |Save(x, tags, kinds)| - 1] == 0
  {
    hide At, ReadAttrs, SavedKids, SaveAll;
    var n, end := SaveLayout(s, i, x, tags, kinds);
    KidsLayout(s, n, x, tags, kinds);
    next := n + 5;
    AttrsThenCount(s, i + 2, x.attrs, |x.kids|, tags);
  }

  lemma LoadsContainer(s: seq<byte>, i: nat, attrs: seq<Attr>, next: nat, count: nat, tags: Tags, kinds: Kinds)
    requires i + 2 <= |s| && Get16(s, i) in kinds && kinds[Get16(s, i)]
    requires ReadAttrs(s, i + 2, tags, true) == GoodAttrs(attrs, next, count)
    requires LoadContainer(s, next, count, [], tags, kinds).Loaded?
    ensures var r := LoadContainer(s, next, count, [], tags, kinds);
      LoadItem(s, i, tags, kinds) == Loaded([Item(Get16(s, i), attrs, r.items)], r.next)
  {
  }

  lemma LoadsNext(s: seq<byte>, i: nat, count: nat, items: seq<Item>, x: Item, next: nat, tags: Tags, kinds: Kinds)
    requires i <= |s| && count > 0 && LoadItem(s, i, tags, kinds) == Loaded([x], next)
    ensures LoadContainer(s, i, count, items, tags, kinds) ==
      LoadContainer(s, next, count - 1, [x] + items, tags, kinds)
  {
  }

  lemma LoadsNone(s: seq<byte>, i: nat, items: seq<Item>, tags: Tags, kinds: Kinds)
    requires i < |s| && s[i] == 0
    ensures LoadContainer(s, i, 0, items, tags, kinds) == Loaded(items, i + 1)
  {
  }

  lemma LastFirst(s: seq<byte>, i: nat, xs: seq<Item>, tags: Tags, kinds: Kinds)
    requires xs != [] && At(s, i, SaveAll(xs, tags, kinds))
    ensures var last, rest := Save(xs[|xs| - 1], tags, kinds), SaveAll(xs[..|xs| - 1], tags, kinds);
      |SaveAll(xs, tags, kinds)| == |last| + |rest| && At(s, i, last) && At(s, i + |last|, rest)
  {
    hide At, Save;
    AtSplit(s, i, Save(xs[|xs| - 1], tags, kinds), SaveAll(xs[..|xs| - 1], tags, kinds));
  }

  lemma LastProper(xs: seq<Item>, tags: Tags, kinds: Kinds)
    requires xs != [] && ProperAll(xs, tags, kinds)
    ensures Proper(xs[|xs| - 1], tags, kinds) && ProperAll(xs[..|xs| - 1], tags, kinds)
  {
  }

  lemma ClippedLast(xs: seq<Item>, items: seq<Item>, tags: Tags)
    requires xs != []
    ensures var last := |xs| - 1;
      ClippedAll(xs[..last], tags) + ([Clipped(xs[last], tags)] + items) == ClippedAll(xs, tags) + items
  {
  }

  lemma PlainRoundTrip(s: seq<byte>, i: nat, x: Item, tags: Tags, kinds: Kinds)
    requires At(s, i, Save(x, tags, kinds)) && Proper(x, tags, kinds) && !kinds[x.id]
    ensures LoadItem(s, i, tags, kinds) == Loaded([Clipped(x, tags)], i + |Save(x, tags, kinds)|)
  {
    PlainAttrs(s, i, x, tags, kinds);
  }

  /** Loading what saveItem wrote gives back the item, children in order, and consumes exactly its bytes. */
  lemma {:induction false} ItemRoundTrip(s: seq<byte>, i: nat, x: Item, tags: Tags, kinds: Kinds)
    requires At(s, i, Save(x, tags, kinds)) && Proper(x, tags, kinds)
    ensures LoadItem(s, i, tags, kinds) == Loaded([Clipped(x, tags)], i + |Save(x, tags, kinds)|)
    decreases x, 1
  {
    hide At, LoadItem, LoadContainer, Save;
    if kinds[x.id] {
      var next := ContainerAttrs(s, i, x, tags, kinds);
      KidsLoaded(s, next, x, tags, kinds);
      LoadsContainer(s, i, ClippedAttrs(x.attrs, tags), next, |x.kids|, tags, kinds);
    } else {
      PlainRoundTrip(s, i, x, tags, kinds);
    }
  }

  lemma {:induction false} KidsLoaded(s: seq<byte>, i: nat, x: Item, tags: Tags, kinds: Kinds)
    requires At(s, i, SaveAll(x.kids, tags, kinds)) && Proper(x, tags, kinds)
    requires i + |SaveAll(x.kids, tags, kinds)| < |s| && s[i + |SaveAll(x.kids, tags, kinds)|] == 0
    ensures LoadContainer(s, i, |x.kids|, [], tags, kinds) ==
      Loaded(ClippedAll(x.kids, tags), i + |SaveAll(x.kids, tags, kinds)| + 1)
    decreases x, 0
  {
    hide At, LoadContainer;
    KidsRoundTrip(s, i, x.kids, [], tags, kinds);
    var kids := ClippedAll(x.kids, tags);
    assert kids + [] == kids;
    LoadsNone(s, i + |SaveAll(x.kids, tags, kinds)|, kids, tags, kinds);
  }

  /** The items of a container, written last to first and each put in front, end in their order. */
  lemma {:induction false} KidsRoundTrip(s: seq<byte>, i: nat, xs: seq<Item>, items: seq<Item>, tags: Tags,
                                         kinds: Kinds)
    requires At(s, i, SaveAll(xs, tags, kinds))
    requires ProperAll(xs, tags, kinds)
    ensures LoadContainer(s, i, |xs|, items, tags, kinds) ==
      LoadContainer(s, i + |SaveAll(xs, tags, kinds)|, 0, ClippedAll(xs, tags) + items, tags, kinds)
    decreases xs, 2
  {
    hide At, LoadItem, LoadContainer;
    if xs == [] {
      assert [] + items == items;
    } else {
      var last, rest := xs[|xs| - 1], xs[..|xs| - 1];
      var mid := i + |Save(last, tags, kinds)|;
      LastFirst(s, i, xs, tags, kinds);
      LastProper(xs, tags, kinds);
      ItemRoundTrip(s, i, last, tags, kinds);
      LoadsNext(s, i, |xs|, items, Clipped(last, tags), mid, tags, kinds);
      KidsRoundTrip(s, mid, rest, [Clipped(last, tags)] + items, tags, kinds);
      ClippedLast(xs, items, tags);
    }
  }

  /** Nothing was lost exactly when no string was too long for its length field. */
  predicate Short(x: Item, tags: Tags)
    decreases x
  {
    (forall k :: 0 <= k < |x.attrs| ==> ShortAttr(x.attrs[k], tags)) &&
    forall k :: 0 <= k < |x.kids| ==> Short(x.kids[k], tags)
  }

  predicate ShortAttr(a: Attr, tags: Tags) {
    a.tag in tags && tags[a.tag].Text? ==> |a.value| < U16
  }

  lemma {:induction false} AttrsUnclipped(attrs: seq<Attr>, tags: Tags)
    ensures |ClippedAttrs(attrs, tags)| == |attrs|
    ensures ClippedAttrs(attrs, tags) == attrs <==> forall k :: 0 <= k < |attrs| ==> ShortAttr(attrs[k], tags)
  {
    if attrs != [] {
      AttrsUnclipped(attrs[1..], tags);
      var c := ClippedAttrs(attrs, tags);
      assert c[0] == attrs[0] <==> ShortAttr(attrs[0], tags);
      assert c == attrs <==> c[0] == attrs[0] && c[1..] == attrs[1..];
      assert forall k :: 1 <= k < |attrs| ==> attrs[k] == attrs[1..][k - 1];
    }
  }

  lemma {:induction false} Unclipped(x: Item, tags: Tags)
    ensures Clipped(x, tags) == x <==> Short(x, tags)
    decreases x, 0
  {
    AttrsUnclipped(x.attrs, tags);
    AllUnclipped(x.kids, tags);
  }

  lemma {:induction false} AllUnclipped(xs: seq<Item>, tags: Tags)
    ensures |ClippedAll(xs, tags)| == |xs|
    ensures ClippedAll(xs, tags) == xs <==> forall k :: 0 <= k < |xs| ==> Short(xs[k], tags)
    decreases xs, 1
  {
    if xs != [] {
      var last, rest := xs[|xs| - 1], xs[..|xs| - 1];
      Unclipped(last, tags);
      AllUnclipped(rest, tags);
      assert xs == rest + [last];
      assert ClippedAll(xs, tags) == xs <==> ClippedAll(rest, tags) == rest && Clipped(last, tags) == last;
    }
  }

  /** An item survives saving and loading unchanged exactly when none of its strings is too long. */
  lemma ItemSurvives(x: Item, tags: Tags, kinds: Kinds)
    requires Proper(x, tags, kinds)
    ensures LoadItem(Save(x, tags, kinds), 0, tags, kinds) == Loaded([x], |Save(x, tags, kinds)|) <==> Short(x, tags)
  {
    var s := Save(x, tags, kinds);
    AtSlice(s, 0, s);
    assert s[..|s|] == s;
    ItemRoundTrip(s, 0, x, tags, kinds);
    Unclipped(x, tags);
  }

  // --------------------------------------------------------------------
  // The streams
  // --------------------------------------------------------------------

  class PropWriteStream {
    var buffer: seq<byte>

    constructor ()
      ensures buffer == []
    {
      buffer := [];
    }

    method Write8(b: byte)
      modifies this
      ensures buffer == old(buffer) + [b]
    {
      buffer := buffer + [b];
    }

    method Write16(n: int)
      requires 0 <= n < U16
      modifies this
      ensures buffer == old(buffer) + Put16(n)
    {
      Write8(n % 0x100);
      Write8(n / 0x100);
    }

    method Write32(n: int)
      requires 0 <= n < U32
      modifies this
      ensures buffer == old(buffer) + Put32(n)
    {
      Write16(n % U16);
      Write16(n / U16);
    }

    method WriteString(v: seq<byte>)
      modifies this
      ensures buffer == old(buffer) + PutString(v)
    {
      if |v| > 0xFFFF {
        Write16(0);
        return;
      }
      Write16(|v|);
      buffer := buffer + v;
    }
  }

  class PropStream {
    const data: seq<byte>
    var p: nat

    ghost predicate Valid()
      reads this
    {
      p <= |data|
    }

    constructor (data: seq<byte>)
      ensures Valid() && this.data == data && p == 0
    {
      this.data := data;
      p := 0;
    }

    method Read8() returns (ok: bool, b: byte)
      requires Valid()
      modifies this
      ensures Valid() && ok == (old(p) < |data|)
      ensures if ok then p == old(p) + 1 && b == data[old(p)] else p == old(p)
    {
      ok, b := p < |data|, 0;
      if ok {
        b := data[p];
        p := p + 1;
      }
    }

    method Read16() returns (ok: bool, n: int)
      requires Valid()
      modifies this
      ensures Valid() && ok == (old(p) + 2 <= |data|) && 0 <= n < U16
      ensures if ok then p == old(p) + 2 && n == Get16(data, old(p)) else p == old(p)
    {
      ok, n := p + 2 <= |data|, 0;
      if ok {
        n := data[p] as int + 0x100 * (data[p + 1] as int);
        p := p + 2;
      }
    }

    method Read32() returns (ok: bool, n: int)
      requires Valid()
      modifies this
      ensures Valid() && ok == (old(p) + 4 <= |data|) && 0 <= n < U32
      ensures if ok then p == old(p) + 4 && n == Get32(data, old(p)) else p == old(p)
    {
      ok, n := p + 4 <= |data|, 0;
      if ok {
        n := Get16(data, p) + U16 * Get16(data, p + 2);
        p := p + 4;
      }
    }

    method Skip(n: nat) returns (ok: bool)
      requires Valid()
      modifies this
      ensures Valid() && ok == (old(p) + n <= |data|)
      ensures p == if ok then old(p) + n else old(p)
    {
      ok := p + n <= |data|;
      if ok {
        p := p + n;
      }
    }

    /** A number of the given size, or readString. */
    method ReadStored(layout: Layout) returns (ok: bool, v: seq<byte>)
      requires Valid()
      modifies this
      ensures Valid() && p >= old(p)
      ensures ok <==> ReadValue(data, old(p), layout).Some?
      ensures ok ==> ReadValue(data, old(p), layout) == Some(v, p)
      ensures !ok ==> p == old(p) + if layout.Text? && old(p) + 2 <= |data| then 2 else 0
    {
      v := [];
      var n: nat;
      if layout.Text? {
        ok, n := Read16();
        if !ok {
          return;
        }
      } else {
        n := layout.size;
      }
      var from := p;
      ok := Skip(n);
      if ok {
        v := data[from..p];
      }
    }
  }

  /** The part of a Container that loading works on: its items and how many are still to come. */
  class Container {
    var items: seq<Item>
    var serializationCount: nat

    constructor ()
      ensures items == [] && serializationCount == 0
    {
      items, serializationCount := [], 0;
    }

    method InternalAddThing(x: Item)
      modifies this`items
      ensures items == [x] + old(items)
    {
      items := [x] + items;
    }
  }

  // --------------------------------------------------------------------
  // Saving and loading
  // --------------------------------------------------------------------

  method SerializeOne(stream: PropWriteStream, a: Attr, tags: Tags)
    modifies stream
    ensures stream.buffer == old(stream.buffer) + PutAttr(a, tags)
  {
    stream.Write8(a.tag);
    if a.tag in tags && tags[a.tag].Text? {
      stream.WriteString(a.value);
    } else {
      stream.buffer := stream.buffer + a.value;
    }
  }

  lemma NextAttrWritten(before: seq<byte>, attrs: seq<Attr>, k: nat, tags: Tags)
    requires k < |attrs|
    ensures before + PutAttr(attrs[k], tags) + PutAttrs(attrs[k + 1..], tags) == before + PutAttrs(attrs[k..], tags)
  {
    var first, rest := PutAttr(attrs[k], tags), PutAttrs(attrs[k + 1..], tags);
    assert attrs[k..][1..] == attrs[k + 1..];
    assert before + first + rest == before + (first + rest);
  }

  method SerializeAttr(stream: PropWriteStream, attrs: seq<Attr>, tags: Tags)
    modifies stream
    ensures stream.buffer == old(stream.buffer) + PutAttrs(attrs, tags)
  {
    ghost var all := stream.buffer + PutAttrs(attrs, tags);
    var k := 0;
    while k < |attrs|
      invariant 0 <= k <= |attrs|
      invariant stream.buffer + PutAttrs(attrs[k..], tags) == all
    {
      NextAttrWritten(stream.buffer, attrs, k, tags);
      SerializeOne(stream, attrs[k], tags);
      k := k + 1;
    }
  }

  lemma NextKidWritten(before: seq<byte>, xs: seq<Item>, k: nat, tags: Tags, kinds: Kinds)
    requires k < |xs|
    ensures before + Save(xs[k], tags, kinds) + SaveAll(xs[..k], tags, kinds) ==
      before + SaveAll(xs[..k + 1], tags, kinds)
  {
    hide Save;
    var last, rest := Save(xs[k], tags, kinds), SaveAll(xs[..k], tags, kinds);
    assert xs[..k + 1][..k] == xs[..k];
    assert before + last + rest == before + (last + rest);
  }

  method SaveItem(stream: PropWriteStream, x: Item, tags: Tags, kinds: Kinds)
    modifies stream
    ensures stream.buffer == old(stream.buffer) + Save(x, tags, kinds)
    decreases x, 1
  {
    hide Save, SaveAll, PutAttrs, Put32;
    ghost var before := stream.buffer;
    stream.Write16(x.id);
    SerializeAttr(stream, x.attrs, tags);
    SaveContents(stream, x, tags, kinds);
    stream.Write8(0);
    SaveParts(x, tags, kinds);
  }

  lemma AllPieces(before: seq<byte>, x: Item, tags: Tags, kinds: Kinds)
    requires x.id in kinds && kinds[x.id]
    ensures before + [ATTR_CONTAINER_ITEMS] + Put32(|x.kids| % U32) + SaveAll(x.kids, tags, kinds) ==
      before + SavedKids(x, tags, kinds)
  {
  }

  /** The container part of saveItem. */
  method SaveContents(stream: PropWriteStream, x: Item, tags: Tags, kinds: Kinds)
    modifies stream
    ensures stream.buffer == old(stream.buffer) + SavedKids(x, tags, kinds)
    decreases x, 0
  {
    hide Save;
    if x.id !in kinds || !kinds[x.id] {
      return;
    }
    stream.Write8(ATTR_CONTAINER_ITEMS);
    stream.Write32(|x.kids| % U32);
    ghost var all := stream.buffer + SaveAll(x.kids, tags, kinds);
    AllPieces(old(stream.buffer), x, tags, kinds);
    var k := |x.kids|;
    assert x.kids[..k] == x.kids;
    while k > 0
      invariant 0 <= k <= |x.kids|
      invariant stream.buffer + SaveAll(x.kids[..k], tags, kinds) == all
    {
      k := k - 1;
      NextKidWritten(stream.buffer, x.kids, k, tags, kinds);
      SaveItem(stream, x.kids[k], tags, kinds);
    }
    assert stream.buffer + [] == stream.buffer;
  }

  datatype ReadResult = Continue(attr: Attr) | End | Error

  /** readAttr after its tag has been read, with the override of Container. */
  method ReadAttr(stream: PropStream, container: Container?, tag: byte, tags: Tags) returns (result: ReadResult)
    requires stream.Valid() && 0 < stream.p && stream.data[stream.p - 1] == tag != 0
    modifies stream
    modifies if container == null then {} else {container}
    ensures stream.Valid() && stream.p >= old(stream.p)
    ensures container != null ==> container.items == old(container.items)
    ensures var r := ReadAttrs(stream.data, old(stream.p) - 1, tags, container != null);
      match result
      case Error => r == BadAttrs
      case End => container != null && r == GoodAttrs([], stream.p, container.serializationCount)
      case Continue(attr) =>
        r == Prepend([attr], ReadAttrs(stream.data, stream.p, tags, container != null)) &&
        (container != null ==> container.serializationCount == old(container.serializationCount))
  {
    if tag == ATTR_CONTAINER_ITEMS && container != null {
      var ok, n := stream.Read32();
      if !ok {
        return Error;
      }
      container.serializationCount := n;
      return End;
    }
    if tag !in tags {
      return Error;
    }
    var ok, v := stream.ReadStored(tags[tag]);
    result := if ok then Continue(Attr(tag, v)) else Error;
  }

  /** unserializeAttr. */
  method UnserializeAttr(stream: PropStream, container: Container?, tags: Tags) returns (ok: bool, attrs: seq<Attr>)
    requires stream.Valid()
    requires container != null ==> container.serializationCount == 0
    modifies stream
    modifies if container == null then {} else {container}
    ensures stream.Valid() && stream.p >= old(stream.p)
    ensures container != null ==> container.items == old(container.items)
    ensures var r := ReadAttrs(stream.data, old(stream.p), tags, container != null);
      ok == r.GoodAttrs? && (ok ==> attrs == r.attrs && stream.p == r.next) &&
      (ok && container != null ==> container.serializationCount == r.count)
  {
    attrs := [];
    ghost var start := ReadAttrs(stream.data, stream.p, tags, container != null);
    PrependTwice([], [], start);
    while true
      invariant stream.Valid() && stream.p >= old(stream.p)
      invariant container != null ==> container.serializationCount == 0 && container.items == old(container.items)
      invariant start == Prepend(attrs, ReadAttrs(stream.data, stream.p, tags, container != null))
      decreases |stream.data| - stream.p
    {
      ReadsNothing(stream.data, stream.p, attrs, tags, container != null);
      hide ReadAttrs;
      var more, tag := stream.Read8();
      if !more || tag == 0 {
        return true, attrs;
      }
      var result := ReadAttr(stream, container, tag, tags);
      if result != Error && result != End {
        PrependTwice(attrs, [result.attr], ReadAttrs(stream.data, stream.p, tags, container != null));
        attrs := attrs + [result.attr];
      } else {
        return result == End, attrs;
      }
    }
  }

  lemma ReadsNothing(s: seq<byte>, i: nat, attrs: seq<Attr>, tags: Tags, container: bool)
    requires i <= |s|
    ensures i == |s| || s[i] == 0 ==>
      Prepend(attrs, ReadAttrs(s, i, tags, container)) == GoodAttrs(attrs, if i == |s| then i else i + 1, 0)
  {
  }

  method LoadOne(stream: PropStream, parent: Container, tags: Tags, kinds: Kinds) returns (ok: bool)
    requires stream.Valid()
    modifies stream, parent`items
    ensures stream.Valid()
    ensures var r := LoadItem(stream.data, old(stream.p), tags, kinds);
      if r.Bad? then !ok && parent.items == old(parent.items)
      else ok && parent.items == r.items + old(parent.items) && stream.p == r.next
    decreases |stream.data| - stream.p, 0
  {
    var id;
    ok, id := stream.Read16();
    if !ok {
      return;
    }
    if id in kinds {
      var container: Container? := null;
      if kinds[id] {
        container := new Container();
      }
      var attrs;
      ok, attrs := UnserializeAttr(stream, container, tags);
      if !ok {
        return;
      }
      var kids := [];
      if container != null {
        ok := LoadInto(stream, container, tags, kinds);
        if !ok {
          return;
        }
        kids := container.items;
      }
      parent.InternalAddThing(Item(id, attrs, kids));
    }
  }

  /** loadContainer: as many items as the count says, each in front of the others, then the end of attributes. */
  method LoadInto(stream: PropStream, container: Container, tags: Tags, kinds: Kinds) returns (ok: bool)
    requires stream.Valid()
    modifies stream, container
    ensures stream.Valid()
    ensures var r := LoadContainer(stream.data, old(stream.p), old(container.serializationCount),
                       old(container.items), tags, kinds);
      if r.Bad? then !ok else ok && container.items == r.items && stream.p == r.next
    decreases |stream.data| - stream.p, 1
  {
    ghost var start :=
      LoadContainer(stream.data, stream.p, container.serializationCount, container.items, tags, kinds);
    while container.serializationCount > 0
      invariant stream.Valid() && stream.p >= old(stream.p)
      invariant start ==
        LoadContainer(stream.data, stream.p, container.serializationCount, container.items, tags, kinds)
    {
      ok := LoadOne(stream, container, tags, kinds);
      if !ok {
        return;
      }
      container.serializationCount := container.serializationCount - 1;
    }
    var b;
    ok, b := stream.Read8();
    ok := ok && b == 0;
  }
}
