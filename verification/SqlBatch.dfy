// Batched inserts: rows are joined into one string of values, and execute cuts
// that string, behind the end of a row where it can, into statements below the
// size limit of a query (src/database/database.cpp:284-370).
module SqlBatch {
  import opened Sequences

  const MAX_QUERY_SIZE: nat := 8 * 1024 * 1024
  const SIZE: nat := 0x1_0000_0000_0000_0000  // size_t

  // --------------------------------------------------------------------
  // The values
  // --------------------------------------------------------------------

  function Group(row: string): string {
    "(" + row + ")"
  }

  /** The string of values that holds these rows. */
  function Values(rows: seq<string>): string {
    if rows == [] then ""
    else if |rows| == 1 then Group(rows[0])
    else Group(rows[0]) + ("," + Values(rows[1..]))
  }

  lemma {:induction false} ValuesPushed(rows: seq<string>, row: string)
    ensures Values(rows + [row]) == if rows == [] then Group(row) else Values(rows) + "," + Group(row)
  {
    hide Group;
    if rows != [] {
      ValuesPushed(rows[1..], row);
      assert (rows + [row])[1..] == rows[1..] + [row];
      assert Group(rows[0]) + ("," + (Values(rows[1..]) + "," + Group(row))) ==
        Group(rows[0]) + ("," + Values(rows[1..])) + "," + Group(row);
      assert |rows| == 1 ==> Group(rows[0]) + ("," + Group(row)) == Group(rows[0]) + "," + Group(row);
    }
  }

  lemma {:induction false} ValuesSplit(rows: seq<string>, k: nat)
    requires 0 < k < |rows|
    ensures Values(rows) == Values(rows[..k]) + ("," + Values(rows[k..]))
  {
    hide Group;
    if k > 1 {
      ValuesSplit(rows[1..], k - 1);
      assert rows[..k][1..] == rows[1..][..k - 1] && rows[1..][k - 1..] == rows[k..];
      var a, b := Values(rows[1..][..k - 1]), Values(rows[k..]);
      assert Group(rows[0]) + ("," + (a + ("," + b))) == Group(rows[0]) + ("," + a) + ("," + b);
    } else {
      assert rows[..1] == [rows[0]];
    }
  }

  /** Values stand in parentheses, so they end in no comma. */
  lemma {:induction false} InParentheses(rows: seq<string>)
    requires rows != []
    ensures |Values(rows)| >= 2 && Values(rows)[0] == '(' && Values(rows)[|Values(rows)| - 1] == ')'
  {
    if |rows| > 1 {
      InParentheses(rows[1..]);
    }
  }

  lemma {:induction false} GroupWithin(rows: seq<string>, j: nat)
    requires j < |rows|
    ensures |Group(rows[j])| <= |Values(rows)|
  {
    if j > 0 {
      GroupWithin(rows[1..], j - 1);
    }
  }

  // --------------------------------------------------------------------
  // Cutting
  // --------------------------------------------------------------------

  /** "),(" stands at i. */
  predicate BoundaryAt(s: string, i: int) {
    0 <= i && i + 3 <= |s| && s[i] == ')' && s[i + 1] == ',' && s[i + 2] == '('
  }

  /** rfind("),(", k), with -1 for npos. */
  function RFind(s: string, k: int): (i: int)
    ensures -1 <= i && (i >= 0 ==> i <= k && BoundaryAt(s, i))
    ensures forall j {:trigger BoundaryAt(s, j)} :: i < j <= k ==> !BoundaryAt(s, j)
    decreases k + 1
  {
    if k < 0 then -1 else if BoundaryAt(s, k) then k else RFind(s, k - 1)
  }

  /** The length of the next piece; 0 when there is no place to cut. */
  function Cut(s: string, room: nat): (n: nat)
    requires s != ""
    ensures n == 0 || n == |s| <= room || (2 <= n <= room + 2 && n < |s| && s[n - 1] == ',')
  {
    if room >= |s| then |s|
    else
      var i := RFind(s, room);
      if i < 0 then 0 else i + 2
  }

  function Trim(batch: string): string
    requires batch != ""
  {
    if batch[|batch| - 1] == ',' then batch[..|batch| - 1] else batch
  }

  datatype Plan = Plan(batches: seq<string>, ok: bool)

  function Then(batch: string, p: Plan): Plan {
    Plan([batch] + p.batches, p.ok)
  }

  /** The loop of execute, when the database accepts each statement. */
  function Batches(s: string, room: nat): Plan
    decreases |s|
  {
    if s == "" then Plan([], true) else
    var n := Cut(s, room);
    if n == 0 then Plan([], false) else Then(Trim(s[..n]), Batches(s[n..], room))
  }

  /** MAX_QUERY_SIZE - baseQuery.size() - upsertQuery.size(), which is unsigned. */
  function Room(base: nat, upsert: nat): nat {
    (MAX_QUERY_SIZE - base - upsert) % SIZE
  }

  function Join(batches: seq<string>): string {
    if batches == [] then "" else if |batches| == 1 then batches[0] else batches[0] + ("," + Join(batches[1..]))
  }

  lemma TrimCut(s: string, n: nat)
    requires 0 < n <= |s| && (if n < |s| then s[n - 1] == ',' else s[n - 1] != ',')
    ensures Trim(s[..n]) + (if n < |s| then "," + s[n..] else "") == s
  {
    assert s[..n][n - 1] == s[n - 1];
    assert n < |s| ==> s[..n - 1] + ("," + s[n..]) == s;
    assert n == |s| ==> s[..n] + "" == s;
  }

  /** Joined with commas, the batches are the values again. */
  lemma {:induction false} Rejoined(s: string, room: nat)
    requires s == "" || s[|s| - 1] != ','
    requires Batches(s, room).ok
    ensures Join(Batches(s, room).batches) == s
    ensures s == "" <==> Batches(s, room).batches == []
    decreases |s|
  {
    if s != "" {
      hide Cut, Trim, Join;
      var n := Cut(s, room);
      Rejoined(s[n..], room);
      TrimCut(s, n);
    }
  }

  /** So a call that gets through has sent the values of all rows. */
  lemma AllValuesSent(rows: seq<string>, room: nat)
    requires Batches(Values(rows), room).ok
    ensures Join(Batches(Values(rows), room).batches) == Values(rows)
  {
    hide Batches, Values;
    if rows == [] {
      NoRows();
    } else {
      InParentheses(rows);
    }
    Rejoined(Values(rows), room);
  }

  function Statement(base: string, batch: string, upsert: string): string {
    base + " " + batch + upsert
  }

  lemma {:induction false} BatchesFit(s: string, room: nat, k: nat)
    requires k < |Batches(s, room).batches|
    ensures |Batches(s, room).batches[k]| <= room + 1
    decreases |s|
  {
    hide Cut;
    var n := Cut(s, room);
    assert 0 < n < |s| ==> s[..n][n - 1] == ',';
    if k > 0 {
      BatchesFit(s[n..], room, k - 1);
    }
  }

  /** No statement is longer than MAX_QUERY_SIZE + 2, as long as the query leaves room for values; when it
      does not, the subtraction wraps and everything goes out in one statement. */
  lemma StatementsFit(base: string, upsert: string, s: string)
    requires s != "" && |base| + |upsert| + |s| < SIZE
    ensures var p := Batches(s, Room(|base|, |upsert|));
      if |base| + |upsert| <= MAX_QUERY_SIZE
      then forall k :: 0 <= k < |p.batches| ==> |Statement(base, p.batches[k], upsert)| <= MAX_QUERY_SIZE + 2
      else p == Plan([Trim(s)], true)
  {
    hide *;
    var room := Room(|base|, |upsert|);
    RoomIs(|base|, |upsert|);
    if |base| + |upsert| <= MAX_QUERY_SIZE {
      forall k | 0 <= k < |Batches(s, room).batches|
        ensures |Statement(base, Batches(s, room).batches[k], upsert)| <= MAX_QUERY_SIZE + 2
      {
        BatchesFit(s, room, k);
        StatementLength(base, Batches(s, room).batches[k], upsert);
      }
    } else {
      AtOnce(s, room);
    }
  }

  lemma RoomIs(base: nat, upsert: nat)
    requires base + upsert < SIZE
    ensures base + upsert + Room(base, upsert) == MAX_QUERY_SIZE + if base + upsert <= MAX_QUERY_SIZE then 0 else SIZE
  {
  }

  lemma StatementLength(base: string, batch: string, upsert: string)
    ensures |Statement(base, batch, upsert)| == |base| + 1 + |batch| + |upsert|
  {
  }

  lemma AtOnce(s: string, room: nat)
    requires s != "" && |s| <= room
    ensures Batches(s, room) == Plan([Trim(s)], true)
  {
    assert s[..|s|] == s && s[|s|..] == "";
  }

  // --------------------------------------------------------------------
  // Whole rows
  // --------------------------------------------------------------------

  /** How many rows go into the next statement: as many as keep it within room + 1, but never all. */
  function Fit(rows: seq<string>, room: int): (k: nat)
    ensures k == 0 || k < |rows|
  {
    if |rows| <= 1 || |Group(rows[0])| > room + 1 then 0
    else 1 + Fit(rows[1..], room - |Group(rows[0])| - 1)
  }

  /** The rows of each statement, and whether there was room for all of them. */
  datatype Packing = Packing(chunks: seq<seq<string>>, ok: bool)

  function Pack(rows: seq<string>, room: nat): Packing
    decreases |rows|
  {
    if rows == [] then Packing([], true)
    else if |Values(rows)| <= room then Packing([rows], true)
    else
      var k := Fit(rows, room);
      if k == 0 then Packing([], false) else
      var p := Pack(rows[k..], room);
      Packing([rows[..k]] + p.chunks, p.ok)
  }

  function Sent(p: Packing): Plan
    decreases |p.chunks|
  {
    if p.chunks == [] then Plan([], p.ok) else Then(Values(p.chunks[0]), Sent(p.(chunks := p.chunks[1..])))
  }

  function Flatten(chunks: seq<seq<string>>): seq<string> {
    if chunks == [] then [] else chunks[0] + Flatten(chunks[1..])
  }

  /** The row holds no "),(". */
  predicate Plain(row: string) {
    forall i {:trigger BoundaryAt(row, i)} :: 0 <= i < |row| ==> !BoundaryAt(row, i)
  }

  predicate AllPlain(rows: seq<string>) {
    forall k :: 0 <= k < |rows| ==> Plain(rows[k])
  }

  /** The boundaries of the values: none in the first group, one behind it, and then those of the rest. */
  lemma Boundaries(rows: seq<string>, i: int)
    requires rows != [] && Plain(rows[0])
    ensures var g := |Group(rows[0])|;
      BoundaryAt(Values(rows), i) <==>
        |rows| > 1 && (i == g - 1 || (i > g && BoundaryAt(Values(rows[1..]), i - g - 1)))
  {
    var s, row := Values(rows), rows[0];
    var g := |Group(row)|;
    if 0 <= i < g - 1 && i + 3 <= |s| {
      NoneInside(row, s, i);
    } else if i >= g && |rows| > 1 {
      assert forall j :: g < j < |s| ==> s[j] == Values(rows[1..])[j - g - 1];
    } else if i == g - 1 && |rows| > 1 {
      InParentheses(rows[1..]);
    }
  }

  lemma NoneInside(row: string, s: string, i: int)
    requires Plain(row) && Group(row) <= s && 0 <= i <= |row| && i + 3 <= |s|
    ensures !BoundaryAt(s, i)
  {
    assert s[..|row| + 2] == Group(row);
    assert s[0] == '(' && s[|row| + 1] == ')';
    assert forall j :: 0 <= j < |row| ==> s[j + 1] == row[j];
    if 0 < i && i + 2 <= |row| {
      assert !BoundaryAt(row, i - 1);
    }
  }

  /** The last place to cut is behind the rows that fit. */
  lemma {:induction false} FindsFit(rows: seq<string>, room: int)
    requires rows != [] && AllPlain(rows) && room >= -1
    ensures var k := Fit(rows, room);
      RFind(Values(rows), room) == if k == 0 then -1 else |Values(rows[..k])| - 1
  {
    var s, g := Values(rows), |Group(rows[0])|;
    if |rows| == 1 || g > room + 1 {
      forall j | -1 < j <= room ensures !BoundaryAt(s, j) {
        Boundaries(rows, j);
      }
    } else {
      NextFound(rows, room);
    }
  }

  lemma {:induction false} NextFound(rows: seq<string>, room: int)
    requires |rows| > 1 && AllPlain(rows) && |Group(rows[0])| <= room + 1
    ensures RFind(Values(rows), room) == |Values(rows[..Fit(rows, room)])| - 1 >= 0
    decreases rows, 0
  {
    var s, g := Values(rows), |Group(rows[0])|;
    var k := Fit(rows[1..], room - g - 1);
    var i := g - 1;
    if room > g {
      FindsFit(rows[1..], room - g - 1);
      if k > 0 {
        i := g + RFind(Values(rows[1..]), room - g - 1) + 1;
      }
    }
    FirstLength(rows, k);
    Boundaries(rows, i);
    forall j | i < j <= room ensures !BoundaryAt(s, j) {
      Boundaries(rows, j);
    }
  }

  lemma FirstLength(rows: seq<string>, k: nat)
    requires k < |rows|
    ensures |Values(rows[..k + 1])| ==
      |Group(rows[0])| + if k == 0 then 0 else 1 + |Values(rows[1..][..k])|
  {
    assert rows[..k + 1][1..] == rows[1..][..k];
  }

  lemma PieceOf(rows: seq<string>, k: nat)
    requires 0 < k < |rows|
    ensures var s, n := Values(rows), |Values(rows[..k])| + 1;
      n < |s| && Trim(s[..n]) == Values(rows[..k]) && s[n..] == Values(rows[k..])
  {
    hide *;
    ValuesSplit(rows, k);
    InParentheses(rows[k..]);
    TrimPiece(Values(rows[..k]), Values(rows[k..]));
  }

  lemma TrimPiece(a: string, b: string)
    requires b != ""
    ensures var s, n := a + ("," + b), |a| + 1;
      n < |s| && Trim(s[..n]) == a && s[n..] == b
  {
    assert (a + ("," + b))[..|a| + 1] == a + "," && (a + ("," + b))[|a| + 1..] == b;
    assert (a + ",")[|a|] == ',' && (a + ",")[..|a|] == a;
  }

  lemma CutIsFit(rows: seq<string>, room: nat)
    requires rows != [] && AllPlain(rows) && room < |Values(rows)|
    ensures var k := Fit(rows, room);
      Cut(Values(rows), room) == if k == 0 then 0 else |Values(rows[..k])| + 1
  {
    FindsFit(rows, room);
  }

  lemma SentFirst(rows: seq<string>, p: Packing)
    ensures Sent(Packing([rows] + p.chunks, p.ok)) == Then(Values(rows), Sent(p))
  {
    assert ([rows] + p.chunks)[1..] == p.chunks;
  }

  lemma PlainRest(rows: seq<string>, k: nat)
    requires AllPlain(rows) && k <= |rows|
    ensures AllPlain(rows[k..])
  {
  }

  /** What is sent is the same as if whole rows had been packed. */
  lemma {:induction false} SendsWholeRows(rows: seq<string>, room: nat)
    requires AllPlain(rows)
    ensures Batches(Values(rows), room) == Sent(Pack(rows, room))
    decreases |rows|
  {
    hide AllPlain, Cut, Trim, Fit;
    if rows != [] {
      InParentheses(rows);
      if |Values(rows)| <= room {
        var s := Values(rows);
        AtOnce(s, room);
        TrimCut(s, |s|);
        assert s[..|s|] == s && Trim(s) + "" == Trim(s);
      } else {
        CutIsFit(rows, room);
        var k := Fit(rows, room);
        if k > 0 {
          PieceOf(rows, k);
          PlainRest(rows, k);
          SendsWholeRows(rows[k..], room);
          SentFirst(rows[..k], Pack(rows[k..], room));
        }
      }
    }
  }

  lemma {:induction false} FlattenConcat(a: seq<seq<string>>, b: seq<seq<string>>)
    ensures Flatten(a + b) == Flatten(a) + Flatten(b)
  {
    if a == [] {
      assert a + b == b && [] + Flatten(b) == Flatten(b);
    } else {
      hide *;
      FlattenConcat(a[1..], b);
      assert a == [a[0]] + a[1..];
      assert a + b == [a[0]] + (a[1..] + b);
      Associate(a[0], Flatten(a[1..]), Flatten(b));
    }
  }

  /** Each row lies in one chunk, in the order of the rows. */
  lemma {:induction false} EachRowOnce(rows: seq<string>, room: nat)
    ensures var p := Pack(rows, room);
      Flatten(p.chunks) <= rows && (p.ok ==> Flatten(p.chunks) == rows) &&
      forall c :: 0 <= c < |p.chunks| ==> p.chunks[c] != []
    decreases |rows|
  {
    if rows != [] {
      hide Flatten, Values, Fit;
      FlattenNone();
      var k := Fit(rows, room);
      if |Values(rows)| <= room {
        assert [rows] + [] == [rows] && rows + [] == rows;
      } else if k > 0 {
        EachRowOnce(rows[k..], room);
        var p := Pack(rows[k..], room);
        PrefixLater(rows, k, Flatten(p.chunks));
      }
    } else {
      FlattenNone();
    }
  }

  lemma PrefixLater(rows: seq<string>, k: nat, more: seq<string>)
    requires k <= |rows| && more <= rows[k..]
    ensures rows[..k] + more <= rows && (more == rows[k..] ==> rows[..k] + more == rows)
  {
  }

  lemma FlattenNone()
    ensures Flatten([]) == []
  {
  }

  /** A row leaves room for its statement; a comma may follow any but the last. */
  predicate Roomy(rows: seq<string>, room: nat) {
    forall j :: 0 <= j < |rows| ==> |Group(rows[j])| <= room + if j + 1 < |rows| then 1 else 0
  }

  lemma {:induction false} FitLength(rows: seq<string>, room: int)
    requires Fit(rows, room) > 0
    ensures |Values(rows[..Fit(rows, room)])| <= room + 1
  {
    var k := Fit(rows[1..], room - |Group(rows[0])| - 1);
    FirstLength(rows, k);
    if k > 0 {
      FitLength(rows[1..], room - |Group(rows[0])| - 1);
    }
  }

  /** Packing succeeds exactly when every row leaves room. */
  lemma {:induction false} PackSucceeds(rows: seq<string>, room: nat)
    ensures Pack(rows, room).ok <==> Roomy(rows, room)
    decreases |rows|
  {
    if rows == [] {
    } else if |Values(rows)| <= room {
      forall j | 0 <= j < |rows| ensures |Group(rows[j])| <= room {
        GroupWithin(rows, j);
      }
    } else {
      var k := Fit(rows, room);
      if k > 0 {
        PackSucceeds(rows[k..], room);
        FitLength(rows, room);
        forall j | 0 <= j < k ensures |Group(rows[j])| <= room + 1 {
          GroupWithin(rows[..k], j);
        }
      } else {
        assert |rows| == 1 ==> Values(rows) == Group(rows[0]);
      }
    }
  }

  /** When no row holds "),(", a call of execute sends every row whole, once and in order, and it gets through
      exactly when every row leaves room. */
  lemma PlainRowsSent(rows: seq<string>, room: nat)
    requires AllPlain(rows)
    ensures var p := Pack(rows, room);
      Batches(Values(rows), room) == Sent(p) && (p.ok ==> Flatten(p.chunks) == rows) &&
      (Batches(Values(rows), room).ok <==> Roomy(rows, room))
  {
    SendsWholeRows(rows, room);
    EachRowOnce(rows, room);
    PackSucceeds(rows, room);
    SentOk(Pack(rows, room));
  }

  lemma {:induction false} SentOk(p: Packing)
    ensures Sent(p).ok == p.ok
    decreases |p.chunks|
  {
    if p.chunks != [] {
      SentOk(p.(chunks := p.chunks[1..]));
    }
  }

  /** Where a row that is not plain can be cut: at a length that no list of whole rows has. */
  /** No row ends right before a comma there. */
  ghost predicate InsideRow(rows: seq<string>, room: nat) {
    forall k :: 0 <= k <= |rows| ==> |Values(rows[..k])| != room + 1
  }

  /** The values can be cut in the middle of a row. */
  ghost predicate Severable(rows: seq<string>) {
    exists room: nat :: BoundaryAt(Values(rows), room) && InsideRow(rows, room)
  }

  lemma {:induction false} CutInside(rows: seq<string>)
    requires !AllPlain(rows)
    ensures Severable(rows)
  {
    if !Plain(rows[0]) {
      CutInsideFirst(rows);
    } else {
      var k :| 0 <= k < |rows| && !Plain(rows[k]);
      assert rows[1..][k - 1] == rows[k];
      CutInside(rows[1..]);
      var inner: nat :| BoundaryAt(Values(rows[1..]), inner) && InsideRow(rows[1..], inner);
      CutLater(rows, inner);
    }
  }

  lemma CutInsideFirst(rows: seq<string>)
    requires rows != [] && !Plain(rows[0])
    ensures Severable(rows)
  {
    var i :| 0 <= i < |rows[0]| && BoundaryAt(rows[0], i);
    var room: nat := i + 1;
    var s, g := Values(rows), Group(rows[0]);
    assert g <= s;
    assert s[room] == g[room] && s[room + 1] == g[room + 1] && s[room + 2] == g[room + 2];
    assert |g| > room + 1 && BoundaryAt(s, room);
    hide Values, Group, BoundaryAt;
    forall k | 0 <= k <= |rows| ensures |Values(rows[..k])| != room + 1 {
      if k > 0 {
        FirstLength(rows, k - 1);
      } else {
        NoRows();
      }
    }
    assert BoundaryAt(Values(rows), room) && InsideRow(rows, room);
  }

  lemma NoRows()
    ensures Values([]) == ""
  {
  }

  lemma CutLater(rows: seq<string>, inner: nat)
    requires |rows| > 1 && BoundaryAt(Values(rows[1..]), inner) && InsideRow(rows[1..], inner)
    ensures var room := |Group(rows[0])| + 1 + inner; BoundaryAt(Values(rows), room) && InsideRow(rows, room)
  {
    hide *;
    ValuesOfMore(rows);
    BoundaryLater(Group(rows[0]), Values(rows[1..]), inner);
    InsideLater(rows, inner);
  }

  lemma InsideLater(rows: seq<string>, inner: nat)
    requires |rows| > 1 && InsideRow(rows[1..], inner)
    ensures InsideRow(rows, |Group(rows[0])| + 1 + inner)
  {
    hide Values, Group;
    forall k | 0 <= k <= |rows| ensures |Values(rows[..k])| != |Group(rows[0])| + inner + 2 {
      if k > 0 {
        assert |Values(rows[1..][..k - 1])| != inner + 1;
        FirstLength(rows, k - 1);
      } else {
        NoRows();
      }
    }
  }

  lemma ValuesOfMore(rows: seq<string>)
    requires |rows| > 1
    ensures Values(rows) == Group(rows[0]) + ("," + Values(rows[1..]))
  {
  }

  lemma BoundaryLater(first: string, rest: string, i: nat)
    requires BoundaryAt(rest, i)
    ensures BoundaryAt(first + ("," + rest), |first| + 1 + i)
  {
    var s := first + ("," + rest);
    assert s[|first| + 1 + i] == rest[i] && s[|first| + 2 + i] == rest[i + 1] && s[|first| + 3 + i] == rest[i + 2];
  }

  /** Cutting the values sends whole rows. */
  ghost predicate SentWhole(rows: seq<string>, room: nat) {
    Batches(Values(rows), room) == Sent(Pack(rows, room))
  }

  /** Wherever the values may be cut, only whole rows are sent, exactly when no row holds "),(". */
  lemma WholeRowsExactly(rows: seq<string>)
    ensures AllPlain(rows) <==> forall room: nat :: SentWhole(rows, room)
  {
    if AllPlain(rows) {
      forall room: nat ensures SentWhole(rows, room) {
        SendsWholeRows(rows, room);
      }
    } else {
      CutInside(rows);
      var room: nat :| BoundaryAt(Values(rows), room) && InsideRow(rows, room);
      CutsRow(rows, room);
      assert !SentWhole(rows, room);
    }
  }

  /** For values that may have to be cut for some query, that is, no longer than the maximum: execute sends whole
      rows whatever the query and the upsert clause, exactly when no row holds "),(". */
  lemma WholeRowsForAnyQuery(rows: seq<string>)
    requires |Values(rows)| <= MAX_QUERY_SIZE
    ensures AllPlain(rows) <==> forall base: nat, upsert: nat :: SentWhole(rows, Room(base, upsert))
  {
    hide *;
    if AllPlain(rows) {
      forall base: nat, upsert: nat ensures SentWhole(rows, Room(base, upsert)) {
        PlainIsWhole(rows, Room(base, upsert));
      }
    } else {
      var base := SomeQueryCuts(rows);
    }
  }

  lemma PlainIsWhole(rows: seq<string>, room: nat)
    requires AllPlain(rows)
    ensures SentWhole(rows, room)
  {
    hide AllPlain;
    SendsWholeRows(rows, room);
  }

  lemma SomeQueryCuts(rows: seq<string>) returns (base: nat)
    requires |Values(rows)| <= MAX_QUERY_SIZE && !AllPlain(rows)
    ensures !SentWhole(rows, Room(base, 0))
  {
    hide Batches, Sent, Pack, Values, AllPlain;
    CutInside(rows);
    var room: nat :| BoundaryAt(Values(rows), room) && InsideRow(rows, room);
    CutsRow(rows, room);
    base := MAX_QUERY_SIZE - room;
  }

  lemma CutsRow(rows: seq<string>, room: nat)
    requires BoundaryAt(Values(rows), room) && InsideRow(rows, room)
    ensures Batches(Values(rows), room) != Sent(Pack(rows, room))
  {
    var s, b := Values(rows), Batches(Values(rows), room);
    assert Cut(s, room) == room + 2;
    assert s[..room + 2][room + 1] == ',';
    assert |b.batches[0]| == room + 1;
    var p := Pack(rows, room);
    if p.chunks != [] {
      var k := Fit(rows, room);
      assert p.chunks[0] == rows[..k];
      assert Sent(p).batches[0] == Values(rows[..k]);
    }
  }

  // --------------------------------------------------------------------
  // A run of rows
  // --------------------------------------------------------------------

  function TotalLength(rows: seq<string>): nat {
    if rows == [] then 0 else TotalLength(rows[..|rows| - 1]) + |rows[|rows| - 1]|
  }

  function Both(p: Plan, q: Plan): Plan {
    if p.ok then Plan(p.batches + q.batches, q.ok) else p
  }

  /** What addRow sends for these rows one by one, behind a query of this length: past the packet size all rows
      so far, of which none is forgotten. */
  function Flushed(query: nat, rows: seq<string>, room: nat, maxPacketSize: nat): Plan {
    if rows == [] then Plan([], true) else
    var last := |rows| - 1;
    Both(Flushed(query, rows[..last], room, maxPacketSize),
      if query + TotalLength(rows) > maxPacketSize then Batches(Values(rows[..last]), room) else Plan([], true))
  }

  /** The rows one by one, and then execute. */
  function WholeRun(query: nat, rows: seq<string>, room: nat, maxPacketSize: nat): Plan {
    Both(Flushed(query, rows, room, maxPacketSize), Batches(Values(rows), room))
  }

  function BothPacked(p: Packing, q: Packing): Packing {
    if p.ok then Packing(p.chunks + q.chunks, q.ok) else p
  }

  function FlushedRows(query: nat, rows: seq<string>, room: nat, maxPacketSize: nat): Packing {
    if rows == [] then Packing([], true) else
    var last := |rows| - 1;
    BothPacked(FlushedRows(query, rows[..last], room, maxPacketSize),
      if query + TotalLength(rows) > maxPacketSize then Pack(rows[..last], room) else Packing([], true))
  }

  function WholeRunRows(query: nat, rows: seq<string>, room: nat, maxPacketSize: nat): Packing {
    BothPacked(FlushedRows(query, rows, room, maxPacketSize), Pack(rows, room))
  }

  lemma {:induction false} SentBoth(p: Packing, q: Packing)
    ensures Sent(BothPacked(p, q)) == Both(Sent(p), Sent(q))
    decreases |p.chunks|
  {
    hide *;
    SentOk(p);
    if !p.ok {
      FailedBoth(p, q);
    } else if p.chunks == [] {
      NoneBoth(p, q);
    } else {
      var rest := p.(chunks := p.chunks[1..]);
      SentBoth(rest, q);
      SentFirst(p.chunks[0], rest);
      SentFirst(p.chunks[0], BothPacked(rest, q));
      FirstBoth(p, q);
      ThenBoth(Values(p.chunks[0]), Sent(rest), Sent(q));
    }
  }

  lemma FailedBoth(p: Packing, q: Packing)
    requires !p.ok && !Sent(p).ok
    ensures Sent(BothPacked(p, q)) == Both(Sent(p), Sent(q))
  {
    hide Sent;
  }

  lemma NoneBoth(p: Packing, q: Packing)
    requires p.ok && p.chunks == []
    ensures Sent(BothPacked(p, q)) == Both(Sent(p), Sent(q))
  {
    assert [] + q.chunks == q.chunks && [] + Sent(q).batches == Sent(q).batches;
  }

  lemma FirstBoth(p: Packing, q: Packing)
    requires p.ok && p.chunks != []
    ensures var rest := p.(chunks := p.chunks[1..]);
      p == Packing([p.chunks[0]] + rest.chunks, rest.ok) &&
      BothPacked(p, q) == Packing([p.chunks[0]] + BothPacked(rest, q).chunks, BothPacked(rest, q).ok)
  {
    assert p.chunks == [p.chunks[0]] + p.chunks[1..];
    assert p.chunks + q.chunks == [p.chunks[0]] + (p.chunks[1..] + q.chunks);
  }

  lemma ThenBoth(batch: string, p: Plan, q: Plan)
    ensures Then(batch, Both(p, q)) == Both(Then(batch, p), q)
  {
    assert [batch] + (p.batches + q.batches) == [batch] + p.batches + q.batches;
  }

  lemma {:induction false} FlushedIsRows(query: nat, rows: seq<string>, room: nat, maxPacketSize: nat)
    requires AllPlain(rows)
    ensures Flushed(query, rows, room, maxPacketSize) == Sent(FlushedRows(query, rows, room, maxPacketSize))
  {
    if rows != [] {
      hide Batches, Pack, TotalLength, AllPlain;
      var start := rows[..|rows| - 1];
      FlushedIsRows(query, start, room, maxPacketSize);
      SendsWholeRows(start, room);
      var extra := if query + TotalLength(rows) > maxPacketSize then Pack(start, room) else Packing([], true);
      SentBoth(FlushedRows(query, start, room, maxPacketSize), extra);
    }
  }

  lemma RunIsRows(query: nat, rows: seq<string>, room: nat, maxPacketSize: nat)
    requires AllPlain(rows)
    ensures WholeRun(query, rows, room, maxPacketSize) == Sent(WholeRunRows(query, rows, room, maxPacketSize))
  {
    hide Flushed, FlushedRows, Batches, Pack, Sent;
    FlushedIsRows(query, rows, room, maxPacketSize);
    SendsWholeRows(rows, room);
    SentBoth(FlushedRows(query, rows, room, maxPacketSize), Pack(rows, room));
  }

  /** Every row leaves room, also as the last of its statement. */
  predicate AllRoomy(rows: seq<string>, room: nat) {
    forall j :: 0 <= j < |rows| ==> |Group(rows[j])| <= room
  }

  lemma RoomyPacks(rows: seq<string>, room: nat)
    requires AllRoomy(rows, room)
    ensures Pack(rows, room).ok && Flatten(Pack(rows, room).chunks) == rows
  {
    PackSucceeds(rows, room);
    EachRowOnce(rows, room);
  }

  /** Nothing is flushed as long as the rows fit the packet; past it, all but the last row are. */
  lemma {:induction false} FlushedAgain(query: nat, rows: seq<string>, room: nat, maxPacketSize: nat)
    requires AllRoomy(rows, room)
    ensures var p := FlushedRows(query, rows, room, maxPacketSize);
      p.ok && (if query + TotalLength(rows) <= maxPacketSize then p.chunks == []
               else |Flatten(p.chunks)| >= |rows| - 1 && (|rows| <= 1 ==> Flatten(p.chunks) == []))
  {
    if rows != [] {
      hide Flatten, Pack, AllRoomy;
      var last := |rows| - 1;
      FlushedAgain(query, rows[..last], room, maxPacketSize);
      RoomyPacks(rows[..last], room);
      var p := FlushedRows(query, rows[..last], room, maxPacketSize);
      FlattenConcat(p.chunks, Pack(rows[..last], room).chunks);
      FlattenNone();
    } else {
      FlattenNone();
    }
  }

  /** Over a run of addRow calls and the execute behind them, each row is sent exactly once if and only if there
      is no more than one row, or all rows together fit the packet. */
  lemma SentOnce(query: nat, rows: seq<string>, room: nat, maxPacketSize: nat)
    requires AllPlain(rows) && AllRoomy(rows, room)
    ensures var p := WholeRunRows(query, rows, room, maxPacketSize);
      WholeRun(query, rows, room, maxPacketSize) == Sent(p) && p.ok &&
      (Flatten(p.chunks) == rows <==> |rows| <= 1 || query + TotalLength(rows) <= maxPacketSize)
  {
    hide AllPlain, AllRoomy, WholeRun, FlushedRows, Pack, TotalLength;
    RunIsRows(query, rows, room, maxPacketSize);
    FlushedAgain(query, rows, room, maxPacketSize);
    RoomyPacks(rows, room);
    var p := FlushedRows(query, rows, room, maxPacketSize);
    FlattenConcat(p.chunks, Pack(rows, room).chunks);
    FlattenNone();
    hide Flatten;
    Behind(Flatten(p.chunks), rows);
  }

  lemma Behind(flushed: seq<string>, rows: seq<string>)
    ensures flushed + rows == rows <==> |flushed| == 0
  {
    if flushed + rows == rows {
      assert |flushed + rows| == |rows|;
    }
  }

  /** Two rows of one character and a packet that the second does not fit: the first row goes out twice. */
  lemma SentTwice()
    ensures WholeRun(20, ["1", "2"], Room(20, 0), 21) == Plan(["(1)", "(1),(2)"], true)
  {
    var rows, room := ["1", "2"], Room(20, 0);
    TwoRows();
    AtOnce("(1)", room);
    AtOnce("(1),(2)", room);
    assert rows[..1] == ["1"] && ["1"][..0] == [];
    assert Flushed(20, ["1"], room, 21) == Plan([], true);
    hide Batches, Values, TotalLength, Room;
    assert Flushed(20, rows, room, 21) == Plan([] + ["(1)"], true);
    assert [] + ["(1)"] == ["(1)"] && ["(1)"] + ["(1),(2)"] == ["(1)", "(1),(2)"];
  }

  lemma TwoRows()
    ensures TotalLength([]) == 0 && TotalLength(["1"]) == 1 && TotalLength(["1", "2"]) == 2
    ensures Values(["1"]) == "(1)" && Values(["1", "2"]) == "(1),(2)"
    ensures Trim("(1)") == "(1)" && Trim("(1),(2)") == "(1),(2)" && Room(20, 0) >= 7
  {
    assert ["1", "2"][..1] == ["1"] && ["1", "2"][1..] == ["2"] && ["1"][..0] == [];
    assert "(" + "1" + ")" == "(1)" && "(1)" + ("," + "(2)") == "(1),(2)";
    assert Group("2") == "(2)";
  }

  // --------------------------------------------------------------------
  // The insert
  // --------------------------------------------------------------------

  /** What the database has executed, and how often it refused. */
  class Database {
    var sent: seq<string>
    ghost var refusals: nat

    constructor ()
      ensures sent == [] && refusals == 0
    {
      sent, refusals := [], 0;
    }

    method ExecuteQuery(query: string) returns (ok: bool)
      modifies this
      ensures ok ==> sent == old(sent) + [query] && refusals == old(refusals)
      ensures !ok ==> sent == old(sent) && refusals == old(refusals) + 1
    {
      ok := *;
      if ok {
        sent := sent + [query];
      } else {
        refusals := refusals + 1;
      }
    }
  }

  function Statements(base: string, batches: seq<string>, upsert: string): seq<string> {
    if batches == [] then [] else [Statement(base, batches[0], upsert)] + Statements(base, batches[1..], upsert)
  }

  function Column(name: string): string {
    "`" + name + "` = VALUES(`" + name + "`)"
  }

  function Columns(names: seq<string>): string {
    if names == [] then "" else Column(names[0]) + (if |names| > 1 then ", " else "") + Columns(names[1..])
  }

  const ON_DUPLICATE := " ON DUPLICATE KEY UPDATE "

  function UpsertClause(names: seq<string>): string {
    if names == [] then "" else ON_DUPLICATE + Columns(names)
  }

  /** Every column takes its new value, and another one follows after a comma. */
  lemma ClauseText(names: seq<string>)
    ensures UpsertClause([]) == ""
    ensures names != [] ==>
      UpsertClause(names) == " ON DUPLICATE KEY UPDATE " + (("`" + names[0] + "` = VALUES(`" + names[0] + "`)") +
        (if |names| == 1 then "" else ", " + UpsertClause(names[1..])[|" ON DUPLICATE KEY UPDATE "|..]))
  {
    hide Column;
    if names != [] {
      ColumnText(names[0]);
      TailOf(ON_DUPLICATE, Columns(names[1..]));
      assert Column(names[0]) + ", " + Columns(names[1..]) == Column(names[0]) + (", " + Columns(names[1..]));
      assert |names| == 1 ==> Column(names[0]) + "" + "" == Column(names[0]) + "";
    }
  }

  lemma ColumnText(name: string)
    ensures Column(name) == "`" + name + "` = VALUES(`" + name + "`)"
  {
  }

  lemma TailOf(a: string, b: string)
    ensures (a + b)[|a|..] == b
  {
  }

  class DBInsert {
    const query: string
    var upsertColumns: seq<string>
    var values: string
    var length: nat
    ghost var rows: seq<string>

    ghost predicate Valid()
      reads this
    {
      values == Values(rows)
    }

    constructor (query: string)
      ensures Valid() && this.query == query && rows == [] && upsertColumns == [] && length == |query|
    {
      this.query, upsertColumns, values, length, rows := query, [], "", |query|, [];
    }

    method Upsert(columns: seq<string>)
      modifies this`upsertColumns
      ensures upsertColumns == columns
    {
      upsertColumns := columns;
    }

    ghost function Planned(): Plan
      reads this
    {
      Batches(values, Room(|query|, |UpsertClause(upsertColumns)|))
    }

    lemma PlannedIs()
      ensures Planned() == Batches(values, Room(|query|, |UpsertClause(upsertColumns)|))
    {
    }

    /** addRow: past the packet size everything so far is sent first, and stays among the values; n of its
        statements get through. */
    method AddRow(db: Database, row: string, maxPacketSize: nat) returns (ok: bool, ghost n: nat)
      requires Valid()
      modifies this`values, this`length, this`rows, db
      ensures Valid() && rows == if ok then old(rows) + [row] else old(rows)
      ensures length == old(length) + |row|
      ensures n <= |old(Planned()).batches|
      ensures db.sent == SoFar(old(db.sent), query, old(Planned()).batches, n, UpsertClause(upsertColumns))
      ensures length <= maxPacketSize ==> ok && n == 0
      ensures length > maxPacketSize && ok ==> n == |old(Planned()).batches|
      ensures length > maxPacketSize && db.refusals == old(db.refusals) ==>
        ok == old(Planned()).ok && n == |old(Planned()).batches|
      ensures if ok then db.refusals == old(db.refusals) else db.refusals >= old(db.refusals)
    {
      n := 0;
      length := length + |row|;
      if length > maxPacketSize {
        ok, n := Execute(db);
        if !ok {
          return;
        }
      }
      ValuesPushed(rows, row);
      if values == "" {
        values := "(" + row + ")";
      } else {
        values := values + "," + ("(" + row + ")");
      }
      rows := rows + [row];
      ok := true;
    }

    /** execute sends the first n statements: all of them, unless one was refused. */
    method Execute(db: Database) returns (ok: bool, ghost n: nat)
      modifies db
      ensures n <= |Planned().batches|
      ensures db.sent == SoFar(old(db.sent), query, Planned().batches, n, UpsertClause(upsertColumns))
      ensures db.refusals == old(db.refusals) ==> n == |Planned().batches| && ok == Planned().ok
      ensures if ok then db.refusals == old(db.refusals) else db.refusals >= old(db.refusals)
    {
      hide *;
      n := 0;
      ghost var plan := Planned();
      PlannedIs();
      StartSending(db.sent, query, plan, values, Room(|query|, |UpsertClause(upsertColumns)|),
        UpsertClause(upsertColumns));
      if values == "" {
        RemainingNone(plan, n, values, Room(|query|, |UpsertClause(upsertColumns)|));
        return true, 0;
      }
      var baseQuery := query;
      var upsertQuery := BuildUpsert();
      var currentBatch := values;
      while currentBatch != ""
        invariant n <= |plan.batches| && db.refusals == old(db.refusals)
        invariant db.sent == SoFar(old(db.sent), query, plan.batches, n, upsertQuery)
        invariant Remaining(plan, n, currentBatch, Room(|query|, |upsertQuery|))
        decreases |currentBatch|
      {
        var room := Room(|baseQuery|, |upsertQuery|);
        var cutPos := Cut(currentBatch, room);
        RemainingNone(plan, n, currentBatch, room);
        if cutPos == 0 {
          return false, n;
        }
        RemainingNext(plan, n, currentBatch, room);
        NextBatch(old(db.sent), query, plan.batches, n, upsertQuery);
        var batchValues := Trim(currentBatch[..cutPos]);
        currentBatch := currentBatch[cutPos..];
        ok := db.ExecuteQuery(Statement(baseQuery, batchValues, upsertQuery));
        if !ok {
          return false, n;
        }
        n := n + 1;
      }
      RemainingNone(plan, n, currentBatch, Room(|query|, |upsertQuery|));
      ok := true;
    }

    /** The clause that overwrites the columns of a row that is there already. */
    method BuildUpsert() returns (clause: string)
      ensures clause == UpsertClause(upsertColumns)
    {
      if upsertColumns == [] {
        return "";
      }
      clause := ON_DUPLICATE;
      var i := 0;
      while i < |upsertColumns|
        invariant 0 <= i <= |upsertColumns|
        invariant clause + Columns(upsertColumns[i..]) == ON_DUPLICATE + Columns(upsertColumns)
      {
        clause := clause + Column(upsertColumns[i]);
        if i < |upsertColumns| - 1 {
          clause := clause + ", ";
        }
        i := i + 1;
      }
    }
  }

  lemma {:induction false} StatementsPushed(base: string, a: seq<string>, batch: string, upsert: string)
    ensures Statements(base, a + [batch], upsert) == Statements(base, a, upsert) + [Statement(base, batch, upsert)]
  {
    hide Statement;
    if a != [] {
      StatementsPushed(base, a[1..], batch, upsert);
      assert (a + [batch])[1..] == a[1..] + [batch];
    }
  }

  /** After n batches, the plan for s is what is left of the whole plan. */
  ghost predicate Remaining(plan: Plan, n: nat, s: string, room: nat) {
    n <= |plan.batches| && Batches(s, room) == Plan(plan.batches[n..], plan.ok)
  }

  lemma RemainingNone(plan: Plan, n: nat, s: string, room: nat)
    requires Remaining(plan, n, s, room)
    ensures s == "" || Cut(s, room) == 0 ==> n == |plan.batches| && plan.ok == (s == "")
  {
  }

  lemma RemainingNext(plan: Plan, n: nat, s: string, room: nat)
    requires Remaining(plan, n, s, room) && s != "" && Cut(s, room) > 0
    ensures var cut := Cut(s, room);
      n < |plan.batches| && plan.batches[n] == Trim(s[..cut]) && Remaining(plan, n + 1, s[cut..], room)
  {
    hide Cut, Trim;
    var rest := Batches(s[Cut(s, room)..], room);
    assert plan.batches[n..] == [Trim(s[..Cut(s, room)])] + rest.batches;
    assert |plan.batches[n..]| == |plan.batches| - n >= 1;
    assert plan.batches[n + 1..] == plan.batches[n..][1..] == rest.batches;
    assert plan.batches[n] == plan.batches[n..][0];
  }

  /** What the database holds once n of the batches went out. */
  ghost function SoFar(before: seq<string>, base: string, batches: seq<string>, n: nat, upsert: string): seq<string>
    requires n <= |batches|
  {
    before + Statements(base, batches[..n], upsert)
  }

  lemma StartSending(before: seq<string>, base: string, plan: Plan, s: string, room: nat, upsert: string)
    requires plan == Batches(s, room)
    ensures Remaining(plan, 0, s, room) && SoFar(before, base, plan.batches, 0, upsert) == before
  {
    assert plan.batches[0..] == plan.batches;
  }

  lemma NextBatch(before: seq<string>, base: string, batches: seq<string>, n: nat, upsert: string)
    requires n < |batches|
    ensures SoFar(before, base, batches, n + 1, upsert) ==
      SoFar(before, base, batches, n, upsert) + [Statement(base, batches[n], upsert)]
  {
    hide Statement;
    assert batches[..n + 1] == batches[..n] + [batches[n]];
    StatementsPushed(base, batches[..n], batches[n], upsert);
  }

  lemma {:induction false} StatementsConcat(base: string, a: seq<string>, b: seq<string>, upsert: string)
    ensures Statements(base, a + b, upsert) == Statements(base, a, upsert) + Statements(base, b, upsert)
  {
    if a == [] {
      assert a + b == b;
    } else {
      hide Statement;
      StatementsConcat(base, a[1..], b, upsert);
      assert (a + b)[1..] == a[1..] + b && (a + b)[0] == a[0];
      Associate([Statement(base, a[0], upsert)], Statements(base, a[1..], upsert), Statements(base, b, upsert));
    }
  }

  /** With one plan sent in full, what n batches of the next add. */
  lemma SoFarBoth(before: seq<string>, base: string, p: Plan, q: Plan, n: nat, upsert: string)
    requires p.ok && n == |q.batches|
    ensures SoFar(before + Statements(base, p.batches, upsert), base, q.batches, n, upsert) ==
      before + Statements(base, Both(p, q).batches, upsert)
  {
    assert q.batches[..n] == q.batches;
    StatementsConcat(base, p.batches, q.batches, upsert);
    Associate(before, Statements(base, p.batches, upsert), Statements(base, q.batches, upsert));
  }

  lemma FlushedNext(query: nat, rows: seq<string>, n: nat, room: nat, maxPacketSize: nat)
    requires n < |rows|
    ensures TotalLength(rows[..n + 1]) == TotalLength(rows[..n]) + |rows[n]|
    ensures Flushed(query, rows[..n + 1], room, maxPacketSize) ==
      Both(Flushed(query, rows[..n], room, maxPacketSize),
        if query + TotalLength(rows[..n + 1]) > maxPacketSize then Batches(Values(rows[..n]), room) else Plan([], true))
  {
    assert rows[..n + 1][..n] == rows[..n];
  }

  /** A flush that fails is the end of it. */
  lemma {:induction false} FlushFails(query: nat, rows: seq<string>, n: nat, room: nat, maxPacketSize: nat)
    requires n <= |rows| && !Flushed(query, rows[..n], room, maxPacketSize).ok
    ensures WholeRun(query, rows, room, maxPacketSize) == Flushed(query, rows[..n], room, maxPacketSize)
    decreases |rows| - n
  {
    hide Flushed;
    if n == |rows| {
      assert rows[..n] == rows;
    } else {
      FlushedNext(query, rows, n, room, maxPacketSize);
      FlushFails(query, rows, n + 1, room, maxPacketSize);
    }
  }

  /** What the insert has sent and holds after n rows. */
  ghost predicate Halfway(insert: DBInsert, db: Database, before: seq<string>, rows: seq<string>, n: nat,
                          maxPacketSize: nat)
    reads insert, db
  {
    n <= |rows| && insert.Valid() && insert.rows == rows[..n] && insert.upsertColumns == [] &&
    insert.length == |insert.query| + TotalLength(rows[..n]) &&
    var p := Flushed(|insert.query|, rows[..n], Room(|insert.query|, 0), maxPacketSize);
    p.ok && db.sent == before + Statements(insert.query, p.batches, "")
  }

  /** One row of a run; when it fails without a refusal, the run ends as WholeRun says. */
  method SaveRow(insert: DBInsert, db: Database, rows: seq<string>, n: nat, maxPacketSize: nat,
                 ghost before: seq<string>)
      returns (ok: bool)
    requires Halfway(insert, db, before, rows, n, maxPacketSize) && n < |rows|
    modifies insert, db
    ensures ok ==> db.refusals == old(db.refusals) && Halfway(insert, db, before, rows, n + 1, maxPacketSize)
    ensures !ok ==> db.refusals >= old(db.refusals)
    ensures !ok && db.refusals == old(db.refusals) ==>
      var p := WholeRun(|insert.query|, rows, Room(|insert.query|, 0), maxPacketSize);
      !p.ok && db.sent == before + Statements(insert.query, p.batches, "")
  {
    ghost var query, room := insert.query, Room(|insert.query|, 0);
    assert UpsertClause([]) == "" && rows[..n] + [rows[n]] == rows[..n + 1];
    hide Flushed, Batches, Statements, SoFar, Room, UpsertClause, Values, WholeRun;
    FlushedNext(|query|, rows, n, room, maxPacketSize);
    ghost var k;
    ok, k := insert.AddRow(db, rows[n], maxPacketSize);
    RowSent(before, query, rows, n, room, maxPacketSize, k);
    if !ok && db.refusals == old(db.refusals) {
      FlushFails(|query|, rows, n + 1, room, maxPacketSize);
    }
  }

  lemma RowSent(before: seq<string>, query: string, rows: seq<string>, n: nat, room: nat, maxPacketSize: nat, k: nat)
    requires n < |rows| && Flushed(|query|, rows[..n], room, maxPacketSize).ok
    requires k <= |Batches(Values(rows[..n]), room).batches|
    ensures var p, q := Flushed(|query|, rows[..n], room, maxPacketSize), Batches(Values(rows[..n]), room);
      var r := Flushed(|query|, rows[..n + 1], room, maxPacketSize);
      var flush := |query| + TotalLength(rows[..n + 1]) > maxPacketSize;
      (if flush then k == |q.batches| else k == 0) ==>
        SoFar(before + Statements(query, p.batches, ""), query, q.batches, k, "") ==
          before + Statements(query, r.batches, "") &&
        r.ok == if flush then q.ok else true
  {
    FlushedNext(|query|, rows, n, room, maxPacketSize);
    hide Flushed, Batches, Statements, SoFar, Values, TotalLength;
    var p, q := Flushed(|query|, rows[..n], room, maxPacketSize), Batches(Values(rows[..n]), room);
    PlanAndNothing(p);
    if k == |q.batches| {
      SoFarBoth(before, query, p, q, k, "");
    }
  }

  lemma PlanAndNothing(p: Plan)
    ensures Both(p, Plan([], true)) == p
  {
    assert p.batches + [] == p.batches;
  }

  /** How the saves use it: the rows one by one, and execute behind them. Without a refusal the database gets
      the whole run, and the answer says whether it got through. */
  method SaveRows(db: Database, query: string, rows: seq<string>, maxPacketSize: nat) returns (ok: bool)
    modifies db
    ensures db.refusals == old(db.refusals) ==>
      var p := WholeRun(|query|, rows, Room(|query|, 0), maxPacketSize);
      ok == p.ok && db.sent == old(db.sent) + Statements(query, p.batches, "")
    ensures db.refusals >= old(db.refusals)
  {
    var insert := new DBInsert(query);
    ghost var before := db.sent;
    assert rows[..0] == [];
    for n := 0 to |rows|
      invariant insert.query == query && Halfway(insert, db, before, rows, n, maxPacketSize)
      invariant fresh(insert) && db.refusals == old(db.refusals)
    {
      ok := SaveRow(insert, db, rows, n, maxPacketSize, before);
      if !ok {
        return;
      }
    }
    assert rows[..|rows|] == rows && UpsertClause([]) == "";
    ghost var p, q := Flushed(|query|, rows, Room(|query|, 0), maxPacketSize), insert.Planned();
    ghost var k;
    ok, k := insert.Execute(db);
    if db.refusals == old(db.refusals) {
      SoFarBoth(before, query, p, q, k, "");
    }
  }
}
