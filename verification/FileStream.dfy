// A cursor over the bytes of a tree file: numbers and strings inside nodes,
// unescaped on the way (src/io/filestream.cpp).
module FileStream {
  import opened Bytes
  import opened Options
  import opened OtbTree
  import opened Sequences

  const U32: nat := 0x1_0000_0000
  const MAX_STRING: nat := 8192

  /** A value and the position behind it; an exception; or a byte taken from behind the data. */
  datatype Answer<T> = Value(v: T, next: nat) | Thrown | Outside

  // --------------------------------------------------------------------
  // Bytes and numbers
  // --------------------------------------------------------------------

  function NextByte(s: seq<byte>, i: nat, escape: bool): Answer<byte> {
    if i >= |s| then Outside
    else if !escape || s[i] != ESCAPE then Value(s[i], i + 1)
    else if i + 1 >= |s| then Outside
    else Value(s[i + 1], i + 2)
  }

  function ReadBytes(s: seq<byte>, i: nat, k: nat, escape: bool): Answer<seq<byte>>
    decreases k
  {
    if k == 0 then Value([], i) else
    match NextByte(s, i, escape)
    case Value(b, next) =>
      (match ReadBytes(s, next, k - 1, escape)
       case Value(rest, end) => Value([b] + rest, end)
       case _ => Outside)
    case _ => Outside
  }

  /** What k bytes in memory mean as a number. */
  function Number(bytes: seq<byte>): nat {
    if bytes == [] then 0 else bytes[0] as nat + 0x100 * Number(bytes[1..])
  }

  function Put(n: nat, k: nat): (r: seq<byte>)
    ensures |r| == k
  {
    if k == 0 then [] else [n % 0x100] + Put(n / 0x100, k - 1)
  }

  function Power(k: nat): nat {
    if k == 0 then 1 else 0x100 * Power(k - 1)
  }

  lemma {:induction false} NumberOfPut(n: nat, k: nat)
    requires n < Power(k)
    ensures Number(Put(n, k)) == n
  {
    if k > 0 {
      NumberOfPut(n / 0x100, k - 1);
      assert Put(n, k)[1..] == Put(n / 0x100, k - 1);
    }
  }

  /** read: the check takes no account of escapes. */
  function ReadNumber(s: seq<byte>, i: nat, k: nat, escape: bool): Answer<nat> {
    if i + k > |s| then Thrown else
    match ReadBytes(s, i, k, escape)
    case Value(bytes, next) => Value(Number(bytes), next)
    case _ => Outside
  }

  /** getString: the characters are not unescaped. */
  function ReadString(s: seq<byte>, i: nat, escape: bool): Answer<seq<byte>> {
    match ReadNumber(s, i, 2, escape)
    case Thrown => Thrown
    case Outside => Outside
    case Value(n, next) =>
      if n == 0 then Value([], next)
      else if n >= MAX_STRING || next + n > |s| then Thrown
      else Value(s[next..next + n], next + n)
  }

  // --------------------------------------------------------------------
  // What was written reads back
  // --------------------------------------------------------------------

  lemma {:induction false} BytesReadBack(s: seq<byte>, i: nat, v: seq<byte>)
    requires At(s, i, Escape(v))
    ensures ReadBytes(s, i, |v|, true) == Value(v, i + |Escape(v)|)
    decreases v
  {
    if v != [] {
      var head: seq<byte> := if v[0] >= ESCAPE then [ESCAPE, v[0]] else [v[0]];
      AtSplit(s, i, head, Escape(v[1..]));
      BytesReadBack(s, i + |head|, v[1..]);
      assert v == [v[0]] + v[1..];
    }
  }

  lemma {:induction false} EscapeGrows(v: seq<byte>)
    ensures |Escape(v)| >= |v|
    ensures |Escape(v)| == |v| <==> Plain(v)
    ensures Plain(v) ==> Escape(v) == v
  {
    if v != [] {
      EscapeGrows(v[1..]);
      assert Plain(v) <==> v[0] < ESCAPE && Plain(v[1..]);
    }
  }

  /** No byte that needs an escape. */
  predicate Plain(v: seq<byte>) {
    forall k :: 0 <= k < |v| ==> v[k] < ESCAPE
  }

  lemma NumberReadsBack(s: seq<byte>, i: nat, n: nat, k: nat)
    requires At(s, i, Escape(Put(n, k))) && n < Power(k)
    ensures ReadNumber(s, i, k, true) == Value(n, i + |Escape(Put(n, k))|)
  {
    EscapeGrows(Put(n, k));
    BytesReadBack(s, i, Put(n, k));
    NumberOfPut(n, k);
  }

  function Quote(b: byte): seq<byte> {
    if b >= ESCAPE then [ESCAPE, b] else [b]
  }

  lemma {:induction false} EscapeConcat(a: seq<byte>, b: seq<byte>)
    ensures Escape(a + b) == Escape(a) + Escape(b)
  {
    if a == [] {
      assert a + b == b;
    } else {
      EscapeConcat(a[1..], b);
      assert (a + b)[1..] == a[1..] + b && (a + b)[0] == a[0];
      hide *;
      Associate(Quote(a[0]), Escape(a[1..]), Escape(b));
    }
  }

  /** A string with its 16-bit length in front. */
  function PutString(v: seq<byte>): seq<byte>
    requires |v| < 0x1_0000
  {
    Put(|v|, 2) + v
  }

  /** A string in the props of a node reads back exactly when it is short enough and none of its bytes had to
      be escaped. */
  lemma StringReadsBack(s: seq<byte>, i: nat, v: seq<byte>)
    requires |v| < 0x1_0000 && At(s, i, Escape(PutString(v)))
    ensures ReadString(s, i, true) == Value(v, i + |Escape(PutString(v))|) <==> |v| < MAX_STRING && Plain(v)
  {
    hide Escape, At, ReadNumber;
    EscapeConcat(Put(|v|, 2), v);
    AtSplit(s, i, Escape(Put(|v|, 2)), Escape(v));
    assert Power(2) == 0x1_0000 by {
      assert Power(1) == 0x100 * Power(0);
    }
    NumberReadsBack(s, i, |v|, 2);
    EscapeGrows(v);
    if Plain(v) {
      AtSlice(s, i + |Escape(Put(|v|, 2))|, v);
    }
  }

  // --------------------------------------------------------------------
  // Fields and nodes
  // --------------------------------------------------------------------

  /** getU8, getU16, getU32 and getU64 differ in their size only. */
  datatype Field = Num(size: nat, value: nat) | Text(text: seq<byte>)

  predicate Writable(f: Field) {
    match f
    case Num(size, value) => value < Power(size)
    case Text(text) => |text| < MAX_STRING && Plain(text)
  }

  function PutField(f: Field): seq<byte> {
    match f
    case Num(size, value) => Put(value, size)
    case Text(text) => if |text| < 0x1_0000 then PutString(text) else []
  }

  function PutFields(fs: seq<Field>): seq<byte> {
    if fs == [] then [] else PutField(fs[0]) + PutFields(fs[1..])
  }

  /** A field of the same form, as it is read. */
  function ReadField(s: seq<byte>, i: nat, f: Field, escape: bool): Answer<Field> {
    match f
    case Num(size, _) =>
      (match ReadNumber(s, i, size, escape)
       case Value(n, next) => Value(Num(size, n), next)
       case Thrown => Thrown
       case Outside => Outside)
    case Text(_) =>
      match ReadString(s, i, escape)
      case Value(v, next) => Value(Text(v), next)
      case Thrown => Thrown
      case Outside => Outside
  }

  lemma FieldReadsBack(s: seq<byte>, i: nat, f: Field)
    requires At(s, i, Escape(PutField(f))) && Writable(f)
    ensures ReadField(s, i, f, true) == Value(f, i + |Escape(PutField(f))|)
  {
    match f
    case Num(size, value) => NumberReadsBack(s, i, value, size);
    case Text(text) => StringReadsBack(s, i, text);
  }

  /** What startNode and endNode answer, and the depth of nodes after it. */
  datatype Marker = Marker(ok: bool, nodes: nat)

  function StartMarker(s: seq<byte>, i: nat, nodes: nat, kind: byte): Answer<Marker> {
    if i >= |s| then Thrown else
    match NextByte(s, i, nodes > 0)
    case Value(b, next) =>
      if b != START then Value(Marker(false, nodes), next - 1)
      else if kind == 0 then Value(Marker(true, (nodes + 1) % U32), next)
      else if next >= |s| then Thrown
      else
        (match NextByte(s, next, nodes > 0)
         case Value(c, end) =>
           if c == kind then Value(Marker(true, (nodes + 1) % U32), end) else Value(Marker(false, nodes), end - 2)
         case _ => Outside)
    case _ => Outside
  }

  function EndMarker(s: seq<byte>, i: nat, nodes: nat): Answer<Marker> {
    if i >= |s| then Thrown else
    match NextByte(s, i, nodes > 0)
    case Value(b, next) =>
      if b == END then Value(Marker(true, (nodes + U32 - 1) % U32), next) else Value(Marker(false, nodes), next - 1)
    case _ => Outside
  }

  /** A node call that answers false is without effect exactly when it read no escape. */
  lemma MarkersAreUndone(s: seq<byte>, i: nat, nodes: nat, kind: byte)
    requires i < |s|
    ensures var r := StartMarker(s, i, nodes, kind);
      r.Value? && !r.v.ok ==>
        (r.next == i <==> nodes == 0 || (s[i] != ESCAPE && (s[i] == START ==> s[i + 1] != ESCAPE)))
    ensures var r := EndMarker(s, i, nodes);
      r.Value? && !r.v.ok ==> (r.next == i <==> nodes == 0 || s[i] != ESCAPE)
  {
  }

  /** When node calls answer true: for the marker and, where a kind is asked for, that kind behind it; inside a node
      they take an escaped byte for the marker as well. At the end of the data they throw. */
  lemma MarkersAnswer(s: seq<byte>, i: nat, nodes: nat, kind: byte)
    ensures i >= |s| ==> StartMarker(s, i, nodes, kind).Thrown? && EndMarker(s, i, nodes).Thrown?
    ensures i < |s| && (nodes == 0 || s[i] != ESCAPE) ==>
      EndMarker(s, i, nodes) ==
        if s[i] == END then Value(Marker(true, if nodes > 0 then (nodes - 1) % U32 else U32 - 1), i + 1)
        else Value(Marker(false, nodes), i)
    ensures i + 1 < |s| && nodes > 0 && s[i] == ESCAPE ==>
      EndMarker(s, i, nodes).Value? && (EndMarker(s, i, nodes).v.ok <==> s[i + 1] == END)
    ensures i < |s| && (nodes == 0 || s[i] != ESCAPE) && kind == 0 ==>
      StartMarker(s, i, nodes, kind).Value? && (StartMarker(s, i, nodes, kind).v.ok <==> s[i] == START)
    ensures i + 1 == |s| && (nodes == 0 || s[i] != ESCAPE) && kind != 0 && s[i] == START ==>
      StartMarker(s, i, nodes, kind).Thrown?
    ensures i + 1 < |s| && (nodes == 0 || (s[i] != ESCAPE && s[i + 1] != ESCAPE)) && kind != 0 ==>
      StartMarker(s, i, nodes, kind).Value? &&
      (StartMarker(s, i, nodes, kind).v.ok <==> s[i] == START && s[i + 1] == kind)
  {
  }

  /** Numbers that reach beyond the data, and strings that do or are too long, throw. */
  lemma ShortReadsThrow(s: seq<byte>, i: nat, k: nat, escape: bool)
    ensures i + k > |s| ==> ReadNumber(s, i, k, escape).Thrown?
    ensures var n := ReadNumber(s, i, 2, escape);
      n.Value? && n.v > 0 ==>
        (ReadString(s, i, escape).Thrown? <==> n.v >= MAX_STRING || n.next + n.v > |s|)
  {
  }

  function Cons<T>(x: T, r: Answer<seq<T>>): Answer<seq<T>> {
    if r.Value? then Value([x] + r.v, r.next) else r
  }

  function ReadFields(s: seq<byte>, i: nat, fs: seq<Field>, escape: bool): Answer<seq<Field>>
    decreases |fs|
  {
    if fs == [] then Value([], i) else
    match ReadField(s, i, fs[0], escape)
    case Value(f, next) => Cons(f, ReadFields(s, next, fs[1..], escape))
    case Thrown => Thrown
    case Outside => Outside
  }

  predicate AllWritable(fs: seq<Field>) {
    fs == [] || (Writable(fs[0]) && AllWritable(fs[1..]))
  }

  lemma {:induction false} FieldsReadBack(s: seq<byte>, i: nat, fs: seq<Field>)
    requires At(s, i, Escape(PutFields(fs))) && AllWritable(fs)
    ensures ReadFields(s, i, fs, true) == Value(fs, i + |Escape(PutFields(fs))|)
    decreases |fs|
  {
    hide At, Escape, PutField, ReadFields, ReadField, Writable;
    if fs == [] {
      NoFields(s, i);
    } else {
      var first, rest := Escape(PutField(fs[0])), Escape(PutFields(fs[1..]));
      EscapeConcat(PutField(fs[0]), PutFields(fs[1..]));
      AtSplit(s, i, first, rest);
      FieldReadsBack(s, i, fs[0]);
      FieldsReadBack(s, i + |first|, fs[1..]);
      FieldsNext(s, i, fs, true);
      assert fs == [fs[0]] + fs[1..];
    }
  }

  lemma NoFields(s: seq<byte>, i: nat)
    ensures ReadFields(s, i, [], true) == Value([], i) && Escape(PutFields([])) == []
  {
  }

  lemma FieldsNext(s: seq<byte>, i: nat, fs: seq<Field>, escape: bool)
    requires fs != []
    ensures var f := ReadField(s, i, fs[0], escape);
      f.Value? ==>
        var r := ReadFields(s, f.next, fs[1..], escape);
        r.Value? ==> ReadFields(s, i, fs, escape) == Value([f.v] + r.v, r.next)
  {
    hide ReadField;
  }

  /** A node with the fields and children a reader expects in it. */
  datatype Form = Form(kind: byte, fields: seq<Field>, kids: seq<Form>)

  function Written(f: Form): Doc
    decreases f, 0
  {
    Doc(f.kind, PutFields(f.fields), AllWritten(f.kids))
  }

  function AllWritten(fs: seq<Form>): seq<Doc>
    decreases fs, 1
  {
    if fs == [] then [] else [Written(fs[0])] + AllWritten(fs[1..])
  }

  /** What a reader gets: the forms, and the depth it is at. */
  datatype Got = Got(forms: seq<Form>, nodes: nat)

  /** Start the node, read its fields, then its children, and end it. */
  function ReadForm(s: seq<byte>, i: nat, nodes: nat, f: Form): Option<(Got, nat)>
    decreases f, 0
  {
    match StartMarker(s, i, nodes, f.kind)
    case Value(Marker(true, n), next) =>
      (match ReadFields(s, next, f.fields, true)
       case Value(fields, at) =>
         (match ReadForms(s, at, n, f.kids)
          case Some((got, end)) =>
            (match EndMarker(s, end, got.nodes)
             case Value(Marker(true, m), behind) => Some((Got([Form(f.kind, fields, got.forms)], m), behind))
             case _ => None)
          case None => None)
       case _ => None)
    case _ => None
  }

  function ReadForms(s: seq<byte>, i: nat, nodes: nat, fs: seq<Form>): Option<(Got, nat)>
    decreases fs, 1
  {
    if fs == [] then Some((Got([], nodes), i)) else
    match ReadForm(s, i, nodes, fs[0])
    case Some((got, next)) => More(got.forms, ReadForms(s, next, got.nodes, fs[1..]))
    case None => None
  }

  function More(forms: seq<Form>, r: Option<(Got, nat)>): Option<(Got, nat)> {
    if r.None? then None else Some((Got(forms + r.value.0.forms, r.value.0.nodes), r.value.1))
  }

  /** Every field can be read back and every kind told from a marker, at any depth up to 32 bits; only the kind of the
      outermost node may be the escape. */
  predicate Readable(f: Form, nodes: nat)
    decreases f, 0
  {
    AllWritable(f.fields) && f.kind != 0 && (nodes == 0 || f.kind != ESCAPE) && nodes + 1 < U32 &&
    AllReadable(f.kids, nodes + 1)
  }

  predicate AllReadable(fs: seq<Form>, nodes: nat)
    decreases fs, 1
  {
    fs == [] || (Readable(fs[0], nodes) && AllReadable(fs[1..], nodes))
  }

  /** A node of the tree format, written by its encoder, reads back to its last byte with all that is in it. */
  lemma {:induction false} NodeReadsBack(s: seq<byte>, i: nat, nodes: nat, f: Form)
    requires At(s, i, Encode(Written(f))) && Readable(f, nodes)
    ensures ReadForm(s, i, nodes, f) == Some((Got([f], nodes), i + |Encode(Written(f))|))
    decreases f, 0
  {
    hide *;
    var at, end := Layout(s, i, Written(f));
    UnfoldForm(f, nodes);
    FieldsReadBack(s, i + 2, f.fields);
    MarkersRead(s, i, end, nodes, f.kind);
    NodesReadBack(s, at, nodes + 1, f.kids);
    ReadFormSteps(s, i, nodes, f, at, end);
  }

  lemma {:induction false} NodesReadBack(s: seq<byte>, i: nat, nodes: nat, fs: seq<Form>)
    requires At(s, i, EncodeAll(AllWritten(fs))) && AllReadable(fs, nodes)
    ensures ReadForms(s, i, nodes, fs) == Some((Got(fs, nodes), i + |EncodeAll(AllWritten(fs))|))
    decreases fs, 1
  {
    hide *;
    if fs == [] {
      NoForms(s, i, nodes);
    } else {
      UnfoldForms(fs, nodes);
      KidsLayout(s, i, AllWritten(fs));
      NodeReadsBack(s, i, nodes, fs[0]);
      NodesReadBack(s, i + |Encode(Written(fs[0]))|, nodes, fs[1..]);
      ReadFormsSteps(s, i, nodes, fs);
      assert fs == [fs[0]] + fs[1..];
    }
  }

  lemma UnfoldForm(f: Form, nodes: nat)
    requires Readable(f, nodes)
    ensures Written(f).kind == f.kind && Written(f).props == PutFields(f.fields)
    ensures Written(f).kids == AllWritten(f.kids) && AllReadable(f.kids, nodes + 1) && AllWritable(f.fields)
    ensures f.kind != 0 && (nodes == 0 || f.kind != ESCAPE) && nodes + 1 < U32
  {
  }

  lemma UnfoldForms(fs: seq<Form>, nodes: nat)
    requires fs != [] && AllReadable(fs, nodes)
    ensures Readable(fs[0], nodes) && AllReadable(fs[1..], nodes)
    ensures AllWritten(fs) != [] && AllWritten(fs)[0] == Written(fs[0]) && AllWritten(fs)[1..] == AllWritten(fs[1..])
  {
  }

  lemma NoForms(s: seq<byte>, i: nat, nodes: nat)
    ensures ReadForms(s, i, nodes, []) == Some((Got([], nodes), i)) && |EncodeAll(AllWritten([]))| == 0
  {
  }

  lemma ReadFormSteps(s: seq<byte>, i: nat, nodes: nat, f: Form, at: nat, end: nat)
    requires StartMarker(s, i, nodes, f.kind) == Value(Marker(true, nodes + 1), i + 2)
    requires ReadFields(s, i + 2, f.fields, true) == Value(f.fields, at)
    requires ReadForms(s, at, nodes + 1, f.kids) == Some((Got(f.kids, nodes + 1), end))
    requires EndMarker(s, end, nodes + 1) == Value(Marker(true, nodes), end + 1)
    ensures ReadForm(s, i, nodes, f) == Some((Got([f], nodes), end + 1))
  {
    hide StartMarker, EndMarker, ReadFields, ReadForms;
  }

  lemma ReadFormsSteps(s: seq<byte>, i: nat, nodes: nat, fs: seq<Form>)
    requires fs != [] && ReadForm(s, i, nodes, fs[0]).Some?
    ensures var (got, next) := ReadForm(s, i, nodes, fs[0]).value;
      ReadForms(s, i, nodes, fs) == More(got.forms, ReadForms(s, next, got.nodes, fs[1..]))
    ensures forall forms, r :: More(forms, Some(r)) == Some((Got(forms + r.0.forms, r.0.nodes), r.1))
  {
    hide ReadForm;
  }

  lemma MarkersRead(s: seq<byte>, i: nat, end: nat, nodes: nat, kind: byte)
    requires i + 1 < end < |s| && s[i] == START && s[i + 1] == kind && s[end] == END
    requires kind != 0 && (nodes == 0 || kind != ESCAPE) && nodes + 1 < U32
    ensures StartMarker(s, i, nodes, kind) == Value(Marker(true, nodes + 1), i + 2)
    ensures EndMarker(s, end, nodes + 1) == Value(Marker(true, nodes), end + 1)
  {
  }

  // --------------------------------------------------------------------
  // The stream
  // --------------------------------------------------------------------

  class FileStream {
    const data: seq<byte>
    var pos: nat
    var nodes: nat

    constructor (data: seq<byte>)
      ensures this.data == data && pos == 0 && nodes == 0
    {
      this.data, pos, nodes := data, 0, 0;
    }

    method Byte(escape: bool) returns (r: Answer<byte>)
      modifies this`pos
      ensures r == NextByte(data, old(pos), escape) && (r.Value? ==> pos == r.next)
    {
      if escape && pos < |data| && data[pos] == ESCAPE {
        pos := pos + 1;
      }
      if pos >= |data| {
        return Outside;
      }
      var b := data[pos];
      pos := pos + 1;
      r := Value(b, pos);
    }

    /** read, for a number of k bytes. */
    method Read(k: nat) returns (r: Answer<nat>)
      modifies this`pos
      ensures r == ReadNumber(data, old(pos), k, nodes > 0) && (r.Value? ==> pos == r.next)
    {
      if pos + k > |data| {
        return Thrown;
      }
      var start, bytes := pos, [];
      OntoNone(ReadBytes(data, pos, k, nodes > 0));
      for n := 0 to k
        invariant ReadBytes(data, start, k, nodes > 0) == Onto(bytes, ReadBytes(data, pos, k - n, nodes > 0))
      {
        OneMore(data, bytes, pos, k - n, nodes > 0);
        var b := Byte(nodes > 0);
        if !b.Value? {
          return Outside;
        }
        bytes := bytes + [b.v];
      }
      assert bytes + [] == bytes;
      r := Value(Number(bytes), pos);
    }

    method GetString() returns (r: Answer<seq<byte>>)
      modifies this`pos
      ensures r == ReadString(data, old(pos), nodes > 0) && (r.Value? ==> pos == r.next)
    {
      var len := Read(2);
      match len
      case Thrown => r := Thrown;
      case Outside => r := Outside;
      case Value(n, _) =>
        if 0 < n < MAX_STRING {
          if pos + n > |data| {
            return Thrown;
          }
          var str := data[pos..pos + n];
          pos := pos + n;
          r := Value(str, pos);
        } else if n != 0 {
          r := Thrown;
        } else {
          r := Value([], pos);
        }
    }

    method GetU8() returns (r: Answer<byte>)
      modifies this`pos
      ensures r == if old(pos) >= |data| then Thrown else NextByte(data, old(pos), nodes > 0)
      ensures r.Value? ==> pos == r.next
    {
      if pos + 1 > |data| {
        return Thrown;
      }
      r := Byte(nodes > 0);
    }

    method StartNode(kind: byte) returns (r: Answer<Marker>)
      modifies this
      ensures r == StartMarker(data, old(pos), old(nodes), kind) && (r.Value? ==> pos == r.next && nodes == r.v.nodes)
    {
      var b := GetU8();
      if !b.Value? {
        return if b.Thrown? then Thrown else Outside;
      }
      if b.v == START {
        var ok := kind == 0;
        if !ok {
          var c := GetU8();
          if !c.Value? {
            return if c.Thrown? then Thrown else Outside;
          }
          ok := c.v == kind;
        }
        if ok {
          nodes := (nodes + 1) % U32;
          return Value(Marker(true, nodes), pos);
        }
        pos := pos - 1;
      }
      pos := pos - 1;
      r := Value(Marker(false, nodes), pos);
    }

    method EndNode() returns (r: Answer<Marker>)
      modifies this
      ensures r == EndMarker(data, old(pos), old(nodes)) && (r.Value? ==> pos == r.next && nodes == r.v.nodes)
    {
      var b := GetU8();
      if !b.Value? {
        return if b.Thrown? then Thrown else Outside;
      }
      if b.v == END {
        nodes := (nodes + U32 - 1) % U32;
        return Value(Marker(true, nodes), pos);
      }
      pos := pos - 1;
      r := Value(Marker(false, nodes), pos);
    }
  }

  function Onto(bytes: seq<byte>, r: Answer<seq<byte>>): Answer<seq<byte>> {
    if r.Value? then Value(bytes + r.v, r.next) else r
  }

  lemma OntoNone(r: Answer<seq<byte>>)
    ensures Onto([], r) == r
  {
    if r.Value? {
      assert [] + r.v == r.v;
    }
  }

  lemma OneMore(s: seq<byte>, bytes: seq<byte>, i: nat, k: nat, escape: bool)
    requires k > 0
    ensures match NextByte(s, i, escape)
      case Value(b, next) =>
        Onto(bytes, ReadBytes(s, i, k, escape)) == Onto(bytes + [b], ReadBytes(s, next, k - 1, escape))
      case _ => ReadBytes(s, i, k, escape) == Outside
  {
    var b := NextByte(s, i, escape);
    if b.Value? {
      var r := ReadBytes(s, b.next, k - 1, escape);
      if r.Value? {
        assert bytes + ([b.v] + r.v) == bytes + [b.v] + r.v;
      }
    }
  }
}
