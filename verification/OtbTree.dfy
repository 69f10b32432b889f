// The OTB tree format: nodes between START and END markers, props escaped
// (src/io/fileloader.cpp, src/io/fileloader.hpp:16-52).
module OtbTree {
  import opened Bytes
  import opened Options

  const ESCAPE: byte := 0xFD
  const START: byte := 0xFE
  const END: byte := 0xFF

  const IDENTIFIER_SIZE: nat := 4
  const MINIMAL_SIZE: nat := 7

  /** A node as the parser sees it: where its props are, -1 while their end is not known. */
  datatype Tree = Tree(kind: byte, begin: nat, end: int, kids: seq<Tree>)

  /** A node as the author of a file means it. */
  datatype Doc = Doc(kind: byte, props: seq<byte>, kids: seq<Doc>)

  datatype Parsed = Fail | Ok(tree: Tree, next: nat)

  // --------------------------------------------------------------------
  // The format, by recursive descent
  // --------------------------------------------------------------------

  /** Props end where the first child starts, or at the END marker. */
  function Mark(t: Tree, i: nat): Tree {
    if t.end < 0 then t.(end := i) else t
  }

  function AddKid(t: Tree, kid: Tree): Tree {
    t.(kids := t.kids + [kid])
  }

  /** Reads from i to the END of the node that is open as t. */
  function ParseBody(s: seq<byte>, i: nat, t: Tree): (r: Parsed)
    requires i <= |s|
    ensures r.Ok? ==> i < r.next <= |s|
    decreases |s| - i
  {
    if i == |s| then Fail
    else if s[i] == END then Ok(Mark(t, i), i + 1)
    else if s[i] == START then
      if i + 1 == |s| then Fail else
      var kid := ParseBody(s, i + 2, Tree(s[i + 1], i + 2, -1, []));
      if kid.Fail? then Fail else ParseBody(s, kid.next, AddKid(Mark(t, i), kid.tree))
    else if s[i] == ESCAPE then
      if i + 1 == |s| then Fail else ParseBody(s, i + 2, t)
    else ParseBody(s, i + 1, t)
  }

  /** No marker from i on, and no escape without its byte. */
  predicate Clean(s: seq<byte>, i: nat)
    requires i <= |s|
    decreases |s| - i
  {
    i == |s| || (s[i] != START && s[i] != END &&
      if s[i] == ESCAPE then i + 1 < |s| && Clean(s, i + 2) else Clean(s, i + 1))
  }

  function Parse(s: seq<byte>): Option<Tree>
    requires |s| > MINIMAL_SIZE
  {
    if s[IDENTIFIER_SIZE] != START then None else
    var r := ParseBody(s, IDENTIFIER_SIZE + 2, Tree(s[IDENTIFIER_SIZE + 1], IDENTIFIER_SIZE + 2, -1, []));
    if r.Ok? && Clean(s, r.next) then Some(r.tree) else None
  }

  function Unescape(s: seq<byte>): seq<byte> {
    if s == [] then []
    else if s[0] != ESCAPE then [s[0]] + Unescape(s[1..])
    else if |s| == 1 then []
    else [s[1]] + Unescape(s[2..])
  }

  // --------------------------------------------------------------------
  // Which inputs are accepted
  // --------------------------------------------------------------------

  /** Markers outside escape pairs balance: only the last END brings the depth to 0. */
  predicate Balanced(s: seq<byte>, i: nat, depth: nat)
    requires i <= |s|
    decreases |s| - i
  {
    if i == |s| then depth == 0
    else if s[i] == START then depth > 0 && i + 1 < |s| && Balanced(s, i + 2, depth + 1)
    else if s[i] == END then depth > 0 && Balanced(s, i + 1, depth - 1)
    else if s[i] == ESCAPE then i + 1 < |s| && Balanced(s, i + 2, depth)
    else Balanced(s, i + 1, depth)
  }

  lemma {:induction false} CleanIsBalanced(s: seq<byte>, i: nat)
    requires i <= |s|
    ensures Clean(s, i) <==> Balanced(s, i, 0)
    decreases |s| - i
  {
    if i < |s| && s[i] == ESCAPE {
      if i + 1 < |s| {
        CleanIsBalanced(s, i + 2);
      }
    } else if i < |s| {
      CleanIsBalanced(s, i + 1);
    }
  }

  lemma {:induction false} BodyIsBalanced(s: seq<byte>, i: nat, t: Tree, depth: nat)
    requires i <= |s|
    ensures var r := ParseBody(s, i, t);
      Balanced(s, i, depth + 1) <==> r.Ok? && Balanced(s, r.next, depth)
    decreases |s| - i
  {
    if i == |s| || s[i] == END || ((s[i] == START || s[i] == ESCAPE) && i + 1 == |s|) {
    } else if s[i] == START {
      var leaf := Tree(s[i + 1], i + 2, -1, []);
      BodyIsBalanced(s, i + 2, leaf, depth + 1);
      var kid := ParseBody(s, i + 2, leaf);
      if kid.Ok? {
        BodyIsBalanced(s, kid.next, AddKid(Mark(t, i), kid.tree), depth);
      }
    } else if s[i] == ESCAPE {
      BodyIsBalanced(s, i + 2, t, depth);
    } else {
      BodyIsBalanced(s, i + 1, t, depth);
    }
  }

  /** A file is accepted exactly when it starts a node and its markers balance. */
  lemma AcceptedIffBalanced(s: seq<byte>)
    requires |s| > MINIMAL_SIZE
    ensures Parse(s).Some? <==> s[IDENTIFIER_SIZE] == START && Balanced(s, IDENTIFIER_SIZE + 2, 1)
  {
    var root := Tree(s[IDENTIFIER_SIZE + 1], IDENTIFIER_SIZE + 2, -1, []);
    BodyIsBalanced(s, IDENTIFIER_SIZE + 2, root, 0);
    var r := ParseBody(s, IDENTIFIER_SIZE + 2, root);
    if r.Ok? {
      CleanIsBalanced(s, r.next);
    }
  }

  // --------------------------------------------------------------------
  // Round trip
  // --------------------------------------------------------------------

  function Escape(p: seq<byte>): seq<byte> {
    if p == [] then []
    else (if p[0] >= ESCAPE then [ESCAPE, p[0]] else [p[0]]) + Escape(p[1..])
  }

  function Encode(d: Doc): seq<byte>
    decreases d, 0
  {
    [START, d.kind] + Escape(d.props) + EncodeAll(d.kids) + [END]
  }

  function EncodeAll(ds: seq<Doc>): seq<byte>
    decreases ds, 1
  {
    if ds == [] then [] else Encode(ds[0]) + EncodeAll(ds[1..])
  }

  /** The tree names, in the file s, exactly the node d. */
  predicate Reads(s: seq<byte>, t: Tree, d: Doc)
    decreases d
  {
    t.kind == d.kind && t.begin <= t.end <= |s| && Unescape(s[t.begin..t.end]) == d.props &&
    |t.kids| == |d.kids| && forall k :: 0 <= k < |d.kids| ==> Reads(s, t.kids[k], d.kids[k])
  }

  predicate ReadsAll(s: seq<byte>, ts: seq<Tree>, ds: seq<Doc>) {
    |ts| == |ds| && forall k :: 0 <= k < |ds| ==> Reads(s, ts[k], ds[k])
  }

  lemma {:induction false} UnescapeEscape(p: seq<byte>)
    ensures Unescape(Escape(p)) == p
  {
    if p != [] {
      UnescapeEscape(p[1..]);
      var e := Escape(p);
      if p[0] >= ESCAPE {
        assert e[2..] == Escape(p[1..]);
      } else {
        assert e[1..] == Escape(p[1..]);
      }
    }
  }

  lemma {:induction false} SkipsProps(s: seq<byte>, i: nat, p: seq<byte>, t: Tree)
    requires At(s, i, Escape(p))
    ensures ParseBody(s, i, t) == ParseBody(s, i + |Escape(p)|, t)
    decreases p
  {
    if p != [] {
      var head: seq<byte> := if p[0] >= ESCAPE then [ESCAPE, p[0]] else [p[0]];
      AtSplit(s, i, head, Escape(p[1..]));
      assert s[i] == head[0];
      SkipsProps(s, i + |head|, p[1..], t);
    }
  }

  /** Where the parts of an encoded node lie. */
  lemma Layout(s: seq<byte>, i: nat, d: Doc) returns (kids: nat, end: nat)
    requires At(s, i, Encode(d))
    ensures i + 1 < end < |s| && kids == i + 2 + |Escape(d.props)|
    ensures end == kids + |EncodeAll(d.kids)| == i + |Encode(d)| - 1
    ensures s[i] == START && s[i + 1] == d.kind && s[end] == END
    ensures At(s, i + 2, Escape(d.props)) && At(s, kids, EncodeAll(d.kids))
  {
    var head, body, tail := [START, d.kind], Escape(d.props), EncodeAll(d.kids);
    assert Encode(d) == head + (body + (tail + [END]));
    AtSplit(s, i, head, body + (tail + [END]));
    AtSplit(s, i, head[..1], head[1..]);
    AtSplit(s, i + 2, body, tail + [END]);
    AtSplit(s, i + 2 + |body|, tail, [END]);
    kids := i + 2 + |body|;
    end := kids + |tail|;
    assert s[end] == [END][0];
  }

  lemma KidsLayout(s: seq<byte>, i: nat, ds: seq<Doc>)
    requires ds != [] && At(s, i, EncodeAll(ds))
    ensures |EncodeAll(ds)| == |Encode(ds[0])| + |EncodeAll(ds[1..])|
    ensures At(s, i, Encode(ds[0])) && At(s, i + |Encode(ds[0])|, EncodeAll(ds[1..]))
    ensures i + 1 < |s| && s[i] == START && s[i + 1] == ds[0].kind
  {
    AtSplit(s, i, Encode(ds[0]), EncodeAll(ds[1..]));
    var _, _ := Layout(s, i, ds[0]);
  }

  /** The tree of a document whose encoding starts at i. */
  function TreeOf(i: nat, d: Doc): Tree
    decreases d, 0
  {
    var end := i + 2 + |Escape(d.props)|;
    Tree(d.kind, i + 2, end, TreesOf(end, d.kids))
  }

  function TreesOf(i: nat, ds: seq<Doc>): seq<Tree>
    decreases ds, 1
  {
    if ds == [] then [] else [TreeOf(i, ds[0])] + TreesOf(i + |Encode(ds[0])|, ds[1..])
  }

  /** The node open as t after the children ts, the first of them starting at i. */
  function Grown(t: Tree, i: nat, ts: seq<Tree>): Tree {
    if ts == [] then t else Mark(t, i).(kids := t.kids + ts)
  }

  lemma GrownCons(t: Tree, i: nat, j: nat, first: Tree, rest: seq<Tree>)
    ensures Grown(AddKid(Mark(t, i), first), j, rest) == Grown(t, i, [first] + rest)
  {
    assert t.kids + ([first] + rest) == t.kids + [first] + rest;
  }

  lemma AtEnd(s: seq<byte>, i: nat, t: Tree)
    requires i < |s| && s[i] == END
    ensures ParseBody(s, i, t) == Ok(Mark(t, i), i + 1)
  {
  }

  /** Parsing an encoded node builds its tree and stops right behind its END. */
  lemma {:induction false} ParsesNode(s: seq<byte>, i: nat, d: Doc)
    requires At(s, i, Encode(d))
    ensures ParseBody(s, i + 2, Tree(d.kind, i + 2, -1, [])) == Ok(TreeOf(i, d), i + |Encode(d)|)
    decreases d, 0
  {
    hide At, Encode, Escape;
    var kids, end := Layout(s, i, d);
    var open := Tree(d.kind, i + 2, -1, []);
    SkipsProps(s, i + 2, d.props, open);
    ParsesKids(s, kids, d.kids, open);
    AtEnd(s, end, Grown(open, kids, TreesOf(kids, d.kids)));
    assert [] + TreesOf(kids, d.kids) == TreesOf(kids, d.kids);
  }

  /** Children in a row are read one after the other into the open node. */
  lemma {:induction false} ParsesKids(s: seq<byte>, i: nat, ds: seq<Doc>, t: Tree)
    requires At(s, i, EncodeAll(ds))
    ensures ParseBody(s, i, t) == ParseBody(s, i + |EncodeAll(ds)|, Grown(t, i, TreesOf(i, ds)))
    decreases ds, 1
  {
    if ds != [] {
      KidsLayout(s, i, ds);
      ParsesNode(s, i, ds[0]);
      var next := i + |Encode(ds[0])|;
      ParsesKids(s, next, ds[1..], AddKid(Mark(t, i), TreeOf(i, ds[0])));
      GrownCons(t, i, next, TreeOf(i, ds[0]), TreesOf(next, ds[1..]));
    }
  }

  /** That tree names the document: kinds, unescaped props and children in order. */
  lemma {:induction false} TreeReads(s: seq<byte>, i: nat, d: Doc)
    requires At(s, i, Encode(d))
    ensures Reads(s, TreeOf(i, d), d)
    decreases d, 0
  {
    hide At, Encode, EncodeAll, Escape, Unescape;
    var kids, end := Layout(s, i, d);
    TreesRead(s, kids, d.kids);
    PropsRead(s, i + 2, d.props);
  }

  lemma PropsRead(s: seq<byte>, i: nat, p: seq<byte>)
    requires At(s, i, Escape(p))
    ensures i + |Escape(p)| <= |s| && Unescape(s[i..i + |Escape(p)|]) == p
  {
    AtSlice(s, i, Escape(p));
    UnescapeEscape(p);
  }

  lemma {:induction false} TreesRead(s: seq<byte>, i: nat, ds: seq<Doc>)
    requires At(s, i, EncodeAll(ds))
    ensures ReadsAll(s, TreesOf(i, ds), ds)
    decreases ds, 1
  {
    if ds != [] {
      KidsLayout(s, i, ds);
      TreeReads(s, i, ds[0]);
      TreesRead(s, i + |Encode(ds[0])|, ds[1..]);
    }
  }

  /** The document a tree stands for: what getProps and the children of its nodes give, from the root down. */
  function DocOf(s: seq<byte>, t: Tree): Doc
    decreases t
  {
    Doc(t.kind, if t.begin <= t.end <= |s| then Unescape(s[t.begin..t.end]) else [], DocsOf(s, t.kids))
  }

  function DocsOf(s: seq<byte>, ts: seq<Tree>): seq<Doc>
    decreases ts
  {
    if ts == [] then [] else [DocOf(s, ts[0])] + DocsOf(s, ts[1..])
  }

  lemma {:induction false} ReadsIsDoc(s: seq<byte>, t: Tree, d: Doc)
    requires Reads(s, t, d)
    ensures DocOf(s, t) == d
    decreases d, 0
  {
    hide Unescape;
    ReadsAreDocs(s, t.kids, d.kids);
  }

  lemma {:induction false} ReadsAreDocs(s: seq<byte>, ts: seq<Tree>, ds: seq<Doc>)
    requires ReadsAll(s, ts, ds)
    ensures DocsOf(s, ts) == ds
    decreases ds, 1
  {
    hide Unescape;
    if ds != [] {
      ReadsIsDoc(s, ts[0], ds[0]);
      ReadsAreDocs(s, ts[1..], ds[1..]);
    }
  }

  const WILDCARD: seq<byte> := [0, 0, 0, 0]

  /** What the constructor lets through. */
  predicate Openable(s: seq<byte>, accepted: seq<byte>) {
    |s| > MINIMAL_SIZE && (s[..IDENTIFIER_SIZE] == accepted || s[..IDENTIFIER_SIZE] == WILDCARD)
  }

  /** A file holding the encoding of a document reads back as that document. Only the childless
      document without props is lost: its file is one byte too short for the constructor. */
  lemma RoundTrip(id: seq<byte>, d: Doc, accepted: seq<byte>)
    requires |id| == IDENTIFIER_SIZE
    ensures var s := id + Encode(d);
      (Openable(s, accepted) <==> (d.props != [] || d.kids != []) && (id == accepted || id == WILDCARD)) &&
      (Openable(s, accepted) ==>
        Parse(s).Some? && Reads(s, Parse(s).value, d) && DocOf(s, Parse(s).value) == d)
  {
    var s := id + Encode(d);
    assert s[..IDENTIFIER_SIZE] == id;
    AtSlice(s, IDENTIFIER_SIZE, Encode(d));
    var _, _ := Layout(s, IDENTIFIER_SIZE, d);
    ParsesNode(s, IDENTIFIER_SIZE, d);
    TreeReads(s, IDENTIFIER_SIZE, d);
    ReadsIsDoc(s, TreeOf(IDENTIFIER_SIZE, d), d);
  }

  // --------------------------------------------------------------------
  // The stack machine
  // --------------------------------------------------------------------

  /** What the loop still has to find, with the nodes of `open` on its stack, the top one last. */
  function Resume(s: seq<byte>, i: nat, open: seq<Tree>): Option<Tree>
    requires i <= |s| && open != []
    decreases |open|
  {
    var top := |open| - 1;
    var r := ParseBody(s, i, open[top]);
    if r.Fail? then None
    else if top == 0 then (if Clean(s, r.next) then Some(r.tree) else None)
    else Resume(s, r.next, open[..top - 1] + [AddKid(open[top - 1], r.tree)])
  }

  /** The stack after a START at i. */
  function Deeper(s: seq<byte>, i: nat, open: seq<Tree>): seq<Tree>
    requires i + 1 < |s| && open != []
  {
    open[..|open| - 1] + [Mark(open[|open| - 1], i), Tree(s[i + 1], i + 2, -1, [])]
  }

  /** The stack after an END at i that is not the root's. */
  function Shallower(i: nat, open: seq<Tree>): seq<Tree>
    requires open != []
  {
    var top := |open| - 1;
    if top == 0 then [] else open[..top - 1] + [AddKid(open[top - 1], Mark(open[top], i))]
  }

  /** The parse of the file is r, if the loop is at i with this stack; root is the tree it closed last. */
  ghost predicate Due(s: seq<byte>, i: nat, open: seq<Tree>, root: Tree, r: Option<Tree>)
    requires i <= |s|
  {
    if open != [] then r == Resume(s, i, open) else r == if Clean(s, i) then Some(root) else None
  }

  lemma ResumeStart(s: seq<byte>, i: nat, open: seq<Tree>)
    requires i + 1 < |s| && open != [] && s[i] == START
    ensures Resume(s, i, open) == Resume(s, i + 2, Deeper(s, i, open))
  {
    var top := |open| - 1;
    var deeper := Deeper(s, i, open);
    var kid := ParseBody(s, i + 2, deeper[top + 1]);
    if kid.Ok? {
      var back := deeper[..top] + [AddKid(deeper[top], kid.tree)];
      assert ParseBody(s, i, open[top]) == ParseBody(s, kid.next, back[top]);
      assert back[..top] == open[..top];
      if top > 0 {
        assert back[..top - 1] == open[..top - 1];
      }
    }
  }

  lemma DueStart(s: seq<byte>, i: nat, open: seq<Tree>, root: Tree, r: Option<Tree>)
    requires i < |s| && s[i] == START && Due(s, i, open, root, r)
    ensures open == [] || i + 1 == |s| ==> r == None
    ensures open != [] && i + 1 < |s| ==> Due(s, i + 2, Deeper(s, i, open), root, r)
  {
    if open != [] && i + 1 < |s| {
      ResumeStart(s, i, open);
    }
  }

  lemma DueEnd(s: seq<byte>, i: nat, open: seq<Tree>, root: Tree, r: Option<Tree>)
    requires i < |s| && s[i] == END && Due(s, i, open, root, r)
    ensures open == [] ==> r == None
    ensures open != [] ==> Due(s, i + 1, Shallower(i, open), Mark(open[|open| - 1], i), r)
  {
  }

  lemma DueOther(s: seq<byte>, i: nat, open: seq<Tree>, root: Tree, r: Option<Tree>)
    requires i < |s| && s[i] != START && s[i] != END && Due(s, i, open, root, r)
    ensures s[i] != ESCAPE ==> Due(s, i + 1, open, root, r)
    ensures s[i] == ESCAPE ==> if i + 1 == |s| then r == None else Due(s, i + 2, open, root, r)
  {
  }

  lemma DueDone(s: seq<byte>, open: seq<Tree>, root: Tree, r: Option<Tree>)
    requires Due(s, |s|, open, root, r)
    ensures r == if open == [] then Some(root) else None
  {
  }

  lemma DueAtFirst(s: seq<byte>, root: Tree)
    requires |s| > MINIMAL_SIZE && s[IDENTIFIER_SIZE] == START
    requires root == Tree(s[IDENTIFIER_SIZE + 1], IDENTIFIER_SIZE + 2, -1, [])
    ensures Due(s, IDENTIFIER_SIZE + 2, [root], root, Parse(s))
  {
  }

  class Node {
    var kind: byte
    var propsBegin: nat
    var propsEnd: nat
    var children: seq<Node>

    constructor ()
      ensures children == []
    {
      kind, propsBegin, propsEnd, children := 0, 0, 0, [];
    }
  }

  /** Child k of n is the finished node for tree k of kids. */
  ghost predicate KidIs(n: Node, kids: seq<Tree>, trees: map<Node, Tree>, k: nat)
    reads n
  {
    k < |n.children| && k < |kids| && n.children[k] in trees && trees[n.children[k]] == kids[k]
  }

  ghost predicate FinishedNode(n: Node, t: Tree, trees: map<Node, Tree>)
    reads n
  {
    n.kind == t.kind && n.propsBegin == t.begin && n.propsEnd == t.end && |n.children| == |t.kids| &&
    forall k {:trigger KidIs(n, t.kids, trees, k)} :: 0 <= k < |t.kids| ==> KidIs(n, t.kids, trees, k)
  }

  /** Every node of the map is finished, and is the tree the map gives. */
  ghost predicate Finished(trees: map<Node, Tree>)
    reads trees.Keys
  {
    forall n: Node {:trigger FinishedNode(n, trees[n], trees)} :: n in trees ==> FinishedNode(n, trees[n], trees)
  }

  /** Node k of the stack has the children of tree k, then the node above it on the stack. */
  ghost predicate Opened(stack: seq<Node>, open: seq<Tree>, trees: map<Node, Tree>, k: nat)
    requires k < |stack| && |stack| == |open|
    reads stack
  {
    var n, t := stack[k], open[k];
    n !in trees && n.kind == t.kind && n.propsBegin == t.begin && (t.end >= 0 ==> n.propsEnd == t.end) &&
    (t.end < 0 <==> |n.children| == 0) &&
    (if k + 1 < |stack| then |n.children| == |t.kids| + 1 && n.children[|t.kids|] == stack[k + 1]
     else |n.children| == |t.kids|) &&
    forall k {:trigger KidIs(n, t.kids, trees, k)} :: 0 <= k < |t.kids| ==> KidIs(n, t.kids, trees, k)
  }

  ghost predicate Distinct(stack: seq<Node>) {
    forall j, k :: 0 <= j < k < |stack| ==> stack[j] != stack[k]
  }

  /** The nodes on the stack, each the last child of the one below it. */
  ghost predicate OpenedAll(stack: seq<Node>, open: seq<Tree>, trees: map<Node, Tree>)
    reads stack
  {
    |stack| == |open| && Distinct(stack) &&
    forall k {:trigger Opened(stack, open, trees, k)} :: 0 <= k < |stack| ==> Opened(stack, open, trees, k)
  }

  /** The loop invariant: heap and stack are the nodes of `open`, and `open` leads to the parse. */
  ghost predicate Consistent(s: seq<byte>, i: nat, root: Node, stack: seq<Node>, open: seq<Tree>, last: Tree,
                             trees: map<Node, Tree>, parsed: Option<Tree>)
    requires i <= |s|
    reads stack, trees.Keys
  {
    OpenedAll(stack, open, trees) && Finished(trees) && Due(s, i, open, last, parsed) &&
    if stack == [] then root in trees && trees[root] == last else stack[0] == root
  }

  /** The START case: the top of the stack gains a child, which becomes the top. */
  method BeginChild(s: seq<byte>, i: nat, root: Node, stack: seq<Node>, ghost open: seq<Tree>, ghost last: Tree,
                    ghost trees: map<Node, Tree>, ghost parsed: Option<Tree>)
      returns (deeper: seq<Node>, ghost open': seq<Tree>)
    requires i + 1 < |s| && s[i] == START && stack != []
    requires Consistent(s, i, root, stack, open, last, trees, parsed)
    modifies stack[|stack| - 1]
    ensures |deeper| == |stack| + 1 && deeper[..|stack|] == stack && fresh(deeper[|stack|])
    ensures Consistent(s, i + 2, root, deeper, open', last, trees, parsed)
  {
    hide Due, Finished;
    var currentNode := stack[|stack| - 1];
    ghost var top := |stack| - 1;
    assert Opened(stack, open, trees, top);
    if currentNode.children == [] {
      currentNode.propsEnd := i;
    }
    var child := new Node();
    currentNode.children := currentNode.children + [child];
    child.kind := s[i + 1];
    child.propsBegin := i + 2;
    deeper, open' := stack + [child], Deeper(s, i, open);
    forall k | 0 <= k < |deeper| ensures Opened(deeper, open', trees, k) {
      if k <= top {
        assert old(Opened(stack, open, trees, k));
        forall j | 0 <= j < |open[k].kids| ensures KidIs(deeper[k], open[k].kids, trees, j) {
          assert old(KidIs(stack[k], open[k].kids, trees, j));
        }
      }
    }
    StillFinished(trees);
    DueStart(s, i, open, last, parsed);
  }

  /** Every node that is finished has the kind, the props and the children of its tree. */
  lemma FinishedFields(trees: map<Node, Tree>)
    ensures Finished(trees) <==> forall n <- trees ::
      n.kind == trees[n].kind && n.propsBegin == trees[n].begin && n.propsEnd == trees[n].end &&
      |n.children| == |trees[n].kids| &&
      forall k :: 0 <= k < |n.children| ==> n.children[k] in trees && trees[n.children[k]] == trees[n].kids[k]
  {
    if Finished(trees) {
      forall n | n in trees
        ensures n.kind == trees[n].kind && n.propsBegin == trees[n].begin && n.propsEnd == trees[n].end
        ensures |n.children| == |trees[n].kids|
      {
        assert FinishedNode(n, trees[n], trees);
      }
      forall n, k | n in trees && 0 <= k < |n.children|
        ensures n.children[k] in trees && trees[n.children[k]] == trees[n].kids[k]
      {
        assert FinishedNode(n, trees[n], trees) && KidIs(n, trees[n].kids, trees, k);
      }
    }
  }

  twostate lemma StillFinished(trees: map<Node, Tree>)
    requires old(Finished(trees)) && forall n <- trees :: unchanged(n)
    ensures Finished(trees)
  {
    forall n <- trees ensures FinishedNode(n, trees[n], trees) {
      assert old(FinishedNode(n, trees[n], trees));
      forall j | 0 <= j < |trees[n].kids| ensures KidIs(n, trees[n].kids, trees, j) {
        assert old(KidIs(n, trees[n].kids, trees, j));
      }
    }
  }

  /** The END case: the top of the stack is finished and is a child of the one below. */
  method FinishNode(s: seq<byte>, i: nat, root: Node, stack: seq<Node>, ghost open: seq<Tree>, ghost last: Tree,
                    ghost trees: map<Node, Tree>, ghost parsed: Option<Tree>)
      returns (shallower: seq<Node>, ghost open': seq<Tree>, ghost last': Tree, ghost trees': map<Node, Tree>)
    requires i < |s| && s[i] == END && stack != []
    requires Consistent(s, i, root, stack, open, last, trees, parsed)
    modifies stack[|stack| - 1]
    ensures shallower == stack[..|stack| - 1]
    ensures Consistent(s, i + 1, root, shallower, open', last', trees', parsed)
  {
    var top := |stack| - 1;
    var currentNode := stack[top];
    assert Opened(stack, open, trees, top);
    if currentNode.children == [] {
      currentNode.propsEnd := i;
    }
    shallower, open', last' := stack[..top], Shallower(i, open), Mark(open[top], i);
    trees' := trees[currentNode := last'];
    forall k | 0 <= k < |shallower| ensures Opened(shallower, open', trees', k) {
      assert old(Opened(stack, open, trees, k));
      forall j | 0 <= j < |open'[k].kids| ensures KidIs(stack[k], open'[k].kids, trees', j) {
        if j < |open[k].kids| {
          assert old(KidIs(stack[k], open[k].kids, trees, j));
        }
      }
    }
    forall n <- trees' ensures FinishedNode(n, trees'[n], trees') {
      if n != currentNode {
        assert old(FinishedNode(n, trees[n], trees));
      }
      forall j | 0 <= j < |trees'[n].kids| ensures KidIs(n, trees'[n].kids, trees', j) {
        assert old(KidIs(n, trees'[n].kids, trees, j));
      }
    }
    DueEnd(s, i, open, last, parsed);
  }

  class Loader {
    const fileContents: seq<byte>
    const root: Node
    var propBuffer: seq<byte>

    ghost predicate Valid() {
      |fileContents| > MINIMAL_SIZE
    }

    constructor (contents: seq<byte>)
      requires |contents| > MINIMAL_SIZE
      ensures Valid() && fileContents == contents && fresh(root)
    {
      fileContents := contents;
      root := new Node();
      propBuffer := [];
    }

    /** false is the exception for a malformed file. */
    method ParseTree() returns (ok: bool, ghost trees: map<Node, Tree>)
      requires Valid()
      modifies root
      ensures ok <==> Parse(fileContents).Some?
      ensures ok ==> Finished(trees) && root in trees && trees[root] == Parse(fileContents).value
    {
      trees := map[];
      var s := fileContents;
      var it := IDENTIFIER_SIZE;
      if s[it] != START {
        return false, trees;
      }
      it := it + 1;
      root.kind := s[it];
      it := it + 1;
      root.propsBegin := it;
      root.children := [];
      var parseStack := [root];
      ghost var open := [Tree(s[IDENTIFIER_SIZE + 1], it, -1, [])];
      assert Opened(parseStack, open, trees, 0);
      ghost var last, parsed := open[0], Parse(s);
      DueAtFirst(s, last);
      while it != |s|
        invariant IDENTIFIER_SIZE + 2 <= it <= |s|
        invariant forall k :: 0 <= k < |parseStack| ==> parseStack[k] == root || fresh(parseStack[k])
        invariant Consistent(s, it, root, parseStack, open, last, trees, parsed)
        decreases |s| - it
      {
        if s[it] == START {
          if parseStack == [] || it + 1 == |s| {
            DueStart(s, it, open, last, parsed);
            return false, trees;
          }
          parseStack, open := BeginChild(s, it, root, parseStack, open, last, trees, parsed);
          it := it + 1;
        } else if s[it] == END {
          if parseStack == [] {
            DueEnd(s, it, open, last, parsed);
            return false, trees;
          }
          parseStack, open, last, trees := FinishNode(s, it, root, parseStack, open, last, trees, parsed);
        } else {
          DueOther(s, it, open, last, parsed);
          if s[it] == ESCAPE {
            it := it + 1;
            if it == |s| {
              return false, trees;
            }
          }
        }
        it := it + 1;
      }
      DueDone(s, open, last, parsed);
      ok := parseStack == [];
    }

    /** Copies the props of a node without their escapes; false leaves the stream alone. */
    method GetProps(node: Node) returns (ok: bool, props: seq<byte>)
      requires node.propsBegin <= node.propsEnd <= |fileContents|
      modifies this`propBuffer
      ensures ok <==> node.propsBegin < node.propsEnd
      ensures ok ==> props == Unescape(fileContents[node.propsBegin..node.propsEnd])
    {
      props := [];
      if node.propsBegin == node.propsEnd {
        return false, props;
      }
      propBuffer := [];
      var lastEscaped := false;
      ghost var all := fileContents[node.propsBegin..node.propsEnd];
      ghost var rest := all;
      var i := node.propsBegin;
      while i < node.propsEnd
        invariant node.propsBegin <= i <= node.propsEnd
        invariant rest == fileContents[i..node.propsEnd]
        invariant Unescape(all) == propBuffer + PendingProps(rest, lastEscaped)
      {
        var b := fileContents[i];
        PendingStep(rest, lastEscaped, propBuffer);
        lastEscaped := b == ESCAPE && !lastEscaped;
        if !lastEscaped {
          propBuffer := propBuffer + [b];
        }
        rest := rest[1..];
        i := i + 1;
      }
      props := propBuffer;
      ok := true;
    }
  }

  /** Loader::Loader: null is the exception for a file that is too short or has another identifier. */
  method Open(contents: seq<byte>, acceptedIdentifier: seq<byte>) returns (loader: Loader?)
    ensures loader != null <==> Openable(contents, acceptedIdentifier)
    ensures loader != null ==> loader.fileContents == contents && fresh(loader.root)
  {
    if |contents| <= MINIMAL_SIZE {
      return null;
    }
    var fileIdentifier := contents[..IDENTIFIER_SIZE];
    if fileIdentifier != acceptedIdentifier && fileIdentifier != WILDCARD {
      return null;
    }
    loader := new Loader(contents);
  }

  /** What is left to copy when the byte before was an escape, or was not. */
  function PendingProps(rest: seq<byte>, lastEscaped: bool): seq<byte> {
    if !lastEscaped then Unescape(rest) else if rest == [] then [] else [rest[0]] + Unescape(rest[1..])
  }

  lemma PendingStep(rest: seq<byte>, lastEscaped: bool, copied: seq<byte>)
    requires rest != []
    ensures var escaped := rest[0] == ESCAPE && !lastEscaped;
      copied + PendingProps(rest, lastEscaped) ==
        (if escaped then copied else copied + [rest[0]]) + PendingProps(rest[1..], escaped)
  {
    if rest[0] != ESCAPE || lastEscaped {
      assert PendingProps(rest, lastEscaped) == [rest[0]] + PendingProps(rest[1..], false);
    } else if |rest| > 1 {
      assert rest[1..][1..] == rest[2..];
    }
  }
}
