/** The parser facade: split the input on the delimiter and drive the visitor
    over the tokens, threading each produced node in as the parent of the
    next step, until a step finds no tokens left.

    The loop that drives the visitor belongs to a library that is not part of
    this model. `Drive` is its assumed definition: it calls `Visitor.Visit` with no
    parent first and then with the previously produced node, yields every
    node, stops when a step returns nothing, and lets a syntax error
    propagate. Its token order is an explicit assumption: the input is split
    on the delimiter and, when `rtl` holds, handed to the visitor
    rightmost-first (`Cursor`). */
module Parser {
  import opened Wrappers
  import opened Sequences
  import opened Syntax
  import opened Tokenizer
  import opened Visitor

  /** A finished run of the generator: the nodes it yielded, in order, and the
      error it raised after them, if any. */
  datatype Run = Run(nodes: seq<Node>, error: Option<SyntaxError>)

  /** The tokens of `data` in the order the driver feeds them to the visitor. */
  function Cursor(data: string, delimiter: char, rtl: bool): (r: seq<string>)
    ensures |r| >= 1
    ensures forall i :: 0 <= i < |r| ==> delimiter !in r[i]
    ensures Join(if rtl then Reverse(r) else r, delimiter) == data
  {
    var tokens := Split(data, delimiter);
    JoinSplit(data, delimiter);
    ReverseInvolutive(tokens);
    if rtl then Reverse(tokens) else tokens
  }

  /** `store` once its node `parent` has adopted the node about to be
      appended; unchanged when there is no parent. */
  function Adopted(store: seq<Node>, parent: Option<Ref>): seq<Node>
    requires parent.Some? ==> parent.value < |store|
  {
    match parent
    case None => store
    case Some(p) => store[p := store[p].(child := Some(|store|))]
  }

  /** The driving loop from store `store` and cursor `tokens`, where `parent`
      is the node the previous step produced (`None` before the first).
      Nodes already in the store are never dropped or rewritten, except that
      `parent` adopts the first new node; and the only errors are the two
      the visitor raises. */
  function Drive(store: seq<Node>, tokens: seq<string>, groupSize: int, rtl: bool,
                 parent: Option<Ref>): (r: Run)
    requires parent.Some? ==> parent.value < |store|
    ensures |store| <= |r.nodes|
    ensures |r.nodes| == |store| ==> r.nodes == store
    ensures |r.nodes| > |store| ==> r.nodes[..|store|] == Adopted(store, parent)
    ensures r.error.Some? ==>
      r.error.value == Insufficient(ROOT_NODE_SIZE) || r.error.value == Insufficient(CHILD_NODE_SIZE)
    decreases |tokens|
  {
    match Visit(store, tokens, groupSize, rtl, parent)
    case Nothing => Run(store, None)
    case Raise(e) => Run(store, Some(e))
    case Made(grown, rest) =>
      var r := Drive(grown, rest, groupSize, rtl, Some(|store|));
      KeepsPrefix(store, grown, r.nodes, parent);
      r
  }

  /** The prefix kept by one step survives every later step. */
  lemma KeepsPrefix(store: seq<Node>, grown: seq<Node>, later: seq<Node>, parent: Option<Ref>)
    requires parent.Some? ==> parent.value < |store|
    requires |grown| == |store| + 1 && grown[..|store|] == Adopted(store, parent)
    requires |later| >= |grown|
    requires later == grown || later[..|grown|] == Adopted(grown, Some(|store|))
    ensures later[..|store|] == Adopted(store, parent)
  {
    if later != grown {
      assert later[..|store|] == later[..|grown|][..|store|];
    }
  }

  /** The generator form: every node yielded, then possibly the error raised. */
  function ParseGen(data: string): (r: Run)
    ensures r.error.Some? ==>
      r.error.value == Insufficient(ROOT_NODE_SIZE) || r.error.value == Insufficient(CHILD_NODE_SIZE)
  {
    Drive([], Cursor(data, DELIMITER, RTL), GROUP_SIZE, RTL, None)
  }

  /** The list form: all yielded nodes, or the error when the generator raised. */
  function Parse(data: string): (r: Result<seq<Node>, SyntaxError>)
    ensures r.Ok? <==> ParseGen(data).error.None?
    ensures r.Ok? ==> r.value == ParseGen(data).nodes
    ensures r.Err? ==> ParseGen(data).error == Some(r.error)
  {
    var run := ParseGen(data);
    match run.error
    case None => Ok(run.nodes)
    case Some(e) => Err(e)
  }

  /** The facade's settings are the ones the visitor supports. */
  lemma FacadeSettingsSupported()
    ensures Supports(GROUP_SIZE, RTL)
    ensures DELIMITER == ':' && GROUP_SIZE == 1 && RTL
  {
  }

  // ---------------------------------------------------------------------------
  // The shape of what is produced

  /** A well-linked chain: the first node is the root (with a property), every
      later node is a child (without one) whose parent is the node just before
      it, each node's child is the node just after it, and the last node has
      no child. */
  predicate Chain(nodes: seq<Node>)
  {
    && (|nodes| > 0 ==> nodes[0].parent == Sentinel && nodes[0].property.Some?)
    && (forall i :: 0 < i < |nodes| ==> nodes[i].parent == Linked(i - 1) && nodes[i].property == None)
    && (forall i :: 0 <= i < |nodes| - 1 ==> nodes[i].child == Some(i + 1))
    && (|nodes| > 0 ==> nodes[|nodes| - 1].child == None)
  }

  /** The previously produced node of a store built by the driver. */
  function LastRef(store: seq<Node>): (r: Option<Ref>)
    ensures r.Some? ==> r.value < |store|
  {
    if |store| == 0 then None else Some(|store| - 1)
  }

  /** Each step keeps the store a chain. */
  lemma {:induction false} DriveChain(store: seq<Node>, tokens: seq<string>, groupSize: int, rtl: bool)
    requires Chain(store)
    ensures Chain(Drive(store, tokens, groupSize, rtl, LastRef(store)).nodes)
    decreases |tokens|
  {
    match Visit(store, tokens, groupSize, rtl, LastRef(store))
    case Nothing =>
    case Raise(_) =>
    case Made(grown, rest) =>
      assert Chain(grown);
      DriveChain(grown, rest, groupSize, rtl);
  }

  /** Whatever the input, the nodes yielded (before an error, if any) form a
      chain: the first is the only root, and each later node is a child whose
      parent is the node yielded immediately before it. */
  lemma ParseGenChain(data: string)
    ensures Chain(ParseGen(data).nodes)
    ensures forall i :: 0 <= i < |ParseGen(data).nodes| ==>
      (IsRoot(ParseGen(data).nodes[i]) <==> i == 0)
    ensures Parse(data).Ok? ==> Chain(Parse(data).value)
  {
    DriveChain([], Cursor(data, DELIMITER, RTL), GROUP_SIZE, RTL);
  }

  // ---------------------------------------------------------------------------
  // How many nodes, and which error

  /** Whether `k` tokens are used up exactly, starting at a root step
      (3 tokens, then 2 per child) or at a child step (2 per child). */
  predicate Completes(k: nat, atRoot: bool)
  {
    if atRoot then k == 0 || (k >= 3 && (k - 3) % 2 == 0) else k % 2 == 0
  }

  /** How many nodes `k` tokens yield before the run stops. */
  function Produced(k: nat, atRoot: bool): nat
  {
    if atRoot then (if k < 3 then 0 else 1 + (k - 3) / 2) else k / 2
  }

  /** One whole group less: a node more, and the same verdict as the rest. */
  lemma StepArithmetic(k: nat, atRoot: bool)
    requires k >= (if atRoot then 3 else 2)
    ensures var rest := k - (if atRoot then 3 else 2);
      && Produced(k, atRoot) == 1 + Produced(rest, false)
      && (Completes(k, atRoot) <==> Completes(rest, false))
  {
  }

  /** The run ends normally exactly when the tokens are used up by whole
      groups; otherwise it raises for the group it could not complete. */
  lemma {:induction false} DriveOutcome(store: seq<Node>, tokens: seq<string>, groupSize: int, rtl: bool,
                                        parent: Option<Ref>)
    requires parent.Some? ==> parent.value < |store|
    ensures var r := Drive(store, tokens, groupSize, rtl, parent);
      && (r.error.None? <==> Completes(|tokens|, parent.None?))
      && (r.error.Some? ==>
            r.error.value == Insufficient(if parent.None? && |tokens| < 3 then 3 else 2))
      && |r.nodes| == |store| + Produced(|tokens|, parent.None?)
    decreases |tokens|
  {
    match Visit(store, tokens, groupSize, rtl, parent)
    case Nothing =>
    case Raise(_) =>
    case Made(grown, rest) =>
      assert |rest| == |tokens| - Arity(parent);
      StepArithmetic(|tokens|, parent.None?);
      DriveOutcome(grown, rest, groupSize, rtl, Some(|store|));
  }

  /** At a root step, `k` tokens complete exactly when `k` is 0 or 3 plus an
      even number, and yield `(k - 1) / 2` nodes once there are at least 3. */
  lemma RootArithmetic(k: nat)
    ensures Completes(k, true) <==> k == 0 || (k >= 3 && k % 2 == 1)
    ensures Produced(k, true) == (if k < 3 then 0 else (k - 1) / 2)
  {
  }

  /** For input whose split has `k` tokens: parsing succeeds exactly when
      `k` is 3 plus an even number, and then yields `(k - 1) / 2` nodes, a root
      followed by children; otherwise it raises, expecting 3 when `k` < 3 and 2
      otherwise. It never succeeds with no nodes. */
  lemma ParseOutcome(data: string)
    ensures var k := |Split(data, DELIMITER)|;
      && (Parse(data).Ok? <==> k >= 3 && k % 2 == 1)
      && (Parse(data).Ok? ==> |Parse(data).value| == (k - 1) / 2 >= 1)
      && (Parse(data).Err? ==> Parse(data).error == Insufficient(if k < 3 then 3 else 2))
      && |ParseGen(data).nodes| == (if k < 3 then 0 else (k - 1) / 2)
  {
    var tokens := Cursor(data, DELIMITER, RTL);
    var k := |Split(data, DELIMITER)|;
    assert |tokens| == k;
    DriveOutcome([], tokens, GROUP_SIZE, RTL, None);
    RootArithmetic(k);
  }

  // ---------------------------------------------------------------------------
  // Which tokens end up in which fields

  /** The tokens a node was built from, in the order the cursor yielded them:
      the reverse of the node's fields. */
  function TokensOf(x: Node): seq<string>
  {
    match x.property
    case Some(p) => [p, x.edge, x.node]
    case None => [x.edge, x.node]
  }

  /** The tokens of all nodes, in production order. */
  function Flatten(nodes: seq<Node>): seq<string>
  {
    if |nodes| == 0 then [] else Flatten(nodes[..|nodes| - 1]) + TokensOf(nodes[|nodes| - 1])
  }

  /** The source string a chain of nodes is written as. */
  function Render(nodes: seq<Node>): string
  {
    Join(Reverse(Flatten(nodes)), DELIMITER)
  }

  /** Changing a node's links does not change the tokens it stands for. */
  lemma {:induction false} FlattenUpdate(nodes: seq<Node>, p: nat, y: Node)
    requires p < |nodes| && TokensOf(y) == TokensOf(nodes[p])
    ensures Flatten(nodes[p := y]) == Flatten(nodes)
    decreases |nodes|
  {
    var n := |nodes|;
    var u := nodes[p := y];
    if p < n - 1 {
      assert u[..n - 1] == nodes[..n - 1][p := y];
      FlattenUpdate(nodes[..n - 1], p, y);
    } else {
      assert u[..n - 1] == nodes[..n - 1];
    }
  }

  /** Flattening distributes over concatenation. */
  lemma {:induction false} FlattenAppend(a: seq<Node>, b: seq<Node>)
    ensures Flatten(a + b) == Flatten(a) + Flatten(b)
    decreases |b|
  {
    if |b| == 0 {
      assert a + b == a;
    } else {
      var n := |b|;
      assert (a + b)[..|a + b| - 1] == a + b[..n - 1];
      FlattenAppend(a, b[..n - 1]);
    }
  }

  /** Appending a node appends its tokens, whatever links were updated before. */
  lemma FlattenGrown(store: seq<Node>, p: nat, y: Node, x: Node)
    requires p < |store| && TokensOf(y) == TokensOf(store[p])
    ensures Flatten(store[p := y] + [x]) == Flatten(store) + TokensOf(x)
  {
    var s := store[p := y] + [x];
    assert s[..|s| - 1] == store[p := y];
    FlattenUpdate(store, p, y);
  }

  /** A store that agrees with `store` except at `p`, plus one more node. */
  lemma GrownShape(store: seq<Node>, grown: seq<Node>, p: nat)
    requires p < |store| && |grown| == |store| + 1
    requires forall i :: 0 <= i < |store| && i != p ==> grown[i] == store[i]
    ensures grown == store[p := grown[p]] + [grown[|store|]]
  {
  }

  /** Building a child appends its edge and node tokens. */
  lemma FlattenChild(store: seq<Node>, node: string, edge: string, p: Ref)
    requires p < |store|
    ensures Flatten(Child(store, node, edge, p)) == Flatten(store) + [edge, node]
  {
    var grown := Child(store, node, edge, p);
    GrownShape(store, grown, p);
    FlattenGrown(store, p, grown[p], grown[|store|]);
  }

  /** Building a root appends its property, edge and node tokens. */
  lemma FlattenRoot(store: seq<Node>, node: string, edge: string, property: string)
    ensures Flatten(store + [Root(node, edge, property)]) == Flatten(store) + [property, edge, node]
  {
    var grown := store + [Root(node, edge, property)];
    assert grown[..|store|] == store;
  }

  /** The first two or three cursor tokens, listed. */
  lemma GroupPrefix(tokens: seq<string>)
    ensures 2 <= |tokens| ==> tokens[..2] == [tokens[0], tokens[1]]
    ensures 3 <= |tokens| ==> tokens[..3] == [tokens[0], tokens[1], tokens[2]]
  {
  }

  /** Moving a group from the front of the cursor to the end of the consumed
      tokens leaves the whole unchanged. */
  lemma ConsumeGroup(before: seq<string>, tokens: seq<string>, k: nat)
    requires k <= |tokens|
    ensures (before + tokens[..k]) + tokens[k..] == before + tokens
  {
    assert tokens == tokens[..k] + tokens[k..];
    AppendAssoc(before, tokens[..k], tokens[k..]);
  }

  /** A step moves the group it consumed from the cursor into the store. */
  lemma VisitFlatten(store: seq<Node>, tokens: seq<string>, groupSize: int, rtl: bool, parent: Option<Ref>)
    requires parent.Some? ==> parent.value < |store|
    ensures var step := Visit(store, tokens, groupSize, rtl, parent);
      step.Made? ==> Flatten(step.value) + step.rest == Flatten(store) + tokens
  {
    if Arity(parent) <= |tokens| {
      GroupPrefix(tokens);
      ConsumeGroup(Flatten(store), tokens, Arity(parent));
      match parent {
        case None => FlattenRoot(store, tokens[2], tokens[1], tokens[0]);
        case Some(p) => FlattenChild(store, tokens[1], tokens[0], p);
      }
    }
  }

  /** A run that ends normally has put every token into a field, in order. */
  lemma {:induction false} DriveFlatten(store: seq<Node>, tokens: seq<string>, groupSize: int, rtl: bool,
                                        parent: Option<Ref>)
    requires parent.Some? ==> parent.value < |store|
    ensures var r := Drive(store, tokens, groupSize, rtl, parent);
      r.error.None? ==> Flatten(r.nodes) == Flatten(store) + tokens
    decreases |tokens|
  {
    match Visit(store, tokens, groupSize, rtl, parent)
    case Nothing =>
    case Raise(_) =>
    case Made(grown, rest) =>
      VisitFlatten(store, tokens, groupSize, rtl, parent);
      DriveFlatten(grown, rest, groupSize, rtl, Some(|store|));
  }

  /** Parsing loses nothing: a successful parse renders back to its input. */
  lemma ParseRender(data: string)
    ensures Parse(data).Ok? ==> Render(Parse(data).value) == data
  {
    var tokens := Split(data, DELIMITER);
    var cursor := Cursor(data, DELIMITER, RTL);
    var run := Drive([], cursor, GROUP_SIZE, RTL, None);
    assert ParseGen(data) == run;
    DriveFlatten([], cursor, GROUP_SIZE, RTL, None);
    if run.error.None? {
      assert Flatten(run.nodes) == Reverse(tokens);
      ReverseInvolutive(tokens);
      JoinSplit(data, DELIMITER);
    }
  }

  /** The store after the driver has produced the first `k` nodes of `nodes`:
      those nodes, except that the last has no child yet. */
  function Trunc(nodes: seq<Node>, k: nat): (r: seq<Node>)
    requires k <= |nodes|
    ensures |r| == k
  {
    if k == 0 then [] else nodes[..k - 1] + [nodes[k - 1].(child := None)]
  }

  /** A chain's full store is the chain itself: its last node has no child. */
  lemma TruncFull(nodes: seq<Node>)
    requires Chain(nodes)
    ensures Trunc(nodes, |nodes|) == nodes
  {
    if |nodes| > 0 {
      assert nodes[|nodes| - 1].(child := None) == nodes[|nodes| - 1];
    }
  }

  /** The tokens of the rest of a chain start with those of its next node. */
  lemma FlattenFrom(nodes: seq<Node>, k: nat)
    requires k < |nodes|
    ensures Flatten(nodes[k..]) == TokensOf(nodes[k]) + Flatten(nodes[k + 1..])
  {
    assert nodes[k..] == [nodes[k]] + nodes[k + 1..];
    FlattenAppend([nodes[k]], nodes[k + 1..]);
    assert [nodes[k]][..0] == [];
  }

  /** The first step over a chain's tokens rebuilds its root. */
  lemma RebuildRoot(nodes: seq<Node>, tokens: seq<string>, groupSize: int, rtl: bool)
    requires Chain(nodes) && 0 < |nodes|
    requires tokens == TokensOf(nodes[0]) + Flatten(nodes[1..])
    ensures Visit([], tokens, groupSize, rtl, None) == Made(Trunc(nodes, 1), Flatten(nodes[1..]))
  {
    var x := nodes[0];
    assert Root(x.node, x.edge, x.property.value) == x.(child := None);
  }

  /** Each later step over a chain's tokens rebuilds its next child and links it. */
  lemma RebuildChild(nodes: seq<Node>, k: nat, tokens: seq<string>, groupSize: int, rtl: bool)
    requires Chain(nodes) && 0 < k < |nodes|
    requires tokens == TokensOf(nodes[k]) + Flatten(nodes[k + 1..])
    ensures Visit(Trunc(nodes, k), tokens, groupSize, rtl, Some(k - 1))
            == Made(Trunc(nodes, k + 1), Flatten(nodes[k + 1..]))
  {
    var step := Visit(Trunc(nodes, k), tokens, groupSize, rtl, Some(k - 1));
    assert nodes[k - 1].(child := Some(k)) == nodes[k - 1];
    assert step.value[k] == nodes[k].(child := None);
    assert step.value == Trunc(nodes, k + 1);
  }

  /** Driving over the tokens of the rest of a chain rebuilds the chain. */
  lemma {:induction false} DriveRebuild(nodes: seq<Node>, k: nat, groupSize: int, rtl: bool)
    requires Chain(nodes) && k <= |nodes|
    ensures Drive(Trunc(nodes, k), Flatten(nodes[k..]), groupSize, rtl, LastRef(Trunc(nodes, k)))
            == Run(nodes, None)
    decreases |nodes| - k
  {
    if k == |nodes| {
      assert nodes[k..] == [];
      TruncFull(nodes);
    } else {
      FlattenFrom(nodes, k);
      if k == 0 {
        RebuildRoot(nodes, Flatten(nodes[k..]), groupSize, rtl);
      } else {
        RebuildChild(nodes, k, Flatten(nodes[k..]), groupSize, rtl);
      }
      DriveRebuild(nodes, k + 1, groupSize, rtl);
    }
  }

  /** No field of any node contains the delimiter. */
  predicate DelimiterFree(nodes: seq<Node>)
  {
    forall i :: 0 <= i < |nodes| ==> NoDelimiterIn(TokensOf(nodes[i]))
  }

  predicate NoDelimiterIn(tokens: seq<string>)
  {
    forall j :: 0 <= j < |tokens| ==> DELIMITER !in tokens[j]
  }

  /** Tokens taken from delimiter-free nodes are delimiter-free. */
  lemma {:induction false} FlattenDelimiterFree(nodes: seq<Node>)
    requires DelimiterFree(nodes)
    ensures NoDelimiterIn(Flatten(nodes))
    decreases |nodes|
  {
    if |nodes| > 0 {
      FlattenDelimiterFree(nodes[..|nodes| - 1]);
      assert NoDelimiterIn(TokensOf(nodes[|nodes| - 1]));
    }
  }

  /** Rendering a non-empty chain whose tokens are free of the delimiter and
      parsing the result gives back exactly that chain. */
  lemma RenderParse(nodes: seq<Node>)
    requires Chain(nodes) && |nodes| >= 1 && DelimiterFree(nodes)
    ensures Parse(Render(nodes)) == Ok(nodes)
  {
    var tokens := Flatten(nodes);
    assert |tokens| >= 1 by {
      assert nodes == nodes[..|nodes| - 1] + [nodes[|nodes| - 1]];
    }
    var written := Reverse(tokens);
    FlattenDelimiterFree(nodes);
    assert forall i :: 0 <= i < |written| ==> DELIMITER !in written[i];
    SplitJoin(written, DELIMITER);
    ReverseInvolutive(tokens);
    assert nodes[0..] == nodes;
    DriveRebuild(nodes, 0, GROUP_SIZE, RTL);
  }
}
