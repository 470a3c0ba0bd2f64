/** The grouping visitor: one parse step takes a fixed-size group of tokens
    from the front of the cursor, reverses it, and builds a root (when there
    is no parent) or a child linked to the parent. */
module Visitor {
  import opened Wrappers
  import opened Sequences
  import opened Syntax
  import opened Slicer

  /** What one step produces: a value and the tokens left for the next step,
      nothing at all (the cursor was empty), or a raised syntax error. */
  datatype Step<T> =
    | Made(value: T, rest: seq<string>)
    | Nothing
    | Raise(error: SyntaxError)

  /** Whether this visitor accepts the driver's group size and direction. */
  function Supports(groupSize: int, rtl: bool,
                    expectedGroupSize: int := GROUP_SIZE, expectedRtl: bool := RTL): (r: bool)
    ensures r <==> groupSize == expectedGroupSize && rtl == expectedRtl
  {
    if groupSize != expectedGroupSize then false
    else if rtl != expectedRtl then false
    else true
  }

  /** With the default expectations, exactly group size 1, right-to-left, is supported. */
  lemma SupportsDefaults(groupSize: int, rtl: bool)
    ensures Supports(groupSize, rtl) <==> groupSize == 1 && rtl
  {
  }

  /** Takes `n` tokens and returns them in reverse cursor order. */
  function VisitNode(tokens: seq<string>, n: nat): (r: Step<seq<string>>)
    requires n > 0
    ensures r.Nothing? <==> |tokens| == 0
    ensures r.Raise? <==> 0 < |tokens| < n
    ensures r.Raise? ==> r.error == Insufficient(n)
    ensures r.Made? <==> n <= |tokens|
    ensures r.Made? ==> |r.value| == n && r.rest == tokens[n..]
    ensures r.Made? ==> forall i :: 0 <= i < n ==> r.value[i] == tokens[n - 1 - i]
  {
    match IterSlice(tokens, n)
    case Group(items, rest) => Made(Reverse(items), rest)
    case Empty => Nothing
    case Exhausted => Raise(Insufficient(n))
  }

  /** Builds a root from the next 3 tokens `t0, t1, t2` as `Root(t2, t1, t0)`
      and appends it to the store. */
  function VisitRoot(store: seq<Node>, tokens: seq<string>): (r: Step<seq<Node>>)
    ensures r.Nothing? <==> |tokens| == 0
    ensures r.Raise? <==> 0 < |tokens| < ROOT_NODE_SIZE
    ensures r.Raise? ==> r.error == Insufficient(ROOT_NODE_SIZE)
    ensures r.Made? ==> 3 <= |tokens| && r.rest == tokens[3..]
    ensures r.Made? ==> r.value == store + [Root(tokens[2], tokens[1], tokens[0])]
  {
    match VisitNode(tokens, ROOT_NODE_SIZE)
    case Made(fields, rest) => Made(store + [Root(fields[0], fields[1], fields[2])], rest)
    case Nothing => Nothing
    case Raise(e) => Raise(e)
  }

  /** Builds a child of `parent` from the next 2 tokens `t0, t1` as
      `Child(t1, t0, parent)`, appending it to the store and linking both ways. */
  function VisitChild(store: seq<Node>, tokens: seq<string>, parent: Ref): (r: Step<seq<Node>>)
    requires parent < |store|
    ensures r.Nothing? <==> |tokens| == 0
    ensures r.Raise? <==> 0 < |tokens| < CHILD_NODE_SIZE
    ensures r.Raise? ==> r.error == Insufficient(CHILD_NODE_SIZE)
    ensures r.Made? ==> 2 <= |tokens| && r.rest == tokens[2..]
    ensures r.Made? ==> r.value == Child(store, tokens[1], tokens[0], parent)
    ensures r.Made? ==> |r.value| == |store| + 1
    ensures r.Made? ==> r.value[|store|] == Node(tokens[1], tokens[0], None, Linked(parent), None)
    ensures r.Made? ==> r.value[parent] == store[parent].(child := Some(|store|))
  {
    match VisitNode(tokens, CHILD_NODE_SIZE)
    case Made(fields, rest) => Made(Child(store, fields[0], fields[1], parent), rest)
    case Nothing => Nothing
    case Raise(e) => Raise(e)
  }

  /** The number of tokens one step needs: 3 for the root, 2 for a child. */
  function Arity(parent: Option<Ref>): nat
  {
    if parent.None? then ROOT_NODE_SIZE else CHILD_NODE_SIZE
  }

  /** One parse step. Without a parent it builds a root, with one a child.
      An empty cursor gives `Nothing`, a partial group raises, and every token
      after the group is left for the next step. `groupSize` and `rtl` are
      accepted and ignored, as the visitor interface prescribes. */
  function Visit(store: seq<Node>, tokens: seq<string>, groupSize: int, rtl: bool,
                 parent: Option<Ref>): (r: Step<seq<Node>>)
    requires parent.Some? ==> parent.value < |store|
    ensures r.Nothing? <==> |tokens| == 0
    ensures r.Raise? <==> 0 < |tokens| < Arity(parent)
    ensures r.Raise? ==> r.error == Insufficient(Arity(parent))
    ensures r.Made? <==> Arity(parent) <= |tokens|
    ensures r.Made? ==> r.rest == tokens[Arity(parent)..] && |r.value| == |store| + 1
    ensures r.Made? ==> (IsRoot(r.value[|store|]) <==> parent.None?)
    ensures r.Made? && parent.None? ==> r.value == store + [Root(tokens[2], tokens[1], tokens[0])]
    ensures r.Made? && parent.Some? ==> r.value == Child(store, tokens[1], tokens[0], parent.value)
  {
    match parent
    case None => VisitRoot(store, tokens)
    case Some(p) => VisitChild(store, tokens, p)
  }
}
