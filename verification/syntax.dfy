/** The object representation of the language: grammar constants, the two node
    shapes (root and child), their two-way linkage, and the syntax error.

    Python nodes point at each other through mutable `parent`/`child` fields.
    Here every node lives in a store (`seq<Node>`) and a link is the index of
    the linked node in that store. */
module Syntax {
  import opened Wrappers

  /** Each token the cursor yields is its own group of one. */
  const GROUP_SIZE: int := 1
  /** Tokens are fed to the visitor right-to-left. */
  const RTL: bool := true
  const DELIMITER: char := ':'

  /** Tokens consumed to build a root node: node, edge and property. */
  const ROOT_NODE_SIZE: nat := 3
  /** Tokens consumed to build a child node: node and edge. */
  const CHILD_NODE_SIZE: nat := 2

  /** The position of a node in the store of all nodes built so far. */
  type Ref = nat

  /** What a node's `parent` field holds. */
  datatype ParentLink =
    | Sentinel         // the distinguished root marker
    | Unlinked         // `None`: no parent has been linked (yet)
    | Linked(at: Ref)  // another node

  /** One parsed entity. `property` is only given to roots; `child` is set
      when a later node links itself to this one. */
  datatype Node = Node(node: string, edge: string, property: Option<string>,
                       parent: ParentLink, child: Option<Ref>)

  /** The only error of the language: too few tokens to complete a group. */
  datatype SyntaxError = SyntaxError(message: string)

  predicate IsRoot(x: Node) {
    x.parent.Sentinel?
  }

  predicate IsChild(x: Node) {
    !IsRoot(x)
  }

  /** Every node is exactly one of root and child. */
  lemma RootChildComplementary(x: Node)
    ensures IsRoot(x) != IsChild(x)
    ensures IsRoot(x) || IsChild(x)
  {
  }

  /** Decimal digits of `n`, as `str.format` writes them. */
  function NatToString(n: nat): string
    decreases n
  {
    if n < 10 then ["0123456789"[n]] else NatToString(n / 10) + ["0123456789"[n % 10]]
  }

  /** The error raised when fewer than `n` (but some) tokens are left. */
  function Insufficient(n: nat): SyntaxError
  {
    SyntaxError("Insufficient tokens; expected " + NatToString(n))
  }

  /** The two counts the visitor can report. */
  lemma InsufficientMessages()
    ensures Insufficient(ROOT_NODE_SIZE).message == "Insufficient tokens; expected 3"
    ensures Insufficient(CHILD_NODE_SIZE).message == "Insufficient tokens; expected 2"
  {
  }

  /** A root node: marked by the sentinel, carrying all three fields, and with
      no child until one is linked to it. */
  function Root(node: string, edge: string, property: string): (r: Node)
    ensures IsRoot(r) && !IsChild(r)
    ensures r.node == node && r.edge == edge && r.property == Some(property)
    ensures r.child == None
  {
    Node(node, edge, Some(property), Sentinel, None)
  }

  /** Sets the parent link of node `self`; a no-op when `parent` is `None`. */
  function LinkParent(store: seq<Node>, self: Ref, parent: Option<Ref>): (r: seq<Node>)
    requires self < |store|
    ensures |r| == |store|
    ensures parent.None? ==> r == store
    ensures parent.Some? ==> r[self].parent == Linked(parent.value)
    ensures r[self].node == store[self].node && r[self].edge == store[self].edge
    ensures r[self].property == store[self].property && r[self].child == store[self].child
    ensures forall i :: 0 <= i < |store| && i != self ==> r[i] == store[i]
  {
    match parent
    case None => store
    case Some(p) => store[self := store[self].(parent := Linked(p))]
  }

  /** Sets the child link of node `self`; a no-op when `child` is `None`. */
  function LinkChild(store: seq<Node>, self: Ref, child: Option<Ref>): (r: seq<Node>)
    requires self < |store|
    ensures |r| == |store|
    ensures child.None? ==> r == store
    ensures child.Some? ==> r[self].child == child
    ensures r[self].node == store[self].node && r[self].edge == store[self].edge
    ensures r[self].property == store[self].property && r[self].parent == store[self].parent
    ensures forall i :: 0 <= i < |store| && i != self ==> r[i] == store[i]
  {
    match child
    case None => store
    case Some(c) => store[self := store[self].(child := Some(c))]
  }

  /** Links `self` as a child of `parent`: both directions are set, and
      nothing else about either node, or about any other node, changes. */
  function Link(store: seq<Node>, self: Ref, parent: Ref): (r: seq<Node>)
    requires self < |store| && parent < |store|
    ensures |r| == |store|
    ensures r[self].parent == Linked(parent)
    ensures r[parent].child == Some(self)
    ensures r[self].node == store[self].node && r[self].edge == store[self].edge
    ensures r[self].property == store[self].property
    ensures r[parent].node == store[parent].node && r[parent].edge == store[parent].edge
    ensures r[parent].property == store[parent].property
    ensures self != parent ==> r[self].child == store[self].child
    ensures self != parent ==> r[parent].parent == store[parent].parent
    ensures forall i :: 0 <= i < |store| && i != self && i != parent ==> r[i] == store[i]
  {
    LinkChild(LinkParent(store, self, Some(parent)), parent, Some(self))
  }

  /** Builds a child node of `parent` and appends it to the store. The new
      node is a child with the given fields and no property, its parent is
      `parent`, and `parent`'s child is the new node; every other field of
      every other node is unchanged. */
  function Child(store: seq<Node>, node: string, edge: string, parent: Ref): (r: seq<Node>)
    requires parent < |store|
    ensures |r| == |store| + 1
    ensures IsChild(r[|store|]) && !IsRoot(r[|store|])
    ensures r == store[parent := store[parent].(child := Some(|store|))]
                 + [Node(node, edge, None, Linked(parent), None)]
  {
    var grown := store + [Node(node, edge, None, Unlinked, None)];
    Link(grown, |store|, parent)
  }
}
