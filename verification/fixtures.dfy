/** The parser's test scenarios, stated for all delimiter-free tokens: how
    many nodes a string of 3, 5 and 7 tokens yields, with which fields and
    links, and which error too few tokens raise. */
module Fixtures {
  import opened Wrappers
  import opened Sequences
  import opened Syntax
  import opened Tokenizer
  import opened Parser

  /** `node:edge:property` yields exactly one node, the root with those fields. */
  lemma OneRoot(node: string, edge: string, property: string)
    requires DELIMITER !in node && DELIMITER !in edge && DELIMITER !in property
    ensures Parse(Join([node, edge, property], DELIMITER)) == Ok([Root(node, edge, property)])
  {
    var nodes := [Root(node, edge, property)];
    assert Flatten(nodes) == [property, edge, node] by {
      assert nodes[..0] == [];
    }
    assert Reverse([property, edge, node]) == [node, edge, property];
    assert NoDelimiterIn(TokensOf(nodes[0]));
    RenderParse(nodes);
  }

  /** `node1:edge1:node:edge:property` yields exactly two nodes: the root,
      then a child of it. */
  lemma RootAndChild(node1: string, edge1: string, node: string, edge: string, property: string)
    requires DELIMITER !in node1 && DELIMITER !in edge1
    requires DELIMITER !in node && DELIMITER !in edge && DELIMITER !in property
    ensures Parse(Join([node1, edge1, node, edge, property], DELIMITER))
            == Ok([Node(node, edge, Some(property), Sentinel, Some(1)),
                   Node(node1, edge1, None, Linked(0), None)])
  {
    var nodes := [Node(node, edge, Some(property), Sentinel, Some(1)),
                  Node(node1, edge1, None, Linked(0), None)];
    assert Flatten(nodes[..1]) == [property, edge, node] by {
      assert nodes[..1][..0] == [];
    }
    assert Flatten(nodes) == [property, edge, node, edge1, node1];
    assert Reverse([property, edge, node, edge1, node1]) == [node1, edge1, node, edge, property];
    assert NoDelimiterIn(TokensOf(nodes[0])) && NoDelimiterIn(TokensOf(nodes[1]));
    RenderParse(nodes);
  }

  /** `node2:edge2:node1:edge1:node:edge:property` yields exactly three nodes:
      the root, then two children, each linked to the node before it. */
  lemma RootAndTwoChildren(node2: string, edge2: string, node1: string, edge1: string,
                           node: string, edge: string, property: string)
    requires DELIMITER !in node2 && DELIMITER !in edge2
    requires DELIMITER !in node1 && DELIMITER !in edge1
    requires DELIMITER !in node && DELIMITER !in edge && DELIMITER !in property
    ensures Parse(Join([node2, edge2, node1, edge1, node, edge, property], DELIMITER))
            == Ok([Node(node, edge, Some(property), Sentinel, Some(1)),
                   Node(node1, edge1, None, Linked(0), Some(2)),
                   Node(node2, edge2, None, Linked(1), None)])
  {
    var nodes := [Node(node, edge, Some(property), Sentinel, Some(1)),
                  Node(node1, edge1, None, Linked(0), Some(2)),
                  Node(node2, edge2, None, Linked(1), None)];
    ThreeNodeTokens(nodes);
    ReverseSeven(property, edge, node, edge1, node1, edge2, node2);
    assert NoDelimiterIn(TokensOf(nodes[0])) && NoDelimiterIn(TokensOf(nodes[1]));
    assert NoDelimiterIn(TokensOf(nodes[2]));
    RenderParse(nodes);
  }

  /** The tokens of a three-node chain, in cursor order. */
  lemma ThreeNodeTokens(nodes: seq<Node>)
    requires |nodes| == 3 && nodes[0].property.Some?
    requires nodes[1].property.None? && nodes[2].property.None?
    ensures Flatten(nodes) == [nodes[0].property.value, nodes[0].edge, nodes[0].node,
                               nodes[1].edge, nodes[1].node, nodes[2].edge, nodes[2].node]
  {
    var two := nodes[..2];
    assert two[..1] == nodes[..1];
    assert nodes[..1][..0] == [];
    var first := [nodes[0].property.value, nodes[0].edge, nodes[0].node];
    assert Flatten(nodes[..1]) == first;
    assert Flatten(two) == first + [nodes[1].edge, nodes[1].node];
    assert Flatten(nodes) == Flatten(two) + [nodes[2].edge, nodes[2].node];
  }

  /** Reversing the seven cursor tokens gives the written order. */
  lemma ReverseSeven<T>(a: T, b: T, c: T, d: T, e: T, f: T, g: T)
    ensures Reverse([a, b, c, d, e, f, g]) == [g, f, e, d, c, b, a]
  {
  }

  /** Empty tokens are ordinary field values: `::` is a root with three empty fields. */
  lemma EmptyFields()
    ensures Parse("::") == Ok([Root("", "", "")])
  {
    OneRoot("", "", "");
    assert Join(["", "", ""], DELIMITER) == "::";
  }

  /** The empty string is one empty token, too few for a root. */
  lemma EmptyStringRaises()
    ensures Parse("") == Err(Insufficient(3))
    ensures Insufficient(3).message == "Insufficient tokens; expected 3"
  {
    assert Split("", DELIMITER) == [""];
    ParseOutcome("");
  }

  /** Two tokens are too few for a root. */
  lemma TwoTokensRaise(a: string, b: string)
    requires DELIMITER !in a && DELIMITER !in b
    ensures Parse(Join([a, b], DELIMITER)) == Err(Insufficient(3))
  {
    assert NoDelimiterIn([a, b]);
    SplitJoin([a, b], DELIMITER);
    ParseOutcome(Join([a, b], DELIMITER));
  }

  /** A single token left after the root is too few for a child. */
  lemma DanglingTokenRaises(stray: string, node: string, edge: string, property: string)
    requires DELIMITER !in stray
    requires DELIMITER !in node && DELIMITER !in edge && DELIMITER !in property
    ensures Parse(Join([stray, node, edge, property], DELIMITER)) == Err(Insufficient(2))
    ensures Insufficient(2).message == "Insufficient tokens; expected 2"
  {
    assert NoDelimiterIn([stray, node, edge, property]);
    SplitJoin([stray, node, edge, property], DELIMITER);
    ParseOutcome(Join([stray, node, edge, property], DELIMITER));
  }
}
