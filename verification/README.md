# pai: a parser for colon-delimited resource descriptions

This project models the parsing pipeline of `pai`, a tiny language that
describes a resource and its relations as a shell-safe string such as
`node2:edge2:node1:edge1:node:edge:property`. The model has five parts.

- **Tokenizer** (`tokenizer.dfy`): the input is split on `:`, and empty
  tokens are kept.
- **Slicer** (`slicer.dfy`): takes `n` tokens from the front of the cursor.
  There are three outcomes: a group, *empty* (no tokens left) or *exhausted*
  (some tokens left, but fewer than `n`).
- **Node model** (`syntax.dfy`): root and child nodes, and their two-way
  parent/child linkage.
- **Grouping visitor** (`visitor.dfy`): one parse step. It takes 3 tokens for
  the root or 2 for a child, reverses the group, and builds the node.
- **Parser facade** (`parser.dfy`): `parse` and `parse_gen`. They drive the
  visitor until a step finds no tokens left, and pass each new node in as the
  parent of the next step.

Representation choices:

- Python links nodes through mutable `parent` and `child` fields. Here every
  node lives in a store (`seq<Node>`), and a link is an index into that store.
  The store the parser returns is the produced node list itself: node `i + 1`
  is the child of node `i`.
- A node's parent link is `Sentinel` (the root marker), `Unlinked` (Python's
  `None`) or `Linked(i)`. `IsRoot` holds exactly for `Sentinel`, as
  `is_root` holds exactly for `ROOT_SENTINEL`.
- `parse_gen` is modelled as a finished run (`Parser.Run`). A run holds the
  nodes the generator yielded and the `SyntaxError` it raised after them, if
  any. `parse` is the list form of that run.
- The slicer and the driving loop belong to libraries that are not part of
  this model. `Slicer.IterSlice` is given by its contract. `Parser.Drive` is
  an assumed definition of the loop: its body is the assumption, and what it
  implies is proved in `Parser.DriveChain`, `Parser.DriveOutcome` and
  `Parser.DriveFlatten`.
- The driver's token order is an explicit assumption (`Parser.Cursor`). The
  input is split on the delimiter, and with `rtl` set the tokens are fed
  rightmost-first. So `n:e:p` parses as `Root(n, e, p)`, and
  `n1:e1:n:e:p` adds `Child(n1, e1)`. This matches the test fixtures'
  naming (`node1:edge1:node:edge:property`, tests/test_parser.py:47-83).

## Model

| member | source | states |
|---|---|---|
| `Syntax.Root` | pai/syntax.py:104-113 | a root is marked by the sentinel: it is a root and not a child, has the given node, edge and property, and has no child until one is linked |
| `Syntax.IsRoot` | pai/syntax.py:55-62 | a node is a root exactly when its parent is the sentinel; that roots are what `Syntax.Root` builds and children what `Syntax.Child` builds is in their contracts |
| `Syntax.IsChild` | pai/syntax.py:64-71 | the negation of `IsRoot`, as in the source; complementarity is proved in `Syntax.RootChildComplementary` |
| `Syntax.Insufficient` | pai/visitor.py:95-96 | the error raised for a partial group of `n`; its concrete messages are proved in `Syntax.InsufficientMessages` |
| `Syntax.RootChildComplementary` | pai/syntax.py:55-71 | every node is exactly one of root and child |
| `Syntax.LinkParent` | pai/syntax.py:83-91 | sets only the node's parent link; a no-op for `None`; no other field and no other node changes |
| `Syntax.LinkChild` | pai/syntax.py:93-101 | sets only the node's child link; a no-op for `None`; no other field and no other node changes |
| `Syntax.Link` | pai/syntax.py:73-81 | afterwards the node's parent is `parent` and `parent`'s child is the node; their node, edge and property fields are unchanged, and so is every other node |
| `Syntax.Child` | pai/syntax.py:116-127 | the new node is a child with the given node and edge and no property; its parent is `parent` and `parent`'s child is the new node; nothing else changes |
| `Syntax.InsufficientMessages` | pai/visitor.py:84-96 | the error messages are exactly "Insufficient tokens; expected 3" and "Insufficient tokens; expected 2" |
| `Slicer.IterSlice` | pai/visitor.py:82-96 | empty exactly when no tokens remain; exhausted exactly when 1 to n-1 remain; otherwise a group of exactly `n` tokens, which together with the rest is the whole cursor |
| `Visitor.Supports` | pai/visitor.py:16-32 | true if and only if both the group size and the direction equal the expected ones |
| `Visitor.SupportsDefaults` | pai/visitor.py:16 | with the default expectations, only group size 1 read right-to-left is supported |
| `Visitor.VisitNode` | pai/visitor.py:80-96 | none on an empty cursor; the error naming `n` on 1 to n-1 tokens; otherwise the first `n` tokens reversed, with the rest left over |
| `Visitor.VisitRoot` | pai/visitor.py:51-62 | for cursor tokens `t0, t1, t2, ...` it consumes exactly 3 and appends `Root(t2, t1, t0)`; empty gives none; 1 or 2 tokens raise "expected 3" |
| `Visitor.VisitChild` | pai/visitor.py:65-77 | for cursor tokens `t0, t1, ...` it consumes exactly 2 and appends `Child(t1, t0)`, linked both ways to `parent`, with nothing else changed; empty gives none; 1 token raises "expected 2" |
| `Visitor.Visit` | pai/visitor.py:35-48 | with no parent the step builds a root, with a parent a child; none exactly when no tokens remain; raises exactly when 0 < tokens < 3 or 2; tokens beyond the group are left for the next step |
| `Parser.Parse` | pai_lang/parser.py:15-22 | `parse` succeeds exactly when the generator ends without error, and then returns the yielded nodes in order; otherwise it raises the generator's error |
| `Parser.Cursor` | pai_lang/parser.py:32 | the assumed token order of the driver: split on the delimiter, reversed when `rtl` holds; at least one token, none containing the delimiter, and joining them back (in written order) gives the input |
| `Parser.Drive` | pai/visitor.py:42-48 | the assumed driver loop: the first step has no parent, each later step gets the previous node, and the run stops at `None` or the raised error; earlier nodes are kept, except that the parent adopts the first new node, and the only errors are "expected 3" and "expected 2"; its outcome is proved in `Parser.DriveOutcome`, its chain shape in `Parser.DriveChain` |
| `Parser.ParseGen` | pai_lang/parser.py:25-32 | `parse_gen` as the run of the driver over the cursor with the facade's settings; the only errors are "expected 3" and "expected 2"; its chain shape is proved in `Parser.ParseGenChain` and its outcome in `Parser.ParseOutcome` |
| `Parser.FacadeSettingsSupported` | pai_lang/parser.py:32 | the facade's delimiter `:`, group size 1 and right-to-left flag are settings the visitor supports |
| `Parser.DriveChain` | pai/visitor.py:42-48 | each driver step keeps the produced nodes a well-linked chain when the previous node is passed as parent |
| `Parser.ParseGenChain` | tests/test_parser.py:104-143 | for every input, the first yielded node is the only root, and every later node is a child whose parent is the node yielded just before it, whose child is the next node, the last having none |
| `Parser.DriveOutcome` | pai/visitor.py:91-96 | the run ends normally exactly when the tokens are used up by whole groups; otherwise it raises for the incomplete group, expecting 3 at the root step and 2 later; it yields a node per whole group |
| `Parser.ParseOutcome` | pai_lang/parser.py:15-32 | with `k` tokens, parsing succeeds exactly when `k` is 3 plus an even number, and yields `(k - 1) / 2` nodes (never none); otherwise it raises, expecting 3 when `k` < 3 and 2 otherwise |
| `Parser.DriveFlatten` | pai/visitor.py:59-77 | a run that ends normally places every cursor token into a node field, group by group in cursor order |
| `Parser.ParseRender` | pai_lang/parser.py:25-32 | a successful parse loses nothing: writing the nodes' fields back out gives the input string |
| `Parser.RenderParse` | pai_lang/parser.py:15-22 | parsing the written-out form of any non-empty, well-linked chain of delimiter-free fields gives back exactly that chain |
| `Tokenizer.Split` | pai_lang/parser.py:32 | splitting gives at least one token, and no token contains the delimiter (the assumed `str.split` behaviour of the driver, which splits on `syntax.DELIMITER`) |
| `Tokenizer.JoinSplit` | pai_lang/parser.py:32 | joining the split tokens with the delimiter gives back the input (the assumed `str.split` behaviour of the driver, which splits on `syntax.DELIMITER`) |
| `Tokenizer.SplitJoin` | pai_lang/parser.py:32 | splitting joined delimiter-free tokens gives back the tokens (the assumed `str.split` behaviour of the driver, which splits on `syntax.DELIMITER`) |
| `Tokenizer.SplitNoDelimiter` | pai_lang/parser.py:32 | a string without the delimiter is a single token (the assumed `str.split` behaviour of the driver, which splits on `syntax.DELIMITER`) |
| `Sequences.Reverse` | pai/visitor.py:92 | the reversed group has the same length, with element `i` taken from position `n - 1 - i` |
| `Fixtures.OneRoot` | tests/test_parser.py:47-57 | `node:edge:property` yields exactly one node, the root `Root(node, edge, property)` |
| `Fixtures.RootAndChild` | tests/test_parser.py:60-70 | a 5-token string yields exactly a root followed by a child whose parent is the root and which is the root's child |
| `Fixtures.RootAndTwoChildren` | tests/test_parser.py:73-83 | a 7-token string yields exactly a root and two children, each linked to the node before it |
| `Fixtures.EmptyFields` | tests/conftest.py:11-15 | empty tokens are valid fields: `::` yields a root whose three fields are empty |
| `Fixtures.EmptyStringRaises` | pai/visitor.py:93-96 | the empty string is one empty token and raises "Insufficient tokens; expected 3" rather than yielding nothing |
| `Fixtures.TwoTokensRaise` | tests/test_visitor.py:169-175 | two tokens are too few for a root and raise "expected 3" |
| `Fixtures.DanglingTokenRaises` | tests/test_visitor.py:178-186 | one token left over after a root raises "Insufficient tokens; expected 2" |

## Left out

- The slicer (`paip.slicer.iter_slice`) and the driving loop
  (`pai_parser.parser.parse_gen`) are not part of this model. The slicer is
  given by the contract of `Slicer.IterSlice`, and the loop by the assumed
  definition `Parser.Drive`. Nothing is claimed about their internals.
- The driver's token order (split on `:`, then reversed when `rtl` holds) is
  an assumption, stated once in `Parser.Cursor`. The field-mapping properties
  are stated at the visitor level, in terms of the order in which the cursor
  yields tokens, so they do not depend on it.
- Generator laziness and one-shot iteration: `parse_gen` is modelled as its
  finished run, the nodes yielded and the error raised, if any.
- Object identity of `ROOT_SENTINEL` and heap aliasing of `parent`/`child`.
  These are replaced by the `Sentinel` tag and by indices into the node store.
- Syntax.Link: takes a parent index, never `None`. `child(..., None)` would
  fail with `AttributeError` at pai/syntax.py:81, and `visit` only builds a
  child when it has a parent.
- Visitor.VisitRoot / Visitor.VisitChild: the overridable `n` argument is
  fixed at 3 and 2. `root(*node)` and `child(*node, parent)` accept exactly
  that many fields, and `visit` never passes another value.
- Slicer.IterSlice: requires `n > 0`. The visitor only asks for 3 or 2.
- Visitor.VisitNode: requires `n > 0` for the same reason. Every call of
  `visit_node` passes `n` from `visit_root` or `visit_child`, so 3 or 2.
- `Visitor.Visit` accepts `group_size` and `rtl` and ignores them, as the
  source does. Python's truthiness test `if not parent` is read as "no parent
  node", because a node object is always truthy.
- `__repr__`, `__slots__`, the package re-exports, `__version__` and the
  pytest fixture machinery are not modelled.
