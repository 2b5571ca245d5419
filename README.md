# logiceval: the expression tree and the result container

This project models two pieces of logiceval, a Java program that parses,
prints and evaluates propositional-logic expressions and enumerates their
truth tables.

- **Class `Expression`** (`logiceval/representation/Expression.java`): a node
  of the expression tree. A node holds a list of sub-expressions and a list of
  operators; the node that wraps a single `Variable` has a null operator list.
  Nodes are built by a binary constructor, a unary constructor, a
  variable-wrapping constructor, or by the no-argument constructor followed by
  chained `addSubExpression` / `addOperator` calls that grow an n-ary chain in
  place. On top of that sit the structural tests `isVariable`,
  `consistsOfAVariable` and `isSimpleExpression`, the free-variable collector
  `getVariables`, the printer `toString` and structural `equals`.
- **Class `Values`** (`evaluation/Values.java`): the bounded container that
  collects truth-table results. `add` appends while the size is below the
  capacity and silently drops the value once the container is full.

Layout:

- `wrappers.dfy`, module `Wrappers`: `Option`, standing for a Java reference
  that may be null.
- `expression.dfy`, module `Representation`: the tree as an immutable value
  `Expr = Var(Variable) | Node(subs, ops: Option<seq<Operator>>)`, the three
  value-building constructors, the structural tests, `Variables`
  (getVariables) with the reference predicate `Occurs`, and `Equals`.
- `printing.dfy`, module `Printing`: `Printable` (when toString does not
  throw), the specification `Show`, the imperative `ToString` with its loop
  over operand indices, and the left-to-right form of a printed chain.
- `builder.dfy`, module `Building`: class `Expression` with its mutable
  sub-expression and operator lists, its four constructors and the two
  chaining mutators; the chain value those calls build and the chains of
  ExpressionTest.
- `values.dfy`, module `Evaluation`: class `Values`, with `Valid()` as its
  invariant, and the functions `Admit` / `AdmitAll` that state what one add
  and a run of adds leave behind.

Java runtime failures become preconditions: `isSimpleExpression` and
`addOperator` need a non-null operator list, `toString` needs `Printable`,
and the `Values` constructor needs a capacity that `new ArrayList<>(capacity)`
accepts (not negative; a Java `int`).

The Java code has one node shape, a mutable builder, a null operator list
as the variable marker and no arity check; the model keeps all four.
`Values.add` silently drops a value offered when the container is full, and
`Add` states exactly that.

## Model

| member | source | states |
|---|---|---|
| `Representation.Binary` | logiceval/src/main/java/logiceval/representation/Expression.java:32-38 | the binary node holds exactly `[left, right]` and `[op]`; it is a simple expression, not a variable wrapper and not a variable |
| `Representation.Unary` | logiceval/src/main/java/logiceval/representation/Expression.java:46-51 | the unary node holds exactly `[right]` and `[op]`; it is a simple expression, not a variable wrapper and not a variable |
| `Representation.OfVariable` | logiceval/src/main/java/logiceval/representation/Expression.java:58-62 | the wrapper holds one variable and a null operator list; `consistsOfAVariable` holds and `isVariable` does not |
| `Representation.ConsistsOfAVariableIffWrapper` | logiceval/src/main/java/logiceval/representation/Expression.java:93-95 | `consistsOfAVariable` holds of a node exactly when it is the wrapper of some variable |
| `Representation.SimpleIffBinaryOrUnary` | logiceval/src/main/java/logiceval/representation/Expression.java:101-103 | on a node with an operator list, `isSimpleExpression` holds exactly when the node is one the binary or the unary constructor builds |
| `Representation.VariablesSpec` | logiceval/src/main/java/logiceval/representation/Expression.java:119-129 | a variable is in `getVariables` of a node exactly when it occurs as a leaf somewhere below it |
| `Representation.VariablesOfFirstSpec` | logiceval/src/main/java/logiceval/representation/Expression.java:121-127 | after the loop has visited the first k sub-expressions, the set holds exactly the variables occurring in them |
| `Representation.LeafVariablesSpec` | logiceval/src/main/java/logiceval/representation/Expression.java:122-126 | one sub-expression contributes itself if it is a variable, else the variables occurring below it |
| `Representation.BinaryVariables` | logiceval/src/main/java/logiceval/representation/Expression.java:119-129 | the variables of `left op right` are the union of those of its two sides |
| `Representation.UnaryVariables` | logiceval/src/main/java/logiceval/representation/Expression.java:119-129 | the variables of `op right` are those of its operand |
| `Representation.VariablesExamples` | logiceval/src/test/java/logiceval/representation/ExpressionTest.java:56-80 | `NOT (A OR B)` and `(A OR B) IMPLIES (A AND B)` both have the variables `{A, B}` |
| `Representation.EqualsIsStructural` | logiceval/src/main/java/logiceval/representation/Expression.java:188-208 | `equals` (operator lists both null or equal, sub-expression lists pairwise equal) holds exactly when the two trees are the same value |
| `Representation.EqualsIsReflexiveAndSymmetric` | logiceval/src/main/java/logiceval/representation/Expression.java:189-191 | every expression equals itself, and `equals` is symmetric |
| `Printing.ToString` | logiceval/src/main/java/logiceval/representation/Expression.java:154-177 | the string built by appending, with the loop over operand indices, is the printed form `Show` of the expression |
| `Printing.ShowIsDelimited` | logiceval/src/main/java/logiceval/representation/Expression.java:156-175 | every node prints as text that begins with `"( "` and ends with `" )"` |
| `Printing.ChainPrefixIsDelimited` | logiceval/src/main/java/logiceval/representation/Expression.java:166-173 | while printing a chain, the text so far begins with `"( "` and ends with a space |
| `Printing.ShowOfVariable` | logiceval/src/main/java/logiceval/representation/Expression.java:157-159 | the variable wrapper prints as `"( name )"` |
| `Printing.ShowUnary` | logiceval/src/main/java/logiceval/representation/Expression.java:160-164 | a unary node is printable when its operand is and prints as `"( OP operand )"` |
| `Printing.ShowBinary` | logiceval/src/main/java/logiceval/representation/Expression.java:165-173 | a binary node is printable when its sides are and prints as `"( left OP right )"` |
| `Printing.ShowChain` | logiceval/src/main/java/logiceval/representation/Expression.java:165-173 | a chain prints as `"( "` then the operands interleaved with one operator between neighbours, each followed by a space, then `")"`; surplus operators are not printed |
| `Printing.InterleaveSnoc` | logiceval/src/main/java/logiceval/representation/Expression.java:168-173 | one more loop iteration appends exactly the next operator and operand to the interleaving |
| `Printing.ChainPrefixIsInterleave` | logiceval/src/main/java/logiceval/representation/Expression.java:166-173 | after printing operands 0 .. n-1 the text is `"( "` followed by their interleaving with the first n-1 operators |
| `Printing.ShowBinaryExample` | logiceval/src/test/java/logiceval/representation/ExpressionTest.java:21-26 | `A OR B` prints as `"( A OR B )"` |
| `Printing.ShowUnaryExample` | logiceval/src/test/java/logiceval/representation/ExpressionTest.java:29-35 | `NOT (A OR B)` prints as `"( NOT ( A OR B ) )"` |
| `Printing.ShowNestedExample` | logiceval/src/test/java/logiceval/representation/ExpressionTest.java:38-45 | `(A OR B) IMPLIES (A AND B)` prints as `"( ( A OR B ) IMPLIES ( A AND B ) )"` |
| `Building.Expression.Empty` | logiceval/src/main/java/logiceval/representation/Expression.java:20-23 | a new node has an empty sub-expression list and an empty (non-null) operator list |
| `Building.Expression.Binary` | logiceval/src/main/java/logiceval/representation/Expression.java:32-38 | the new object holds the binary node `left op right`, a simple expression |
| `Building.Expression.Unary` | logiceval/src/main/java/logiceval/representation/Expression.java:46-51 | the new object holds the unary node `op right`, a simple expression |
| `Building.Expression.OfVariable` | logiceval/src/main/java/logiceval/representation/Expression.java:58-62 | the new object wraps the variable with a null operator list and consists of a variable |
| `Building.Expression.AddSubExpression` | logiceval/src/main/java/logiceval/representation/Expression.java:71-74 | appends the sub-expression at the end, leaves the operators unchanged, returns the same object |
| `Building.Expression.AddOperator` | logiceval/src/main/java/logiceval/representation/Expression.java:83-86 | on a non-null operator list, appends the operator at the end, leaves the sub-expressions unchanged, returns the same object |
| `Building.BuildFiveAndChain` | logiceval/src/test/java/logiceval/representation/ExpressionTest.java:89-99 | the chained calls of ExpressionTest leave the five-operand AND chain in the object |
| `Building.BuildNestedChain` | logiceval/src/test/java/logiceval/representation/ExpressionTest.java:105-116 | the chained calls of ExpressionTest, with the two binary nodes as operands, leave the chain `A AND (A OR B) AND (A OR C)` in the object |
| `Building.ChainIsPrintable` | logiceval/src/main/java/logiceval/representation/Expression.java:165-173 | a chain with one operator per gap and printable operands is printable and is not a variable wrapper |
| `Building.FiveAndChainExample` | logiceval/src/test/java/logiceval/representation/ExpressionTest.java:83-101 | five ANDed variables print as `"( A AND B AND C AND D AND E )"` |
| `Building.NestedChainExample` | logiceval/src/test/java/logiceval/representation/ExpressionTest.java:103-118 | `A AND (A OR B) AND (A OR C)` prints as `"( A AND ( A OR B ) AND ( A OR C ) )"` |
| `Building.FiveAndChainVariables` | logiceval/src/main/java/logiceval/representation/Expression.java:119-129 | the five-operand AND chain has exactly its five operands as variables |
| `Evaluation.Values.constructor` | logiceval/src/main/java/evaluation/Values.java:16-19 | a new container is empty, has size 0, records the capacity and satisfies the invariant |
| `Evaluation.Values.Add` | logiceval/src/main/java/evaluation/Values.java:25-30 | below capacity the value is appended and the size grows by one; at capacity nothing changes and no error is raised; the invariant (size equals the list length, at most the capacity) is kept |
| `Evaluation.Values.GetValues` | logiceval/src/main/java/evaluation/Values.java:36-38 | returns the collected values, at most `capacity` of them |
| `Evaluation.AdmitKeepsStored` | logiceval/src/main/java/evaluation/Values.java:25-30 | an add never alters a stored value and never exceeds the capacity |
| `Evaluation.AdmitAllIsTruncation` | logiceval/src/main/java/evaluation/Values.java:25-30 | a run of adds keeps the stored values followed by the offered ones, cut off at the capacity |
| `Evaluation.FreshContainerKeepsPrefix` | logiceval/src/main/java/evaluation/Values.java:16-30 | a new container fed a sequence holds its first `capacity` values in order, and all of them when they fit |

## Left out

- `hashCode` (Expression.java:180-186): 32-bit arithmetic over Java list hash codes; only structural equality is modelled.
- `getSubExpressions` and `getOperators` (Expression.java:137-148) return the two lists; in the model the fields are read directly.
- `Values.toString` (Values.java:40-43): Java's list formatting is not modelled.
- Classes `Variable` and `Operator` are not part of this model; a variable is modelled as a leaf carrying its name (equal by name, printed as its name, `isVariable` true) and an operator as a four-valued datatype printed as its name. Because `Variable`'s own `consistsOfAVariable`, `isSimpleExpression` and `getVariables` are not known, those queries are stated on expression nodes only.
- `Building.Expression.AddSubExpression`: sub-expressions are held by value, so a later in-place change to a child object that the Java node would see through its reference is not modelled.
- `Evaluation.Values.GetValues`: returns the current list as a value; the aliasing of the internal Java list is not modelled.
- `Printing.ToString`: each iteration appends the operator, a space, the operand and a space as one string, where the Java code makes four appends to a `StringBuilder`; the resulting text is the same.
- Exceptions of the Java code (null dereference, index out of range, negative initial capacity) are preconditions rather than modelled error results, because the code does not handle them.
- The parser, the symbol validator, the evaluator and the truth-table enumerator are not part of this model; `logiceval/src/main/java/util/InputReader.java` is file input and is left out.
