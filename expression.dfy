/**
 * The logical-expression tree of logiceval (class Expression) as an
 * immutable value, with its structural queries: the variable test, the
 * "simple expression" test, the free-variable collector and structural
 * equality.
 */
module Representation {
  import opened Wrappers

  /** The four connectives; each prints as its own name. */
  datatype Operator = NOT | AND | OR | IMPLIES

  function OperatorName(op: Operator): string
  {
    match op
    case NOT => "NOT"
    case AND => "AND"
    case OR => "OR"
    case IMPLIES => "IMPLIES"
  }

  /** A propositional variable; two variables with the same name are equal. */
  datatype Variable = Variable(name: string)

  /**
   * A Variable leaf, or an Expression node holding its list of
   * sub-expressions and its list of operators. The operator list is None
   * (null in the Java code) exactly for the node that wraps one variable.
   */
  datatype Expr =
    | Var(v: Variable)
    | Node(subs: seq<Expr>, ops: Option<seq<Operator>>)

  // ---------------------------------------------------------------------
  // The three value-building constructors
  // ---------------------------------------------------------------------

  /** The binary constructor: `left op right`. */
  function Binary(left: Expr, op: Operator, right: Expr): (e: Expr)
    ensures e.Node? && e.subs == [left, right] && e.ops == Some([op])
    ensures IsSimpleExpression(e) && !ConsistsOfAVariable(e) && !IsVariable(e)
  {
    Node([left, right], Some([op]))
  }

  /** The unary constructor: `op right`. */
  function Unary(op: Operator, right: Expr): (e: Expr)
    ensures e.Node? && e.subs == [right] && e.ops == Some([op])
    ensures IsSimpleExpression(e) && !ConsistsOfAVariable(e) && !IsVariable(e)
  {
    Node([right], Some([op]))
  }

  /** The constructor that wraps a single variable; its operator list is null. */
  function OfVariable(v: Variable): (e: Expr)
    ensures e.Node? && e.subs == [Var(v)] && e.ops.None?
    ensures ConsistsOfAVariable(e) && !IsVariable(e)
  {
    Node([Var(v)], None)
  }

  // ---------------------------------------------------------------------
  // Structural predicates
  // ---------------------------------------------------------------------

  /** Only a Variable answers true; every Expression node answers false. */
  predicate IsVariable(e: Expr) {
    e.Var?
  }

  /** The node is the wrapper of exactly one variable. */
  predicate ConsistsOfAVariable(e: Expr)
    requires e.Node?
  {
    e.ops.None? && |e.subs| == 1 && IsVariable(e.subs[0])
  }

  /**
   * One operator and one or two sub-expressions. The Java code dereferences
   * the operator list, so it is not defined on the variable wrapper.
   */
  predicate IsSimpleExpression(e: Expr)
    requires e.Node? && e.ops.Some?
  {
    |e.ops.value| == 1 && 0 < |e.subs| < 3
  }

  /** consistsOfAVariable holds exactly of the nodes the variable constructor builds. */
  lemma ConsistsOfAVariableIffWrapper(e: Expr)
    requires e.Node?
    ensures ConsistsOfAVariable(e) <==> exists v :: e == OfVariable(v)
  {
    if ConsistsOfAVariable(e) {
      assert e == OfVariable(e.subs[0].v);
    }
  }

  /** isSimpleExpression holds exactly of the nodes the binary and unary constructors build. */
  lemma SimpleIffBinaryOrUnary(e: Expr)
    requires e.Node? && e.ops.Some?
    ensures IsSimpleExpression(e) <==>
      (exists l, op, r :: e == Binary(l, op, r)) || (exists op, r :: e == Unary(op, r))
  {
    if IsSimpleExpression(e) {
      var op := e.ops.value[0];
      assert e.ops.value == [op];
      if |e.subs| == 1 {
        assert e == Unary(op, e.subs[0]);
      } else {
        assert e.subs == [e.subs[0], e.subs[1]];
        assert e == Binary(e.subs[0], op, e.subs[1]);
      }
    }
  }

  // ---------------------------------------------------------------------
  // Free variables
  // ---------------------------------------------------------------------

  /** The contribution of one sub-expression: itself if it is a variable, else its variables. */
  function LeafVariables(e: Expr): set<Variable>
    decreases e, 2
  {
    match e
    case Var(v) => {v}
    case Node(_, _) => Variables(e)
  }

  /**
   * getVariables: the union, over the sub-expressions in order, of their
   * variables, collected recursively; duplicates merge in the set.
   */
  function Variables(e: Expr): set<Variable>
    requires e.Node?
    decreases e, 1
  {
    VariablesOfFirst(e, |e.subs|)
  }

  /** The variables collected from the first k sub-expressions of node e. */
  function VariablesOfFirst(e: Expr, k: nat): set<Variable>
    requires e.Node? && k <= |e.subs|
    decreases e, 0, k
  {
    if k == 0 then {}
    else VariablesOfFirst(e, k - 1) + LeafVariables(e.subs[k - 1])
  }

  /** Reference definition: x is a variable leaf somewhere below e (or is e). */
  ghost predicate Occurs(x: Variable, e: Expr)
    decreases e
  {
    match e
    case Var(v) => v == x
    case Node(subs, _) => exists i :: 0 <= i < |subs| && Occurs(x, subs[i])
  }

  lemma {:induction false} LeafVariablesSpec(e: Expr, x: Variable)
    ensures x in LeafVariables(e) <==> Occurs(x, e)
    decreases e, 2
  {
    if e.Node? {
      VariablesSpec(e, x);
    }
  }

  /** getVariables collects exactly the variables that occur in the expression. */
  lemma {:induction false} VariablesSpec(e: Expr, x: Variable)
    requires e.Node?
    ensures x in Variables(e) <==> Occurs(x, e)
    decreases e, 1
  {
    VariablesOfFirstSpec(e, |e.subs|, x);
  }

  lemma {:induction false} VariablesOfFirstSpec(e: Expr, k: nat, x: Variable)
    requires e.Node? && k <= |e.subs|
    ensures x in VariablesOfFirst(e, k) <==> exists i :: 0 <= i < k && Occurs(x, e.subs[i])
    decreases e, 0, k
  {
    if k > 0 {
      VariablesOfFirstSpec(e, k - 1, x);
      LeafVariablesSpec(e.subs[k - 1], x);
      if Occurs(x, e.subs[k - 1]) {
        assert exists i :: 0 <= i < k && Occurs(x, e.subs[i]);
      }
    }
  }

  /** The variables of `left op right` are those of its two sides. */
  lemma BinaryVariables(left: Expr, op: Operator, right: Expr)
    ensures Variables(Binary(left, op, right)) == LeafVariables(left) + LeafVariables(right)
  {
    var e := Binary(left, op, right);
    assert VariablesOfFirst(e, 1) == LeafVariables(left);
  }

  /** The variables of `op right` are those of its operand. */
  lemma UnaryVariables(op: Operator, right: Expr)
    ensures Variables(Unary(op, right)) == LeafVariables(right)
  {
    var e := Unary(op, right);
    assert VariablesOfFirst(e, 0) == {};
  }

  /** `NOT (A OR B)` and `(A OR B) IMPLIES (A AND B)` both have the variables {A, B}. */
  lemma VariablesExamples()
    ensures var a, b := Variable("A"), Variable("B");
      Variables(Unary(NOT, Binary(Var(a), OR, Var(b)))) == {a, b}
    ensures var a, b := Variable("A"), Variable("B");
      Variables(Binary(Binary(Var(a), OR, Var(b)), IMPLIES, Binary(Var(a), AND, Var(b)))) == {a, b}
  {
    var a, b := Variable("A"), Variable("B");
    var aOrB := Binary(Var(a), OR, Var(b));
    BinaryVariables(Var(a), OR, Var(b));
    UnaryVariables(NOT, aOrB);
    BinaryVariables(Var(a), AND, Var(b));
    BinaryVariables(aOrB, IMPLIES, Binary(Var(a), AND, Var(b)));
  }

  // ---------------------------------------------------------------------
  // Structural equality
  // ---------------------------------------------------------------------

  /**
   * equals: nodes are equal when their operator lists are both null or
   * equal lists, and their sub-expression lists have the same length and
   * are pairwise equal. A node never equals a variable (different class);
   * variables are equal when their names are.
   */
  predicate Equals(a: Expr, b: Expr)
    decreases a
  {
    match a
    case Var(x) => b.Var? && b.v == x
    case Node(subs, ops) =>
      && b.Node?
      && ops == b.ops
      && |subs| == |b.subs|
      && forall i :: 0 <= i < |subs| ==> Equals(subs[i], b.subs[i])
  }

  /** equals is exactly structural equality of the trees. */
  lemma {:induction false} EqualsIsStructural(a: Expr, b: Expr)
    ensures Equals(a, b) <==> a == b
    decreases a
  {
    match a
    case Var(_) =>
    case Node(subs, ops) =>
      if b.Node? && |subs| == |b.subs| {
        forall i | 0 <= i < |subs|
          ensures Equals(subs[i], b.subs[i]) <==> subs[i] == b.subs[i]
        {
          EqualsIsStructural(subs[i], b.subs[i]);
        }
        if Equals(a, b) {
          assert subs == b.subs;
        }
      }
  }

  /** equals is reflexive and symmetric. */
  lemma EqualsIsReflexiveAndSymmetric(a: Expr, b: Expr)
    ensures Equals(a, a)
    ensures Equals(a, b) <==> Equals(b, a)
  {
    EqualsIsStructural(a, a);
    EqualsIsStructural(a, b);
    EqualsIsStructural(b, a);
  }
}
