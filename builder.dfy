/**
 * Class Expression as a mutable object: its four constructors and the two
 * chaining mutators that build an n-ary node in place. The value of the
 * object at any moment is the Expr node made of its two lists.
 */
module Building {
  import opened Wrappers
  import opened Representation
  import Printing

  class Expression {
    var subExpressions: seq<Expr>
    var operators: Option<seq<Operator>>

    /** The node this object currently stands for. */
    function Value(): (e: Expr)
      reads this
      ensures e.Node? && e.subs == subExpressions && e.ops == operators
    {
      Node(subExpressions, operators)
    }

    /** The no-argument constructor: two empty lists, ready for chaining. */
    constructor Empty()
      ensures subExpressions == [] && operators == Some([])
    {
      subExpressions := [];
      operators := Some([]);
    }

    /** `left op right` */
    constructor Binary(left: Expr, op: Operator, right: Expr)
      ensures Value() == Representation.Binary(left, op, right)
      ensures IsSimpleExpression(Value())
    {
      subExpressions := [left, right];
      operators := Some([op]);
    }

    /** `op right` */
    constructor Unary(op: Operator, right: Expr)
      ensures Value() == Representation.Unary(op, right)
      ensures IsSimpleExpression(Value())
    {
      subExpressions := [right];
      operators := Some([op]);
    }

    /** The wrapper of one variable: the operator list is null. */
    constructor OfVariable(v: Variable)
      ensures Value() == Representation.OfVariable(v)
      ensures ConsistsOfAVariable(Value())
    {
      subExpressions := [Var(v)];
      operators := None;
    }

    /** Appends a sub-expression and returns this same object. */
    method AddSubExpression(sub: Expr) returns (self: Expression)
      modifies this
      ensures self == this
      ensures subExpressions == old(subExpressions) + [sub]
      ensures operators == old(operators)
    {
      subExpressions := subExpressions + [sub];
      self := this;
    }

    /**
     * Appends an operator and returns this same object. The operator list
     * of the variable wrapper is null, so the Java code fails there.
     */
    method AddOperator(op: Operator) returns (self: Expression)
      requires operators.Some?
      modifies this
      ensures self == this
      ensures operators == Some(old(operators.value) + [op])
      ensures subExpressions == old(subExpressions)
    {
      operators := Some(operators.value + [op]);
      self := this;
    }
  }

  /**
   * A chain built with the no-argument constructor: `first`, then for each
   * further operand one operator and the operand. This is the value that
   * alternating AddOperator/AddSubExpression calls leave behind.
   */
  function Chain(first: Expr, ops: seq<Operator>, rest: seq<Expr>): (e: Expr)
    requires |ops| == |rest|
    ensures e.Node? && e.ops.Some?
    ensures |e.subs| == |e.ops.value| + 1
    ensures e.subs[0] == first && e.subs[1..] == rest && e.ops.value == ops
  {
    Node([first] + rest, Some(ops))
  }

  /**
   * The five-operand AND chain built by chained calls on a fresh object,
   * as ExpressionTest builds it.
   */
  method BuildFiveAndChain() returns (x: Expression)
    ensures fresh(x)
    ensures var a, b, c, d, e := Var(Variable("A")), Var(Variable("B")),
        Var(Variable("C")), Var(Variable("D")), Var(Variable("E"));
      x.Value() == Chain(a, [AND, AND, AND, AND], [b, c, d, e])
  {
    x := new Expression.Empty();
    var self := x.AddSubExpression(Var(Variable("A")));
    self := self.AddOperator(AND);
    self := self.AddSubExpression(Var(Variable("B")));
    self := self.AddOperator(AND);
    self := self.AddSubExpression(Var(Variable("C")));
    self := self.AddOperator(AND);
    self := self.AddSubExpression(Var(Variable("D")));
    self := self.AddOperator(AND);
    self := self.AddSubExpression(Var(Variable("E")));
    assert x.subExpressions == [Var(Variable("A"))] + [Var(Variable("B")), Var(Variable("C")),
      Var(Variable("D")), Var(Variable("E"))];
    assert x.operators.value == [AND, AND, AND, AND];
  }

  /**
   * The chain `A AND (A OR B) AND (A OR C)` built by chained calls on a
   * fresh object, as ExpressionTest builds it.
   */
  method BuildNestedChain() returns (x: Expression)
    ensures fresh(x)
    ensures var a, b, c := Var(Variable("A")), Var(Variable("B")), Var(Variable("C"));
      x.Value() == Chain(a, [AND, AND], [Representation.Binary(a, OR, b), Representation.Binary(a, OR, c)])
  {
    var a, b, c := Var(Variable("A")), Var(Variable("B")), Var(Variable("C"));
    var aOrB := new Expression.Binary(a, OR, b);
    var aOrC := new Expression.Binary(a, OR, c);
    x := new Expression.Empty();
    var self := x.AddSubExpression(a);
    self := self.AddOperator(AND);
    self := self.AddSubExpression(aOrB.Value());
    self := self.AddOperator(AND);
    self := self.AddSubExpression(aOrC.Value());
    assert x.subExpressions == [a] + [Representation.Binary(a, OR, b), Representation.Binary(a, OR, c)];
    assert x.operators.value == [AND, AND];
  }

  /** A chain with as many operators as gaps between operands is printable. */
  lemma ChainIsPrintable(first: Expr, ops: seq<Operator>, rest: seq<Expr>)
    requires |ops| == |rest|
    requires Printing.Printable(first)
    requires forall i :: 0 <= i < |rest| ==> Printing.Printable(rest[i])
    ensures Printing.Printable(Chain(first, ops, rest))
    ensures !ConsistsOfAVariable(Chain(first, ops, rest))
  {
    var e := Chain(first, ops, rest);
    forall i | 0 <= i < |e.subs|
      ensures Printing.Printable(e.subs[i])
    {
      if i > 0 {
        assert e.subs[i] == rest[i - 1];
      }
    }
  }

  /** The chain of ExpressionTest with five ANDed variables. */
  lemma FiveAndChainExample()
    ensures var a, b, c, d, e := Var(Variable("A")), Var(Variable("B")),
        Var(Variable("C")), Var(Variable("D")), Var(Variable("E"));
      Printing.Show(Chain(a, [AND, AND, AND, AND], [b, c, d, e]))
        == "( A AND B AND C AND D AND E )"
  {
    var a, b, c, d, e := Var(Variable("A")), Var(Variable("B")),
      Var(Variable("C")), Var(Variable("D")), Var(Variable("E"));
    var five := Chain(a, [AND, AND, AND, AND], [b, c, d, e]);
    ChainIsPrintable(a, [AND, AND, AND, AND], [b, c, d, e]);
    assert Printing.ChainPrefix(five, 1) == "( A ";
    assert Printing.ChainPrefix(five, 2) == "( A AND B ";
    assert Printing.ChainPrefix(five, 3) == "( A AND B AND C ";
    assert Printing.ChainPrefix(five, 4) == "( A AND B AND C AND D ";
    assert Printing.ChainPrefix(five, 5) == "( A AND B AND C AND D AND E ";
  }

  /** The chain of ExpressionTest `A AND (A OR B) AND (A OR C)`. */
  lemma NestedChainExample()
    ensures var a, b, c := Var(Variable("A")), Var(Variable("B")), Var(Variable("C"));
      Printing.Show(Chain(a, [AND, AND], [Representation.Binary(a, OR, b), Representation.Binary(a, OR, c)]))
        == "( A AND ( A OR B ) AND ( A OR C ) )"
  {
    var a, b, c := Var(Variable("A")), Var(Variable("B")), Var(Variable("C"));
    var aOrB, aOrC := Representation.Binary(a, OR, b), Representation.Binary(a, OR, c);
    assert Printing.Show(aOrB) == "( A OR B )" by {
      Printing.ShowBinaryExample();
    }
    assert Printing.Show(aOrC) == "( A OR C )" by {
      Printing.ShowBinary(a, OR, c);
    }
    var three := Chain(a, [AND, AND], [aOrB, aOrC]);
    ChainIsPrintable(a, [AND, AND], [aOrB, aOrC]);
    var x0, x1, x2, name := Printing.Show(a), Printing.Show(aOrB), Printing.Show(aOrC), OperatorName(AND);
    assert Printing.Show(three)
      == (("( " + x0 + " ") + (name + " " + x1 + " ")) + (name + " " + x2 + " ") + ")" by {
      assert Printing.ChainPrefix(three, 1) == "( " + x0 + " ";
      assert Printing.ChainPrefix(three, 2) == Printing.ChainPrefix(three, 1) + (name + " " + x1 + " ");
      assert Printing.ChainPrefix(three, 3) == Printing.ChainPrefix(three, 2) + (name + " " + x2 + " ");
    }
    NestedChainText(x0, x1, x2, name);
  }

  lemma NestedChainText(x0: string, x1: string, x2: string, name: string)
    requires x0 == "A" && x1 == "( A OR B )" && x2 == "( A OR C )" && name == "AND"
    ensures (("( " + x0 + " ") + (name + " " + x1 + " ")) + (name + " " + x2 + " ") + ")"
      == "( A AND ( A OR B ) AND ( A OR C ) )"
  {
  }

  /** The five-operand AND chain has exactly its five operands as variables. */
  lemma FiveAndChainVariables()
    ensures var a, b, c, d, e := Var(Variable("A")), Var(Variable("B")),
        Var(Variable("C")), Var(Variable("D")), Var(Variable("E"));
      Variables(Chain(a, [AND, AND, AND, AND], [b, c, d, e]))
        == {Variable("A"), Variable("B"), Variable("C"), Variable("D"), Variable("E")}
  {
    var a, b, c, d, e := Var(Variable("A")), Var(Variable("B")),
      Var(Variable("C")), Var(Variable("D")), Var(Variable("E"));
    var five := Chain(a, [AND, AND, AND, AND], [b, c, d, e]);
    assert VariablesOfFirst(five, 1) == {Variable("A")};
    assert VariablesOfFirst(five, 2) == {Variable("A"), Variable("B")};
    assert VariablesOfFirst(five, 3) == {Variable("A"), Variable("B"), Variable("C")};
    assert VariablesOfFirst(five, 4) == {Variable("A"), Variable("B"), Variable("C"), Variable("D")};
    assert VariablesOfFirst(five, 5)
      == {Variable("A"), Variable("B"), Variable("C"), Variable("D"), Variable("E")};
    assert |five.subs| == 5;
  }
}
