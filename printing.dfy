/**
 * The printer of class Expression (toString): every node is wrapped in
 * "( ... )", operators are interleaved between the operands, and every
 * printed operand or operator is followed by one space. A Variable prints
 * as its name.
 */
module Printing {
  import opened Wrappers
  import opened Representation

  /**
   * The nodes toString can print without an exception in the Java code: the
   * variable wrapper must hold a variable (otherwise the null operator list
   * is dereferenced), a node with an operator list needs a first
   * sub-expression and an operator before every later one, and so must
   * every node below it. Surplus operators are never printed.
   */
  predicate Printable(e: Expr)
    decreases e
  {
    match e
    case Var(_) => true
    case Node(subs, None) => |subs| == 1 && subs[0].Var?
    case Node(subs, Some(ops)) =>
      && 1 <= |subs|
      && |subs| - 1 <= |ops|
      && forall i :: 0 <= i < |subs| ==> Printable(subs[i])
  }

  /** True when the node takes the unary branch of the printer. */
  predicate PrintsAsUnary(e: Expr)
    requires e.Node?
  {
    e.ops.Some? && |e.subs| == 1 && |e.ops.value| == 1
  }

  /** The text toString produces. */
  function Show(e: Expr): (r: string)
    requires Printable(e)
    decreases e, 1
  {
    match e
    case Var(v) => v.name
    case Node(subs, ops) =>
      if ConsistsOfAVariable(e) then
        "( " + Show(subs[0]) + " " + ")"
      else if PrintsAsUnary(e) then
        "( " + OperatorName(ops.value[0]) + " " + Show(subs[0]) + " " + ")"
      else
        ChainPrefix(e, |subs|) + ")"
  }

  /**
   * What the printer has written for a chain node once it has printed
   * operands 0 .. n-1: "( ", operand 0, a space, and then for each later
   * operand i the operator i-1, a space, operand i, a space.
   */
  function ChainPrefix(e: Expr, n: nat): (r: string)
    requires Printable(e) && e.Node? && e.ops.Some? && 1 <= n <= |e.subs|
    decreases e, 0, n
  {
    if n == 1 then "( " + Show(e.subs[0]) + " "
    else ChainPrefix(e, n - 1) + (OperatorName(e.ops.value[n - 2]) + " " + Show(e.subs[n - 1]) + " ")
  }

  /**
   * toString, as the Java code computes it: appends to a growing string,
   * looping over the operand indices of a chain node.
   */
  method ToString(e: Expr) returns (s: string)
    requires Printable(e)
    ensures s == Show(e)
    decreases e
  {
    match e
    case Var(v) =>
      s := v.name;
    case Node(subs, ops) =>
      s := "( ";
      if ConsistsOfAVariable(e) {
        var t := ToString(subs[0]);
        s := s + t + " ";
      } else if PrintsAsUnary(e) {
        var t := ToString(subs[0]);
        s := s + OperatorName(ops.value[0]) + " " + t + " ";
      } else {
        var t := ToString(subs[0]);
        s := s + t + " ";
        var i := 1;
        while i < |subs|
          invariant 1 <= i <= |subs|
          invariant s == ChainPrefix(e, i)
        {
          t := ToString(subs[i]);
          s := s + (OperatorName(ops.value[i - 1]) + " " + t + " ");
          i := i + 1;
        }
      }
      s := s + ")";
  }

  /** Every expression node prints as "( ... )" with a space before the closing parenthesis. */
  lemma ShowIsDelimited(e: Expr)
    requires Printable(e) && e.Node?
    ensures var r := Show(e); 4 <= |r| && r[..2] == "( " && r[|r| - 2..] == " )"
  {
    if !ConsistsOfAVariable(e) && !PrintsAsUnary(e) {
      ChainPrefixIsDelimited(e, |e.subs|);
    }
  }

  lemma {:induction false} ChainPrefixIsDelimited(e: Expr, n: nat)
    requires Printable(e) && e.Node? && e.ops.Some? && 1 <= n <= |e.subs|
    ensures var r := ChainPrefix(e, n); 3 <= |r| && r[..2] == "( " && r[|r| - 1] == ' '
  {
    if n > 1 {
      ChainPrefixIsDelimited(e, n - 1);
    }
  }

  // ---------------------------------------------------------------------
  // The printed forms of the three constructors
  // ---------------------------------------------------------------------

  /** `left op right` prints as "( left op right )". */
  lemma ShowBinary(left: Expr, op: Operator, right: Expr)
    requires Printable(left) && Printable(right)
    ensures Printable(Binary(left, op, right))
    ensures Show(Binary(left, op, right))
      == "( " + Show(left) + " " + OperatorName(op) + " " + Show(right) + " )"
  {
    var e := Binary(left, op, right);
    var l, name, r := Show(left), OperatorName(op), Show(right);
    assert ChainPrefix(e, 1) == "( " + l + " ";
    assert ChainPrefix(e, 2) == ChainPrefix(e, 1) + (name + " " + r + " ");
    assert Show(e) == ChainPrefix(e, 2) + ")";
    BinaryText(l, name, r);
  }

  /** The pieces the printer appends for a binary node spell "( l name r )". */
  lemma BinaryText(l: string, name: string, r: string)
    ensures ("( " + l + " ") + (name + " " + r + " ") + ")" == "( " + l + " " + name + " " + r + " )"
  {
  }

  /** `op right` prints as "( op right )". */
  lemma ShowUnary(op: Operator, right: Expr)
    requires Printable(right)
    ensures Printable(Unary(op, right))
    ensures Show(Unary(op, right)) == "( " + OperatorName(op) + " " + Show(right) + " )"
  {
  }

  /** The variable wrapper prints as "( name )". */
  lemma ShowOfVariable(v: Variable)
    ensures Printable(OfVariable(v))
    ensures Show(OfVariable(v)) == "( " + v.name + " )"
  {
  }

  // ---------------------------------------------------------------------
  // The printed form of a chain, stated left to right
  // ---------------------------------------------------------------------

  /** The printed forms of a list of sub-expressions. */
  function ShowAll(subs: seq<Expr>): (r: seq<string>)
    requires forall i :: 0 <= i < |subs| ==> Printable(subs[i])
    ensures |r| == |subs|
    ensures forall i :: 0 <= i < |subs| ==> r[i] == Show(subs[i])
  {
    if subs == [] then [] else [Show(subs[0])] + ShowAll(subs[1..])
  }

  /** The operator names of an operator list. */
  function Names(ops: seq<Operator>): (r: seq<string>)
    ensures |r| == |ops|
    ensures forall i :: 0 <= i < |ops| ==> r[i] == OperatorName(ops[i])
  {
    if ops == [] then [] else [OperatorName(ops[0])] + Names(ops[1..])
  }

  /** s0 + " " + op0 + " " + s1 + " " + ... + s(n-1) + " " */
  function Interleave(operands: seq<string>, operators: seq<string>): string
    requires 1 <= |operands| && |operands| - 1 <= |operators|
  {
    if |operands| == 1 then operands[0] + " "
    else operands[0] + " " + operators[0] + " " + Interleave(operands[1..], operators[1..])
  }

  /**
   * Appending one more operator/operand pair at the end of an interleaving
   * is the same as interleaving the extended lists.
   */
  lemma {:induction false} InterleaveSnoc(operands: seq<string>, operators: seq<string>, k: nat)
    requires 1 <= k < |operands| && |operands| - 1 <= |operators|
    ensures Interleave(operands[..k + 1], operators[..k])
      == Interleave(operands[..k], operators[..k - 1]) + (operators[k - 1] + " " + operands[k] + " ")
  {
    if k > 1 {
      InterleaveSnoc(operands[1..], operators[1..], k - 1);
      assert operands[..k + 1][1..] == operands[1..][..k];
      assert operators[..k][1..] == operators[1..][..k - 1];
      assert operands[..k][1..] == operands[1..][..k - 1];
      assert operators[..k - 1][1..] == operators[1..][..k - 2];
    } else {
      assert operands[..2][1..] == [operands[1]];
    }
  }

  lemma {:induction false} ChainPrefixIsInterleave(e: Expr, n: nat)
    requires Printable(e) && e.Node? && e.ops.Some? && 1 <= n <= |e.subs|
    ensures ChainPrefix(e, n)
      == "( " + Interleave(ShowAll(e.subs)[..n], Names(e.ops.value)[..n - 1])
    decreases n
  {
    var strs, names := ShowAll(e.subs), Names(e.ops.value);
    if n == 1 {
      assert strs[..1] == [Show(e.subs[0])];
    } else {
      ChainPrefixIsInterleave(e, n - 1);
      InterleaveSnoc(strs, names, n - 1);
      ChainPrefixStep(e, n, strs, names);
      PrependOpening(Interleave(strs[..n - 1], names[..n - 2]), names[n - 2] + " " + strs[n - 1] + " ");
    }
  }

  /** One more loop iteration appends the next operator name and printed operand. */
  lemma ChainPrefixStep(e: Expr, n: nat, strs: seq<string>, names: seq<string>)
    requires Printable(e) && e.Node? && e.ops.Some? && 2 <= n <= |e.subs|
    requires strs == ShowAll(e.subs) && names == Names(e.ops.value)
    ensures ChainPrefix(e, n) == ChainPrefix(e, n - 1) + (names[n - 2] + " " + strs[n - 1] + " ")
  {
  }

  lemma PrependOpening(previous: string, pair: string)
    ensures ("( " + previous) + pair == "( " + (previous + pair)
  {
  }

  /**
   * A node that is neither the variable wrapper nor unary prints as
   * "( " + s0 + " " + op0 + " " + s1 + " " + ... + s(n-1) + " " + ")",
   * with one operator between each pair of neighbouring operands.
   */
  lemma ShowChain(e: Expr)
    requires Printable(e) && e.Node? && e.ops.Some? && !PrintsAsUnary(e)
    ensures Show(e)
      == "( " + Interleave(ShowAll(e.subs), Names(e.ops.value)[..|e.subs| - 1]) + ")"
  {
    var n := |e.subs|;
    assert Show(e) == ChainPrefix(e, n) + ")" by {
      assert !ConsistsOfAVariable(e);
    }
    assert ChainPrefix(e, n) == "( " + Interleave(ShowAll(e.subs), Names(e.ops.value)[..n - 1]) by {
      ChainPrefixIsInterleave(e, n);
      assert ShowAll(e.subs)[..n] == ShowAll(e.subs);
    }
  }

  // ---------------------------------------------------------------------
  // The printed strings ExpressionTest expects
  // ---------------------------------------------------------------------

  /** `A OR B` prints as "( A OR B )". */
  lemma ShowBinaryExample()
    ensures Show(Binary(Var(Variable("A")), OR, Var(Variable("B")))) == "( A OR B )"
  {
    ShowBinary(Var(Variable("A")), OR, Var(Variable("B")));
  }

  /** `NOT (A OR B)` prints as "( NOT ( A OR B ) )". */
  lemma ShowUnaryExample()
    ensures var aOrB := Binary(Var(Variable("A")), OR, Var(Variable("B")));
      Show(Unary(NOT, aOrB)) == "( NOT ( A OR B ) )"
  {
    var aOrB := Binary(Var(Variable("A")), OR, Var(Variable("B")));
    ShowBinaryExample();
    ShowUnary(NOT, aOrB);
  }

  /** `(A OR B) IMPLIES (A AND B)` prints as "( ( A OR B ) IMPLIES ( A AND B ) )". */
  lemma ShowNestedExample()
    ensures var a, b := Var(Variable("A")), Var(Variable("B"));
      Show(Binary(Binary(a, OR, b), IMPLIES, Binary(a, AND, b)))
        == "( ( A OR B ) IMPLIES ( A AND B ) )"
  {
    var a, b := Var(Variable("A")), Var(Variable("B"));
    var aOrB, aAndB := Binary(a, OR, b), Binary(a, AND, b);
    assert Show(aOrB) == "( A OR B )" by {
      ShowBinaryExample();
    }
    assert Show(aAndB) == "( A AND B )" by {
      ShowBinary(a, AND, b);
    }
    assert Show(Binary(aOrB, IMPLIES, aAndB))
      == "( " + Show(aOrB) + " " + "IMPLIES" + " " + Show(aAndB) + " )" by {
      ShowBinary(aOrB, IMPLIES, aAndB);
    }
    NestedText(Show(aOrB), Show(aAndB));
  }

  lemma NestedText(left: string, right: string)
    requires left == "( A OR B )" && right == "( A AND B )"
    ensures "( " + left + " " + "IMPLIES" + " " + right + " )" == "( ( A OR B ) IMPLIES ( A AND B ) )"
  {
  }
}
