/**
 * Class Values of logiceval: the container that collects the truth-table
 * results. It has a fixed capacity; a value offered while the container is
 * full is dropped without an error.
 */
module Evaluation {

  /** The largest Java int. */
  const MaxInt: int := 0x7fff_ffff

  class Values {
    var values: seq<bool>
    const capacity: int
    var size: int

    /** The size counter tracks the list, and the list never exceeds the capacity. */
    ghost predicate Valid()
      reads this
    {
      size == |values| && 0 <= size <= capacity
    }

    /**
     * An empty container with the given capacity. The Java code allocates its
     * list with that initial capacity, which fails for a negative one.
     */
    constructor (capacity: int)
      requires 0 <= capacity <= MaxInt
      ensures Valid()
      ensures this.capacity == capacity && values == [] && size == 0
    {
      this.capacity := capacity;
      values := [];
      size := 0;
    }

    /** Appends `value` while there is room; once full it changes nothing. */
    method Add(value: bool)
      requires Valid()
      modifies this
      ensures Valid()
      ensures values == Admit(old(values), capacity, value)
      ensures old(size) < capacity ==> values == old(values) + [value] && size == old(size) + 1
      ensures old(size) >= capacity ==> values == old(values) && size == old(size)
    {
      if size < capacity {
        values := values + [value];
        size := size + 1;
      }
    }

    /** The collected values, in the order they were accepted. */
    method GetValues() returns (r: seq<bool>)
      requires Valid()
      ensures r == values
      ensures |r| <= capacity
    {
      r := values;
    }
  }

  /** The list after one add: appended while below capacity, else unchanged. */
  function Admit(values: seq<bool>, capacity: int, value: bool): seq<bool>
  {
    if |values| < capacity then values + [value] else values
  }

  /** The list after adding each of `offered` in turn. */
  function AdmitAll(values: seq<bool>, capacity: int, offered: seq<bool>): seq<bool>
    decreases |offered|
  {
    if offered == [] then values
    else AdmitAll(Admit(values, capacity, offered[0]), capacity, offered[1..])
  }

  function Min(a: int, b: int): int {
    if a <= b then a else b
  }

  /** An add never alters what is stored and never goes past the capacity. */
  lemma {:induction false} AdmitKeepsStored(values: seq<bool>, capacity: int, value: bool)
    requires |values| <= capacity
    ensures var r := Admit(values, capacity, value);
      |values| <= |r| <= capacity && r[..|values|] == values
  {
    var r := Admit(values, capacity, value);
    assert r[..|values|] == values;
  }

  /**
   * Starting within capacity, a run of adds keeps the stored values and
   * then the offered ones, cut off at the capacity.
   */
  lemma {:induction false} AdmitAllIsTruncation(values: seq<bool>, capacity: int, offered: seq<bool>)
    requires |values| <= capacity
    ensures AdmitAll(values, capacity, offered)
      == (values + offered)[..Min(capacity, |values| + |offered|)]
    decreases |offered|
  {
    if offered == [] {
      assert (values + offered)[..|values|] == values;
    } else {
      var next := Admit(values, capacity, offered[0]);
      AdmitAllIsTruncation(next, capacity, offered[1..]);
      if |values| < capacity {
        assert next + offered[1..] == values + offered;
      } else {
        assert (values + offered)[..capacity] == values;
        assert (next + offered[1..])[..capacity] == values;
      }
    }
  }

  /**
   * A fresh container fed a sequence of values holds exactly the first
   * `capacity` of them, in order; none is dropped when they fit.
   */
  lemma FreshContainerKeepsPrefix(capacity: int, offered: seq<bool>)
    requires 0 <= capacity
    ensures AdmitAll([], capacity, offered) == offered[..Min(capacity, |offered|)]
    ensures |offered| <= capacity ==> AdmitAll([], capacity, offered) == offered
  {
    AdmitAllIsTruncation([], capacity, offered);
    assert [] + offered == offered;
  }

}
