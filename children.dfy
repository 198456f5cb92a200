/**
 * The children of a timeline container and the selection of its step
 * children (the `Timeline.Item` elements). Non-step children are dropped and
 * take no position among the steps.
 */
module Children {

  /** A child declaration: a step carrying its props, or any other node. */
  datatype Child<P> = Step(props: P) | Other

  /** The props of the step children, in declared order. */
  function Steps<P(==)>(children: seq<Child<P>>): (r: seq<P>)
    ensures |r| <= |children|
    ensures forall p :: p in r ==> Step(p) in children
  {
    if children == [] then []
    else if children[0].Step? then [children[0].props] + Steps(children[1..])
    else Steps(children[1..])
  }

  /** The position among the steps of the child at index `j`: how many step children precede it. */
  function Position<P(==)>(children: seq<Child<P>>, j: nat): (p: nat)
    requires j <= |children|
    ensures p <= j
    ensures p <= |Steps(children)|
  {
    assert children == children[..j] + children[j..];
    StepsAppend(children[..j], children[j..]);
    |Steps(children[..j])|
  }

  /** Selecting steps distributes over concatenation of child lists. */
  lemma {:induction false} StepsAppend<P>(a: seq<Child<P>>, b: seq<Child<P>>)
    ensures Steps(a + b) == Steps(a) + Steps(b)
  {
    if a == [] {
      assert a + b == b;
    } else {
      assert (a + b)[0] == a[0];
      assert (a + b)[1..] == a[1..] + b;
      StepsAppend(a[1..], b);
    }
  }

  /** Stepping past the first child adds one position exactly when that child is a step. */
  lemma PositionShift<P>(children: seq<Child<P>>, j: nat)
    requires 0 < |children| && j < |children|
    ensures Position(children, j + 1) == Position(children[1..], j) + (if children[0].Step? then 1 else 0)
  {
    var prefix := children[..j + 1];
    assert prefix[0] == children[0];
    assert prefix[1..] == children[1..][..j];
  }

  /**
   * The step child at index `j` is the entry at its position: entries are
   * the step children, each at the number of step children before it.
   */
  lemma StepAt<P>(children: seq<Child<P>>, j: nat)
    requires j < |children| && children[j].Step?
    ensures Position(children, j) < |Steps(children)|
    ensures Steps(children)[Position(children, j)] == children[j].props
  {
    var rest := [children[j]] + children[j + 1..];
    assert children == children[..j] + rest;
    StepsAppend(children[..j], rest);
    assert rest[0] == children[j] && rest[1..] == children[j + 1..];
  }

  /** Every step child, at its position. */
  lemma StepsAtPositions<P>(children: seq<Child<P>>)
    ensures forall j :: 0 <= j < |children| && children[j].Step? ==>
              Position(children, j) < |Steps(children)| && Steps(children)[Position(children, j)] == children[j].props
  {
    forall j | 0 <= j < |children| && children[j].Step?
      ensures Position(children, j) < |Steps(children)| && Steps(children)[Position(children, j)] == children[j].props
    {
      StepAt(children, j);
    }
  }

  /** Declared order is kept: a step child declared earlier gets a smaller position. */
  lemma PositionsIncrease<P>(children: seq<Child<P>>, i: nat, j: nat)
    requires i < j <= |children| && children[i].Step?
    ensures Position(children, i) < Position(children, j)
  {
    var between := children[i..j];
    assert children[..j] == children[..i] + between;
    StepsAppend(children[..i], between);
    assert between[0] == children[i];
  }

  /** Every entry comes from a step child whose position is the entry's index. */
  lemma {:induction false} EntryHasChild<P>(children: seq<Child<P>>, k: nat)
    requires k < |Steps(children)|
    ensures exists j :: 0 <= j < |children| && children[j].Step? && Position(children, j) == k
                        && children[j].props == Steps(children)[k]
  {
    var rest := children[1..];
    if children[0].Step? && k == 0 {
      assert Position(children, 0) == 0;
      StepAt(children, 0);
    } else {
      var k' := if children[0].Step? then k - 1 else k;
      assert k' < |Steps(rest)|;
      EntryHasChild(rest, k');
      var j' :| 0 <= j' < |rest| && rest[j'].Step? && Position(rest, j') == k';
      PositionShift(children, j');
      assert children[j' + 1] == rest[j'];
      assert Position(children, j' + 1) == k;
      StepAt(children, j' + 1);
    }
  }
}
