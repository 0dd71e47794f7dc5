// The deviation measured at one corner (getDesviation). The shared Z-min
// endstop is modelled by what it reports at that corner: `polls[j]` is true
// when the endstop is triggered after `j` jogs of 0.1 mm. The firmware reads
// the endstop twice before its first jog: once to choose the branch and once
// for the loop's first test. The model gives both reads the one level
// `polls[0]`, assuming the endstop does not change while nothing moves.

module Endstop {

  /** The endstop changes state within the jogs that `polls` covers. The
      firmware polls without a bound, so this is what makes the probe end. */
  predicate Settles(polls: seq<bool>) {
    exists k :: 0 < k < |polls| && polls[k] != polls[0]
  }

  /** The readings of one probe that ends: every probe the model runs has
      this type. */
  type Polls = polls: seq<bool> | Settles(polls) witness TriggersAtOnce()

  /** A probe whose endstop triggers after the first jog. */
  function TriggersAtOnce(): (polls: seq<bool>)
    ensures Settles(polls) && Deviation(polls) == 1
  {
    assert [false, true][1] != [false, true][0];
    [false, true]
  }

  /** The number of jogs after which the endstop first reports a state other
      than the one it started in. */
  function FirstChange(polls: seq<bool>): (k: nat)
    requires Settles(polls)
    ensures 0 < k < |polls| && polls[k] != polls[0]
    ensures forall j :: 0 <= j < k ==> polls[j] == polls[0]
  {
    FirstChangeFrom(polls, 1)
  }

  function FirstChangeFrom(polls: seq<bool>, from: nat): (k: nat)
    requires 0 < from
    requires forall j :: 0 <= j < from && j < |polls| ==> polls[j] == polls[0]
    requires exists k :: from <= k < |polls| && polls[k] != polls[0]
    ensures from <= k < |polls| && polls[k] != polls[0]
    ensures forall j :: 0 <= j < k ==> polls[j] == polls[0]
    decreases |polls| - from
  {
    if polls[from] != polls[0] then from else FirstChangeFrom(polls, from + 1)
  }

  /** The value getDesviation returns: when the endstop starts triggered it
      counts -1 per jog until it releases and then adds 1 back for the jog
      that went past the trigger point; otherwise it counts +1 per jog until
      the endstop triggers. A triggered start gives a result <= 0, an
      untriggered start a result >= 1. */
  function Deviation(polls: seq<bool>): (d: int)
    requires Settles(polls)
    ensures polls[0] ==> d <= 0
    ensures !polls[0] ==> d >= 1
  {
    if polls[0] then 1 - FirstChange(polls) else FirstChange(polls)
  }

  /** The deviation is fixed by the jog at which the endstop first changes
      state: 1 - k when it started triggered, k when it did not. */
  lemma DeviationCountsJogs(polls: seq<bool>, k: nat)
    requires 0 < k < |polls| && polls[k] != polls[0]
    requires forall j :: 0 <= j < k ==> polls[j] == polls[0]
    ensures Settles(polls)
    ensures Deviation(polls) == if polls[0] then 1 - k else k
  {
    assert Settles(polls);
    var f := FirstChange(polls);
    assert polls[f] != polls[0] && polls[k] != polls[0];
  }

  /** Starting triggered and releasing after three jogs gives -2. */
  lemma ReleasedAfterThreeJogs()
    ensures Settles([true, true, true, false])
    ensures Deviation([true, true, true, false]) == -2
  {
    DeviationCountsJogs([true, true, true, false], 3);
  }

  /** Starting untriggered and triggering after two jogs gives 2. */
  lemma TriggeredAfterTwoJogs()
    ensures Settles([false, false, true])
    ensures Deviation([false, false, true]) == 2
  {
    DeviationCountsJogs([false, false, true], 2);
  }
}
