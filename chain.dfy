/**
 * Configurator chains: both the store and the actor state are built by
 * running a list of configurators in order and stopping at the first one
 * that returns an error.
 */
module Chain {
  import opened Errors

  /**
   * The index of the first configurator whose outcome is an error, or the
   * length of the list when none fails: the configurators that run are
   * exactly those at indices up to and including this one.
   */
  function FirstFailure(outcomes: seq<Option<Error>>): (k: nat)
    ensures k <= |outcomes|
    ensures k < |outcomes| ==> outcomes[k].Some?
    ensures forall j :: 0 <= j < k ==> outcomes[j].None?
  {
    if outcomes == [] then 0
    else if outcomes[0].Some? then 0
    else 1 + FirstFailure(outcomes[1..])
  }

  /** The first failure is the position the stated properties single out. */
  lemma {:induction false} FirstFailureIs(outcomes: seq<Option<Error>>, k: nat)
    requires k <= |outcomes|
    requires k < |outcomes| ==> outcomes[k].Some?
    requires forall j :: 0 <= j < k ==> outcomes[j].None?
    ensures FirstFailure(outcomes) == k
    decreases k
  {
    if k > 0 {
      FirstFailureIs(outcomes[1..], k - 1);
    }
  }

  /** The error a whole chain reports: that of its first failing configurator. */
  function ChainError(outcomes: seq<Option<Error>>): (e: Option<Error>)
    ensures e.None? <==> forall j :: 0 <= j < |outcomes| ==> outcomes[j].None?
  {
    var k := FirstFailure(outcomes);
    if k < |outcomes| then outcomes[k] else None
  }
}
