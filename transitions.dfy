/** The choice `_set_issue_status` makes among the workflow transitions Jira
    offers for a new issue: the first one, in the order Jira lists them, whose
    target status has the desired name. */
module Transitions {
  import opened Values

  /** A workflow transition: `transition['id']` and `transition['to']['name']`. */
  datatype Transition = Transition(id: string, to: string)

  /** The first transition of `ts` leading to `desired`, if there is one. */
  function FirstTransitionTo(ts: seq<Transition>, desired: string): (r: Option<Transition>)
    ensures r.None? <==> forall i :: 0 <= i < |ts| ==> ts[i].to != desired
    ensures r.Some? ==> r.value in ts && r.value.to == desired
    ensures r.Some? ==> exists i :: 0 <= i < |ts| && ts[i] == r.value && forall j :: 0 <= j < i ==> ts[j].to != desired
  {
    if ts == [] then None
    else if ts[0].to == desired then Some(ts[0])
    else
      var r := FirstTransitionTo(ts[1..], desired);
      assert forall i :: 1 <= i < |ts| ==> ts[i] == ts[1..][i - 1];
      r
  }

  /** The loop of `_set_issue_status` over the transitions, stopping at the
      first whose target is `desired`. */
  method FindTransition(ts: seq<Transition>, desired: string) returns (target: Option<Transition>)
    ensures target == FirstTransitionTo(ts, desired)
  {
    target := None;
    var i := 0;
    while i < |ts|
      invariant 0 <= i <= |ts|
      invariant target.None?
      invariant FirstTransitionTo(ts, desired) == FirstTransitionTo(ts[i..], desired)
    {
      if ts[i].to == desired {
        target := Some(ts[i]);
        break;
      }
      assert ts[i..][1..] == ts[i + 1..];
      i := i + 1;
    }
  }

  /** `[t['to']['name'] for t in transitions]`: the target names listed in the
      warning when no transition leads to the desired status. */
  function TargetNames(ts: seq<Transition>): (names: seq<string>)
    ensures |names| == |ts|
    ensures forall i :: 0 <= i < |ts| ==> names[i] == ts[i].to
  {
    if ts == [] then [] else [ts[0].to] + TargetNames(ts[1..])
  }

  /** A transition is chosen exactly when the desired status is among the
      listed targets. */
  lemma {:induction false} ChosenIffListed(ts: seq<Transition>, desired: string)
    ensures FirstTransitionTo(ts, desired).Some? <==> desired in TargetNames(ts)
  {
    var names := TargetNames(ts);
    if desired in names {
      var i :| 0 <= i < |names| && names[i] == desired;
      assert ts[i].to == desired;
    }
  }

  /** Appending transitions never changes a choice already made. */
  lemma {:induction false} FirstTransitionStable(ts: seq<Transition>, more: seq<Transition>, desired: string)
    requires FirstTransitionTo(ts, desired).Some?
    ensures FirstTransitionTo(ts + more, desired) == FirstTransitionTo(ts, desired)
  {
    if ts[0].to != desired {
      assert (ts + more)[1..] == ts[1..] + more;
      FirstTransitionStable(ts[1..], more, desired);
    }
  }
}
