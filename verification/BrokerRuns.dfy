/** Runs of the broker, as the states they pass through. */
module BrokerRuns {
  import opened Broker
  import opened BrokerSafety

  /** What e leads to, if it can happen. */
  ghost function Next(s: State, e: Event): Outcome
  {
    if Enabled(s, e) then Step(s, e) else Crashed
  }

  /** The step from s by e leads to s'. */
  ghost predicate Goes(s: State, e: Event, s': State)
  {
    Next(s, e) == Running(s')
  }

  ghost predicate StepAt(ss: seq<State>, events: seq<Event>, k: nat)
    requires k + 1 < |ss| && k < |events|
  {
    Goes(ss[k], events[k], ss[k + 1])
  }

  /** ss[k] is the state before event k, as far as ss goes. */
  ghost predicate IsTrace(ss: seq<State>, events: seq<Event>)
  {
    0 < |ss| <= |events| + 1
    && forall k: nat {:trigger StepAt(ss, events, k)} :: k + 1 < |ss| ==> StepAt(ss, events, k)
  }

  /** A run of a new broker. */
  ghost predicate IsRun(ss: seq<State>, events: seq<Event>)
  {
    IsTrace(ss, events) && ss[0] == Start(ss[0].depth)
  }

  /** An event that leads on makes a run longer. */
  lemma LongerTrace(ss: seq<State>, events: seq<Event>, s': State)
    requires IsTrace(ss, events) && |ss| <= |events| && Goes(ss[|ss| - 1], events[|ss| - 1], s')
    ensures IsTrace(ss + [s'], events)
  {
    var longer := ss + [s'];
    forall k: nat | k + 1 < |longer| ensures StepAt(longer, events, k) {
      if k + 1 < |ss| { assert StepAt(ss, events, k); }
    }
  }

  lemma {:induction false} InvAt(ss: seq<State>, events: seq<Event>, k: nat)
    requires IsTrace(ss, events) && Inv(ss[0]) && k < |ss|
    ensures Inv(ss[k])
  {
    if k > 0 {
      InvAt(ss, events, k - 1);
      assert StepAt(ss, events, k - 1);
      InvStep(ss[k - 1], events[k - 1]);
    }
  }

  lemma StartOk(depth: nat)
    ensures Inv(Start(depth))
  {
  }
}
