/** The addon circuit breaker, with any number of overlapping handler calls. */
module CircuitBreaker {

  datatype Breaker = Breaker(counts: map<string, nat>, disabled: set<string>)

  function Count(b: Breaker, addon: string): nat {
    if addon in b.counts then b.counts[addon] else 0
  }

  function OnSuccess(b: Breaker, addon: string): Breaker {
    b.(counts := b.counts[addon := 0])
  }

  function OnFailure(limit: int, b: Breaker, addon: string): Breaker {
    var count := Count(b, addon) + 1;
    Breaker(b.counts[addon := count], if count >= limit then b.disabled + {addon} else b.disabled)
  }

  class AddonCircuitBreaker {
    const maxConsecutiveFailures: int
    var failureCounts: map<string, nat>
    var disabled: set<string>

    function View(): Breaker
      reads this
    {
      Breaker(failureCounts, disabled)
    }

    constructor (limit: int)
      ensures View() == Breaker(map[], {}) && maxConsecutiveFailures == limit
    {
      maxConsecutiveFailures, failureCounts, disabled := limit, map[], {};
    }

    /** The part of a wrapped handler before the await: may the addon's own handler start? */
    method Admit(addon: string) returns (ok: bool)
      ensures ok <==> addon !in View().disabled
    {
      ok := addon !in disabled;
    }

    method Succeeded(addon: string)
      modifies this
      ensures View() == OnSuccess(old(View()), addon)
    {
      failureCounts := failureCounts[addon := 0];
    }

    method RecordFailure(addon: string) returns (notify: bool)
      modifies this
      ensures View() == OnFailure(maxConsecutiveFailures, old(View()), addon)
      ensures notify <==> Count(View(), addon) >= maxConsecutiveFailures
    {
      var count := (if addon in failureCounts then failureCounts[addon] else 0) + 1;
      failureCounts := failureCounts[addon := count];
      notify := count >= maxConsecutiveFailures;
      if notify {
        disabled := disabled + {addon};
      }
    }

    /**
     * A wrapped call that no other one overlaps; `handlerOk` says whether the addon's handler
     * returns.  A disabled addon answers 503 and its handler is not started; a failing one
     * answers 500, and is disabled by it exactly when this failure reaches the limit.
     */
    method Wrap(addon: string, handlerOk: bool) returns (status: int)
      modifies this
      ensures status == 503 <==> addon in old(View()).disabled
      ensures status == 503 ==> View() == old(View())
      ensures status != 503 ==> (status == 200 <==> handlerOk) && (status == 500 <==> !handlerOk)
      ensures status == 200 ==> View().disabled == old(View()).disabled && Count(View(), addon) == 0
      ensures status == 500 ==> Count(View(), addon) == Count(old(View()), addon) + 1
      ensures status == 500 ==> (addon in View().disabled <==> Count(View(), addon) >= maxConsecutiveFailures)
    {
      var admitted := Admit(addon);
      if !admitted {
        return 503;
      }
      if handlerOk {
        Succeeded(addon);
        return 200;
      }
      var notify := RecordFailure(addon);
      return 500;
    }
  }

  // --------------------------------------------------------------------- runs

  datatype Event = Started(addon: string) | Refused(addon: string) | Completed(addon: string, ok: bool)

  datatype State = State(breaker: Breaker, inFlight: map<nat, string>, log: seq<Event>)

  const INITIAL := State(Breaker(map[], {}), map[], [])

  datatype Action = Request(call: nat, addon: string) | Finish(call: nat, ok: bool)

  predicate Enabled(s: State, a: Action) {
    match a
    case Request(n, _) => n !in s.inFlight
    case Finish(n, _) => n in s.inFlight
  }

  function Next(limit: int, s: State, a: Action): State
    requires Enabled(s, a)
  {
    match a
    case Request(n, addon) =>
      if addon in s.breaker.disabled then s.(log := s.log + [Refused(addon)])
      else s.(inFlight := s.inFlight[n := addon], log := s.log + [Started(addon)])
    case Finish(n, ok) =>
      var addon := s.inFlight[n];
      State(if ok then OnSuccess(s.breaker, addon) else OnFailure(limit, s.breaker, addon),
            s.inFlight - {n}, s.log + [Completed(addon, ok)])
  }

  /** Action `i` leads from state `i` to the next. */
  ghost predicate StepAt(limit: int, run: seq<State>, acts: seq<Action>, i: nat) {
    i < |acts| && i + 1 < |run| && Enabled(run[i], acts[i]) && run[i + 1] == Next(limit, run[i], acts[i])
  }

  ghost predicate IsRun(limit: int, run: seq<State>, acts: seq<Action>) {
    && |run| == |acts| + 1
    && run[0] == INITIAL
    && forall i: nat :: i < |acts| ==> StepAt(limit, run, acts, i)
  }

  /** How many of the addon's latest completions were failures without a success in between. */
  function Trailing(log: seq<Event>, addon: string): nat {
    if log == [] then 0
    else
      var last, init := log[|log| - 1], log[..|log| - 1];
      if last.Completed? && last.addon == addon then (if last.ok then 0 else Trailing(init, addon) + 1)
      else Trailing(init, addon)
  }

  /** Some run of failures of the addon has reached the limit. */
  ghost predicate HasTripped(limit: int, log: seq<Event>, addon: string) {
    exists k :: 0 < k <= |log| && log[k - 1] == Completed(addon, false) && Trailing(log[..k], addon) >= limit
  }

  ghost predicate Inv(limit: int, s: State) {
    && (forall addon :: Count(s.breaker, addon) == Trailing(s.log, addon))
    && (forall addon :: addon in s.breaker.disabled <==> HasTripped(limit, s.log, addon))
  }

  lemma TrippedStays(limit: int, log: seq<Event>, e: Event, addon: string)
    requires HasTripped(limit, log, addon)
    ensures HasTripped(limit, log + [e], addon)
  {
    var k :| 0 < k <= |log| && log[k - 1] == Completed(addon, false) && Trailing(log[..k], addon) >= limit;
    assert (log + [e])[k - 1] == log[k - 1] && (log + [e])[..k] == log[..k];
  }

  lemma TrippedAppend(limit: int, log: seq<Event>, e: Event, addon: string)
    ensures HasTripped(limit, log + [e], addon) <==>
            HasTripped(limit, log, addon) || (e == Completed(addon, false) && Trailing(log + [e], addon) >= limit)
  {
    var log' := log + [e];
    assert log'[..|log'|] == log';
    if HasTripped(limit, log, addon) {
      TrippedStays(limit, log, e, addon);
    }
    if HasTripped(limit, log', addon) {
      var k :| 0 < k <= |log'| && log'[k - 1] == Completed(addon, false) && Trailing(log'[..k], addon) >= limit;
      if k <= |log| {
        assert log'[k - 1] == log[k - 1] && log'[..k] == log[..k];
      }
    }
  }

  lemma TrailingAppend(log: seq<Event>, e: Event, addon: string)
    ensures Trailing(log + [e], addon) ==
            if e.Completed? && e.addon == addon then (if e.ok then 0 else Trailing(log, addon) + 1)
            else Trailing(log, addon)
  {
    assert (log + [e])[..|log|] == log;
  }

  lemma InvStep(limit: int, s: State, a: Action)
    requires Inv(limit, s) && Enabled(s, a)
    ensures Inv(limit, Next(limit, s, a))
  {
    var s' := Next(limit, s, a);
    var e := s'.log[|s.log|];
    assert s'.log == s.log + [e];
    forall addon
      ensures Count(s'.breaker, addon) == Trailing(s'.log, addon)
      ensures addon in s'.breaker.disabled <==> HasTripped(limit, s'.log, addon)
    {
      TrailingAppend(s.log, e, addon);
      TrippedAppend(limit, s.log, e, addon);
    }
  }

  lemma {:induction false} RunInv(limit: int, run: seq<State>, acts: seq<Action>, k: nat)
    requires IsRun(limit, run, acts) && k < |run|
    ensures Inv(limit, run[k]) && |run[k].log| == k
  {
    if k > 0 {
      RunInv(limit, run, acts, k - 1);
      assert StepAt(limit, run, acts, k - 1);
      InvStep(limit, run[k - 1], acts[k - 1]);
    }
  }

  // ------------------------------------------------------------------ results

  /** In completion order, the counter is the length of the trailing run of failures, however calls overlap. */
  lemma CounterIsTrailingRun(limit: int, run: seq<State>, acts: seq<Action>, k: nat, addon: string)
    requires IsRun(limit, run, acts) && k < |run|
    ensures Count(run[k].breaker, addon) == Trailing(run[k].log, addon)
  {
    RunInv(limit, run, acts, k);
  }

  /** An addon is disabled exactly when some run of its failures has reached the limit. */
  lemma DisabledIffTripped(limit: int, run: seq<State>, acts: seq<Action>, k: nat, addon: string)
    requires IsRun(limit, run, acts) && k < |run|
    ensures addon in run[k].breaker.disabled <==> HasTripped(limit, run[k].log, addon)
  {
    RunInv(limit, run, acts, k);
  }

  /** A request starts the handler exactly when its addon is not disabled, and a started call can end either way. */
  lemma RequestStarts(limit: int, run: seq<State>, acts: seq<Action>, k: nat, call: nat, addon: string)
    requires IsRun(limit, run, acts) && k < |acts| && acts[k] == Request(call, addon)
    ensures call !in run[k].inFlight && run[k + 1].breaker == run[k].breaker
    ensures addon in run[k].breaker.disabled ==>
              run[k + 1].inFlight == run[k].inFlight && run[k + 1].log == run[k].log + [Refused(addon)]
    ensures addon !in run[k].breaker.disabled ==>
              && run[k + 1].inFlight == run[k].inFlight[call := addon] && run[k + 1].log == run[k].log + [Started(addon)]
              && Enabled(run[k + 1], Finish(call, true)) && Enabled(run[k + 1], Finish(call, false))
  {
    assert StepAt(limit, run, acts, k);
  }

  /** Once disabled an addon stays disabled, and none of its handlers is started again. */
  lemma {:induction false} DisabledIsForever(limit: int, run: seq<State>, acts: seq<Action>, i: nat, k: nat, addon: string)
    requires IsRun(limit, run, acts) && i <= k < |run| && addon in run[i].breaker.disabled
    ensures addon in run[k].breaker.disabled
    ensures |run[k].log| == k && forall n :: i <= n < k ==> run[k].log[n] != Started(addon)
    decreases k - i
  {
    RunInv(limit, run, acts, k);
    if i < k {
      DisabledIsForever(limit, run, acts, i, k - 1, addon);
      assert StepAt(limit, run, acts, k - 1);
    }
  }
}
