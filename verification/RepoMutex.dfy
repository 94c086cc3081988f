/**
 * `RepoBranchMutex.runExclusive`: a chain of promises per repo.  A call is known
 * by its position in the order of calls.  It waits for `previous`, runs its
 * action and resolves its own `current`; the map keeps, per repo, the promise
 * derived from the last call, which settles when both are resolved.
 */
module RepoMutex {

  datatype Promise = Resolved | Current(call: nat) | Derived(call: nat)

  type Tails = map<string, Promise>

  /** What a new call on `repo` waits for. */
  function Previous(tails: Tails, repo: string): Promise {
    if repo in tails then tails[repo] else Resolved
  }

  /** The `finally` block's cleanup. */
  function Cleanup(tails: Tails, repo: string, n: nat): Tails {
    if repo in tails && tails[repo] == Current(n) then tails - {repo} else tails
  }

  class RepoBranchMutex {
    var tails: Tails
    var entered: nat

    /** Every stored tail is the derived promise of an earlier call. */
    ghost predicate AllDerived()
      reads this
    {
      forall r :: r in tails ==> tails[r].Derived? && tails[r].call < entered
    }

    constructor ()
      ensures tails == map[] && entered == 0 && AllDerived()
    {
      tails, entered := map[], 0;
    }

    /** `runExclusive` up to its await. */
    method Enter(repo: string) returns (previous: Promise, n: nat)
      modifies this
      ensures previous == Previous(old(tails), repo) && n == old(entered)
      ensures tails == old(tails)[repo := Derived(n)] && entered == old(entered) + 1
      ensures old(AllDerived()) ==> AllDerived() && (previous.Resolved? || (previous.Derived? && previous.call < n))
    {
      previous := if repo in tails then tails[repo] else Resolved;
      n := entered;
      entered := entered + 1;
      tails := tails[repo := Derived(n)];
    }

    /** The map's part of the `finally` block; it fires only on a tail that is `current` itself. */
    method Exit(repo: string, n: nat)
      modifies `tails
      ensures tails == Cleanup(old(tails), repo, n)
      ensures old(AllDerived()) ==> tails == old(tails)
    {
      if repo in tails && tails[repo] == Current(n) {
        tails := tails - {repo};
      }
    }
  }

  datatype Phase = Waiting | Running | Done(threw: bool)

  datatype Call = Call(repo: string, previous: Promise)

  /** `phases[n]` belongs to `calls[n]`; `started` lists calls in the order in which their actions began. */
  datatype State = State(calls: seq<Call>, phases: seq<Phase>, tails: Tails, settled: set<Promise>, started: seq<nat>)

  const INITIAL := State([], [], map[], {}, [])

  datatype Action = Enter(repo: string) | Resume(call: nat) | Exit(call: nat, threw: bool) | Settle(call: nat)

  predicate IsSettled(s: State, p: Promise) {
    p.Resolved? || p in s.settled
  }

  predicate Known(s: State, n: nat) {
    n < |s.calls| && n < |s.phases|
  }

  predicate Enabled(s: State, a: Action) {
    match a
    case Enter(_) => true
    case Resume(n) => Known(s, n) && s.phases[n].Waiting? && IsSettled(s, s.calls[n].previous)
    case Exit(n, _) => Known(s, n) && s.phases[n].Running?
    case Settle(n) =>
      Known(s, n) && Derived(n) !in s.settled && IsSettled(s, s.calls[n].previous) && Current(n) in s.settled
  }

  function Next(s: State, a: Action): State
    requires Enabled(s, a)
  {
    match a
    case Enter(repo) =>
      s.(calls := s.calls + [Call(repo, Previous(s.tails, repo))],
         phases := s.phases + [Waiting],
         tails := s.tails[repo := Derived(|s.calls|)])
    case Resume(n) => s.(phases := s.phases[n := Running], started := s.started + [n])
    case Exit(n, threw) =>
      s.(phases := s.phases[n := Done(threw)],
         settled := s.settled + {Current(n)},
         tails := Cleanup(s.tails, s.calls[n].repo, n))
    case Settle(n) => s.(settled := s.settled + {Derived(n)})
  }

  /** Action `i` leads from state `i` to the next. */
  ghost predicate StepAt(run: seq<State>, acts: seq<Action>, i: nat) {
    i < |acts| && i + 1 < |run| && Enabled(run[i], acts[i]) && run[i + 1] == Next(run[i], acts[i])
  }

  ghost predicate IsRun(run: seq<State>, acts: seq<Action>) {
    && |run| == |acts| + 1
    && run[0] == INITIAL
    && forall i: nat :: i < |acts| ==> StepAt(run, acts, i)
  }

  // ---------------------------------------------------------------- invariant

  predicate On(calls: seq<Call>, n: int, repo: string) {
    0 <= n < |calls| && calls[n].repo == repo
  }

  predicate SameRepo(calls: seq<Call>, m: nat, n: nat) {
    m < |calls| && n < |calls| && calls[m].repo == calls[n].repo
  }

  predicate IsDone(phases: seq<Phase>, n: int) {
    0 <= n < |phases| && phases[n].Done?
  }

  /** `p` stands for the last call on `repo` before position `n`, or for none. */
  ghost predicate LastBefore(calls: seq<Call>, repo: string, n: nat, p: Promise) {
    match p
    case Resolved => forall j :: j < n ==> !On(calls, j, repo)
    case Derived(k) => k < n && On(calls, k, repo) && forall j :: k < j < n ==> !On(calls, j, repo)
    case Current(_) => false
  }

  ghost predicate ChainOk(calls: seq<Call>, tails: Tails) {
    && (forall n :: 0 <= n < |calls| ==> LastBefore(calls, calls[n].repo, n, calls[n].previous))
    && (forall repo :: LastBefore(calls, repo, |calls|, Previous(tails, repo)))
  }

  /** All calls on call `n`'s repo before it are over. */
  ghost predicate ClearBefore(calls: seq<Call>, phases: seq<Phase>, n: nat)
    requires n < |calls|
  {
    forall j :: j < n && On(calls, j, calls[n].repo) ==> IsDone(phases, j)
  }

  ghost predicate SettledOk(calls: seq<Call>, phases: seq<Phase>, settled: set<Promise>) {
    && Resolved !in settled
    && (forall n: nat :: Current(n) in settled <==> IsDone(phases, n))
    && (forall n: nat :: Derived(n) in settled ==> n < |calls| && IsDone(phases, n) && ClearBefore(calls, phases, n))
  }

  ghost predicate PhasesOk(calls: seq<Call>, phases: seq<Phase>) {
    && |phases| == |calls|
    && forall n :: 0 <= n < |calls| && !phases[n].Waiting? ==> ClearBefore(calls, phases, n)
  }

  /** The started calls, each once, and in call order on every repo. */
  ghost predicate StartedOk(calls: seq<Call>, phases: seq<Phase>, started: seq<nat>)
    requires |phases| == |calls|
  {
    && (forall n :: n in started <==> 0 <= n < |calls| && !phases[n].Waiting?)
    && (forall i, j :: 0 <= i < j < |started| ==> started[i] != started[j])
    && (forall i, j :: 0 <= i < j < |started| && SameRepo(calls, started[i], started[j]) ==> started[i] < started[j])
  }

  ghost predicate Inv(s: State) {
    && ChainOk(s.calls, s.tails)
    && PhasesOk(s.calls, s.phases)
    && SettledOk(s.calls, s.phases, s.settled)
    && StartedOk(s.calls, s.phases, s.started)
  }

  /** Waiting ends only when every earlier call on the repo is over. */
  lemma PreviousSettled(s: State, n: nat)
    requires Inv(s) && n < |s.calls| && IsSettled(s, s.calls[n].previous)
    ensures ClearBefore(s.calls, s.phases, n)
  {
    assert LastBefore(s.calls, s.calls[n].repo, n, s.calls[n].previous);
    match s.calls[n].previous
    case Derived(k) => assert On(s.calls, k, s.calls[n].repo) && ClearBefore(s.calls, s.phases, k);
    case _ =>
  }

  /** A new call extends the chain of its repo. */
  lemma EnterChain(calls: seq<Call>, tails: Tails, repo: string)
    requires ChainOk(calls, tails)
    ensures ChainOk(calls + [Call(repo, Previous(tails, repo))], tails[repo := Derived(|calls|)])
  {
    var n := |calls|;
    var calls', tails' := calls + [Call(repo, Previous(tails, repo))], tails[repo := Derived(n)];
    assert forall j, r :: j < n ==> (On(calls', j, r) <==> On(calls, j, r));
    forall i | 0 <= i < |calls'|
      ensures LastBefore(calls', calls'[i].repo, i, calls'[i].previous)
    {
      assert LastBefore(calls, repo, n, Previous(tails, repo));
    }
    forall r
      ensures LastBefore(calls', r, n + 1, Previous(tails', r))
    {
      assert LastBefore(calls, r, n, Previous(tails, r));
      assert r != repo ==> Previous(tails', r) == Previous(tails, r) && !On(calls', n, r);
      assert r == repo ==> On(calls', n, r);
    }
  }

  lemma EnterStep(s: State, repo: string)
    requires Inv(s)
    ensures Inv(Next(s, Enter(repo)))
  {
    var n, t := |s.calls|, Next(s, Enter(repo));
    EnterChain(s.calls, s.tails, repo);
    assert forall j, r :: j < n ==> (On(t.calls, j, r) <==> On(s.calls, j, r));
    assert forall j :: IsDone(t.phases, j) <==> IsDone(s.phases, j);
    assert forall k: nat :: k < n && ClearBefore(s.calls, s.phases, k) ==> ClearBefore(t.calls, t.phases, k);
    assert forall j: nat, k: nat :: j < n && k < n ==> (SameRepo(t.calls, j, k) <==> SameRepo(s.calls, j, k));
    assert forall i :: 0 <= i < |s.started| ==> s.started[i] in s.started;
  }

  lemma ResumeStep(s: State, n: nat)
    requires Inv(s) && Enabled(s, Resume(n))
    ensures Inv(Next(s, Resume(n)))
  {
    PreviousSettled(s, n);
    var t := Next(s, Resume(n));
    assert forall j :: IsDone(t.phases, j) <==> IsDone(s.phases, j);
    assert forall k: nat :: k < |s.calls| && ClearBefore(s.calls, s.phases, k) ==> ClearBefore(s.calls, t.phases, k);
    assert !IsDone(s.phases, n) && On(s.calls, n, s.calls[n].repo) && n !in s.started;
    forall i | 0 <= i < |s.started| && SameRepo(s.calls, s.started[i], n)
      ensures s.started[i] < n
    {
      // A later call on this repo cannot have started: this one is not done.
      assert s.started[i] in s.started && ClearBefore(s.calls, s.phases, s.started[i]);
    }
  }

  lemma ExitStep(s: State, n: nat, threw: bool)
    requires Inv(s) && Enabled(s, Exit(n, threw))
    ensures Inv(Next(s, Exit(n, threw))) && Next(s, Exit(n, threw)).tails == s.tails
  {
    var t := Next(s, Exit(n, threw));
    assert LastBefore(s.calls, s.calls[n].repo, |s.calls|, Previous(s.tails, s.calls[n].repo));
    assert forall j :: IsDone(t.phases, j) <==> IsDone(s.phases, j) || j == n;
    assert forall k: nat :: k < |s.calls| && ClearBefore(s.calls, s.phases, k) ==> ClearBefore(s.calls, t.phases, k);
  }

  lemma SettleStep(s: State, n: nat)
    requires Inv(s) && Enabled(s, Settle(n))
    ensures Inv(Next(s, Settle(n)))
  {
    PreviousSettled(s, n);
  }

  lemma InvStep(s: State, a: Action)
    requires Inv(s) && Enabled(s, a)
    ensures Inv(Next(s, a))
  {
    match a
    case Enter(repo) => EnterStep(s, repo);
    case Resume(n) => ResumeStep(s, n);
    case Exit(n, threw) => ExitStep(s, n, threw);
    case Settle(n) => SettleStep(s, n);
  }

  lemma {:induction false} RunInv(run: seq<State>, acts: seq<Action>, k: nat)
    requires IsRun(run, acts) && k < |run|
    ensures Inv(run[k])
  {
    if k > 0 {
      RunInv(run, acts, k - 1);
      assert StepAt(run, acts, k - 1);
      InvStep(run[k - 1], acts[k - 1]);
    }
  }

  // ------------------------------------------------------------------ results

  predicate IsRunning(s: State, n: nat) {
    Known(s, n) && s.phases[n].Running?
  }

  /** At most one action per repo is running, in every reachable state. */
  lemma MutualExclusion(run: seq<State>, acts: seq<Action>, k: nat, m: nat, n: nat)
    requires IsRun(run, acts) && k < |run|
    requires IsRunning(run[k], m) && IsRunning(run[k], n) && run[k].calls[m].repo == run[k].calls[n].repo
    ensures m == n
  {
    RunInv(run, acts, k);
    ExclusiveState(run[k], m, n);
  }

  lemma ExclusiveState(s: State, m: nat, n: nat)
    requires Inv(s) && IsRunning(s, m) && IsRunning(s, n) && s.calls[m].repo == s.calls[n].repo
    ensures m == n
  {
    assert On(s.calls, m, s.calls[n].repo) && On(s.calls, n, s.calls[m].repo);
    assert !IsDone(s.phases, m) && !IsDone(s.phases, n);
    assert ClearBefore(s.calls, s.phases, m) && ClearBefore(s.calls, s.phases, n);
  }

  /** Actions on a repo start in call order, each at most once, and only after all earlier ones are over. */
  lemma StartsInCallOrder(run: seq<State>, acts: seq<Action>, k: nat)
    requires IsRun(run, acts) && k < |run|
    ensures var s := run[k];
            && (forall i, j :: 0 <= i < j < |s.started| ==> s.started[i] != s.started[j])
            && (forall i, j :: 0 <= i < j < |s.started| && SameRepo(s.calls, s.started[i], s.started[j]) ==>
                                 s.started[i] < s.started[j])
    ensures k < |acts| && acts[k].Resume? ==> StepAt(run, acts, k) && ClearBefore(run[k].calls, run[k].phases, acts[k].call)
  {
    RunInv(run, acts, k);
    if k < |acts| && acts[k].Resume? {
      assert StepAt(run, acts, k);
      PreviousSettled(run[k], acts[k].call);
    }
  }

  /** The stored tail is never a `current` promise, so the cleanup never removes an entry. */
  lemma TailIsNeverCurrent(run: seq<State>, acts: seq<Action>, k: nat)
    requires IsRun(run, acts) && k < |run|
    ensures forall repo :: repo in run[k].tails ==> run[k].tails[repo].Derived?
    ensures k < |acts| && acts[k].Exit? ==> run[k + 1].tails == run[k].tails
  {
    RunInv(run, acts, k);
    forall repo | repo in run[k].tails
      ensures run[k].tails[repo].Derived?
    {
      assert LastBefore(run[k].calls, repo, |run[k].calls|, Previous(run[k].tails, repo));
      NoTailIsResolved(run, acts, k, repo);
    }
    if k < |acts| && acts[k].Exit? {
      assert StepAt(run, acts, k);
      ExitStep(run[k], acts[k].call, acts[k].threw);
    }
  }

  lemma {:induction false} NoTailIsResolved(run: seq<State>, acts: seq<Action>, k: nat, repo: string)
    requires IsRun(run, acts) && k < |run| && repo in run[k].tails
    ensures !run[k].tails[repo].Resolved?
  {
    if k > 0 {
      assert StepAt(run, acts, k - 1);
    }
    if k > 0 && repo in run[k - 1].tails {
      NoTailIsResolved(run, acts, k - 1, repo);
    }
  }

  /** The steps that the mutex and its actions take by themselves. */
  predicate IsProgressOn(s: State, a: Action, repo: string) {
    !a.Enter? && Enabled(s, a) && s.calls[a.call].repo == repo
  }

  /** Every promise behind a finished prefix of the chain can settle, one after the other. */
  lemma {:induction false} SettleChain(s: State, n: nat) returns (a: Action)
    requires Inv(s) && n < |s.calls| && IsDone(s.phases, n) && ClearBefore(s.calls, s.phases, n)
    requires Derived(n) !in s.settled
    ensures a.Settle? && IsProgressOn(s, a, s.calls[n].repo)
    decreases n
  {
    assert LastBefore(s.calls, s.calls[n].repo, n, s.calls[n].previous);
    match s.calls[n].previous
    case Resolved => a := Settle(n);
    case Derived(k) =>
      if Derived(k) in s.settled {
        a := Settle(n);
      } else {
        assert On(s.calls, k, s.calls[n].repo);
        a := SettleChain(s, k);
      }
  }

  /**
   * A pending call on a repo never leaves that repo stuck, whatever happens on
   * others and whether earlier actions returned or threw: the action that runs
   * can end, or the next one in line is a promise away from starting.
   */
  lemma {:induction false} RepoNeverStuck(s: State, n: nat) returns (a: Action)
    requires Inv(s) && n < |s.calls| && !IsDone(s.phases, n)
    ensures IsProgressOn(s, a, s.calls[n].repo)
    decreases n
  {
    if j: nat :| j < n && On(s.calls, j, s.calls[n].repo) && !IsDone(s.phases, j) {
      a := RepoNeverStuck(s, j);
    } else if s.phases[n].Running? {
      a := Exit(n, false);
    } else if IsSettled(s, s.calls[n].previous) {
      a := Resume(n);
    } else {
      var k := s.calls[n].previous.call;
      assert LastBefore(s.calls, s.calls[n].repo, n, Derived(k));
      assert On(s.calls, k, s.calls[n].repo);
      a := SettleChain(s, k);
    }
  }

  /** A call takes three steps in all: it starts, it ends, and its derived promise settles. */
  function CallSteps(phases: seq<Phase>, settled: set<Promise>, n: nat): nat
    requires n < |phases|
  {
    match phases[n]
    case Waiting => 3
    case Running => 2
    case Done(_) => if Derived(n) in settled then 0 else 1
  }

  function StepsOf(phases: seq<Phase>, settled: set<Promise>, n: nat): nat
    requires n <= |phases|
  {
    if n == 0 then 0 else StepsOf(phases, settled, n - 1) + CallSteps(phases, settled, n - 1)
  }

  function StepsLeft(s: State): nat {
    StepsOf(s.phases, s.settled, |s.phases|)
  }

  /** If one call has a step less and the others are as before, so has the sum. */
  lemma {:induction false} OneStepLess(p: seq<Phase>, t: set<Promise>, p': seq<Phase>, t': set<Promise>, n: nat, i: nat)
    requires i < |p| == |p'| && n <= |p|
    requires forall j: nat :: j < |p| ==> CallSteps(p, t, j) == CallSteps(p', t', j) + (if j == i then 1 else 0)
    ensures StepsOf(p, t, n) == StepsOf(p', t', n) + (if i < n then 1 else 0)
  {
    if n > 0 {
      OneStepLess(p, t, p', t', n - 1, i);
    }
  }

  lemma StepsShrink(s: State, a: Action)
    requires Inv(s) && Enabled(s, a) && !a.Enter?
    ensures StepsLeft(Next(s, a)) == StepsLeft(s) - 1
  {
    var t := Next(s, a);
    match a
    case Exit(n, _) =>
      assert !IsDone(s.phases, n) && Derived(n) !in s.settled;
      OneStepLess(s.phases, s.settled, t.phases, t.settled, |s.phases|, n);
    case Resume(n) => OneStepLess(s.phases, s.settled, t.phases, t.settled, |s.phases|, n);
    case Settle(n) =>
      assert IsDone(s.phases, n);
      OneStepLess(s.phases, s.settled, t.phases, t.settled, |s.phases|, n);
  }

  /** Between new calls, only boundedly many steps are possible: so all pending calls get through. */
  lemma {:induction false} BoundedProgress(run: seq<State>, acts: seq<Action>, i: nat, k: nat)
    requires IsRun(run, acts) && i <= k < |run|
    requires forall n :: i <= n < k ==> !acts[n].Enter?
    ensures k - i + StepsLeft(run[k]) == StepsLeft(run[i])
    decreases k - i
  {
    if i < k {
      BoundedProgress(run, acts, i, k - 1);
      RunInv(run, acts, k - 1);
      assert StepAt(run, acts, k - 1);
      StepsShrink(run[k - 1], acts[k - 1]);
    }
  }
}
