/**
 * `BranchService.create`, `checkout` and `delete` and `MergeService.merge` on
 * top of the shared mutex.  Each Dolt command is one step, it may fail without
 * effect, and calls interleave at every command unless the mutex prevents it.
 */
module BranchServices {
  import opened Common
  import M = RepoMutex

  /** A Dolt repository as these services see it; `merging` says that a merge with conflicts is pending. */
  datatype Dolt = Dolt(branches: set<string>, current: string, merging: bool)

  const MAIN := "main"

  datatype Op =
    | Create(name: string)
    | Checkout(name: string)
    | Delete(name: string)
    | Merge(source: string, target: Option<string>)

  datatype Result =
    | Created(current: string, name: string)
    | CheckedOut(current: string)
    | Deleted
    | UpToDate(target: string)
    | Merged(target: string)
    | ConflictIn(target: string)
    | Threw

  /** The next command of an action; `target` is the branch that the merge means to change. */
  datatype Pc =
    | Queued
    | CreateRun
    | CreateRead
    | CheckoutRun
    | DeleteRead
    | DeleteRun
    | MergeReadTarget
    | MergeReadCurrent(target: string)
    | MergeCheckout(target: string)
    | MergeReadAgain(target: string)
    | MergeRun(target: string)
    | MergeHash(target: string)
    | MergeConflicts(target: string)
    | MergeAbort(target: string)
    | Finished(result: Result)

  /**
   * `mergedInto` is the branch that was checked out when `dolt merge` ran, and `exit` how
   * that merge ended.
   */
  datatype Act = Act(op: Op, pc: Pc, mergedInto: Option<string>, exit: Option<MergeExit>)

  /** A `dolt branch -d` command: the branch, and the one checked out at that moment. */
  datatype Deletion = Deletion(name: string, current: string)

  datatype State = State(mutex: M.State, acts: seq<Act>, repos: map<string, Dolt>, deletions: seq<Deletion>)

  datatype MergeExit = Clean | AlreadyUpToDate | Conflict | Broken

  datatype Action =
    | Call(repo: string, op: Op)
    | Start(call: nat)
    | Command(call: nat, ok: bool, exit: MergeExit)
    | End(call: nat)
    | Settle(call: nat)

  predicate RepoOk(d: Dolt) {
    MAIN in d.branches && d.current in d.branches
  }

  ghost predicate Init(s: State) {
    && s.mutex == M.INITIAL && s.acts == [] && s.deletions == []
    && forall r :: r in s.repos ==> RepoOk(s.repos[r]) && !s.repos[r].merging
  }

  function FirstCommand(op: Op): Pc {
    match op
    case Create(_) => CreateRun
    case Checkout(_) => CheckoutRun
    case Delete(_) => DeleteRead
    case Merge(_, target) =>
      // An empty target name counts as none.
      if target.Some? && target.value != "" then MergeReadCurrent(target.value) else MergeReadTarget
  }

  /**
   * Dolt's own refusals: an existing branch is not created, a missing one neither checked
   * out nor deleted, and a merge does not go through while another one is pending.
   */
  predicate CanSucceed(d: Dolt, a: Act, exit: MergeExit) {
    match a.pc
    case CreateRun => a.op.Create? && a.op.name !in d.branches
    case CheckoutRun => a.op.Checkout? && a.op.name in d.branches
    case DeleteRun => a.op.Delete? && a.op.name in d.branches
    case MergeCheckout(target) => target in d.branches
    case MergeRun(_) => d.merging ==> exit.Conflict? || exit.Broken?
    case _ => true
  }

  /** What a successful command does to the repository. */
  function Effect(d: Dolt, a: Act, exit: MergeExit): Dolt
    requires CanSucceed(d, a, exit)
  {
    match a.pc
    case CreateRun => d.(branches := d.branches + {a.op.name})
    case CheckoutRun => d.(current := a.op.name)
    case DeleteRun => d.(branches := d.branches - {a.op.name})
    case MergeCheckout(target) => d.(current := target)
    case MergeRun(_) => d.(merging := d.merging || exit.Conflict?)
    case MergeAbort(_) => d.(merging := false)
    case _ => d
  }

  function AfterMerge(target: string, exit: MergeExit): Pc {
    match exit
    case Clean => MergeHash(target)
    case AlreadyUpToDate => Finished(UpToDate(target))
    case Conflict => MergeConflicts(target)
    case Broken => Finished(Threw)
  }

  /** Where a successful command leads, given the repository it ran on. */
  function Advance(d: Dolt, a: Act, exit: MergeExit): Pc
    requires CanSucceed(d, a, exit)
  {
    match a.pc
    case CreateRun => CreateRead
    case CreateRead => Finished(if a.op.Create? then Created(d.current, a.op.name) else Threw)
    case CheckoutRun => Finished(CheckedOut(a.op.name))
    case DeleteRead =>
      if a.op.Delete? && (d.current == a.op.name || a.op.name == MAIN) then Finished(Threw) else DeleteRun
    case DeleteRun => Finished(Deleted)
    case MergeReadTarget => MergeReadAgain(d.current)
    case MergeReadCurrent(target) => if d.current != target then MergeCheckout(target) else MergeReadAgain(target)
    case MergeCheckout(target) => MergeReadAgain(target)
    case MergeReadAgain(target) => MergeRun(target)
    case MergeRun(target) => AfterMerge(target, exit)
    case MergeHash(target) => Finished(Merged(target))
    case MergeConflicts(target) => MergeAbort(target)
    case MergeAbort(target) => Finished(ConflictIn(target))
    case _ => a.pc
  }

  /** The acting call's new record and repository. */
  function Perform(d: Dolt, a: Act, ok: bool, exit: MergeExit): (Dolt, Act) {
    if !ok || !CanSucceed(d, a, exit) then (d, a.(pc := Finished(Threw)))
    else (Effect(d, a, exit),
          a.(pc := Advance(d, a, exit),
             mergedInto := if a.pc.MergeRun? then Some(d.current) else a.mergedInto,
             exit := if a.pc.MergeRun? then Some(exit) else a.exit))
  }

  /** Results that reach the caller as an exception. */
  predicate Throws(r: Result) {
    r.Threw? || r.ConflictIn?
  }

  predicate Running(s: State, n: nat) {
    M.IsRunning(s.mutex, n) && n < |s.acts|
  }

  predicate Enabled(s: State, a: Action) {
    match a
    case Call(repo, _) => repo in s.repos
    case Start(n) => M.Enabled(s.mutex, M.Resume(n)) && n < |s.acts| && s.mutex.calls[n].repo in s.repos
    case Command(n, _, _) => Running(s, n) && !s.acts[n].pc.Finished? && s.mutex.calls[n].repo in s.repos
    case End(n) => Running(s, n) && s.acts[n].pc.Finished?
    case Settle(n) => M.Enabled(s.mutex, M.Settle(n))
  }

  function Next(s: State, a: Action): State
    requires Enabled(s, a)
  {
    match a
    case Call(repo, op) => s.(mutex := M.Next(s.mutex, M.Enter(repo)), acts := s.acts + [Act(op, Queued, None, None)])
    case Start(n) =>
      s.(mutex := M.Next(s.mutex, M.Resume(n)), acts := s.acts[n := s.acts[n].(pc := FirstCommand(s.acts[n].op))])
    case Command(n, ok, exit) =>
      var repo, act := s.mutex.calls[n].repo, s.acts[n];
      var d := s.repos[repo];
      var (d', act') := Perform(d, act, ok, exit);
      s.(acts := s.acts[n := act'], repos := s.repos[repo := d'],
         deletions := if act.pc.DeleteRun? && act.op.Delete? then s.deletions + [Deletion(act.op.name, d.current)]
                      else s.deletions)
    case End(n) => s.(mutex := M.Next(s.mutex, M.Exit(n, Throws(s.acts[n].pc.result))))
    case Settle(n) => s.(mutex := M.Next(s.mutex, M.Settle(n)))
  }

  /** Action `i` leads from state `i` to the next. */
  ghost predicate StepAt(run: seq<State>, acts: seq<Action>, i: nat) {
    i < |acts| && i + 1 < |run| && Enabled(run[i], acts[i]) && run[i + 1] == Next(run[i], acts[i])
  }

  ghost predicate IsRun(run: seq<State>, acts: seq<Action>) {
    && |run| == |acts| + 1
    && Init(run[0])
    && forall i: nat :: i < |acts| ==> StepAt(run, acts, i)
  }

  // ---------------------------------------------------------------- invariant

  /** The branch that a merge means to change, while it runs and in its outcome. */
  function TargetOf(pc: Pc): Option<string> {
    match pc
    case MergeReadCurrent(target) => Some(target)
    case MergeCheckout(target) => Some(target)
    case MergeReadAgain(target) => Some(target)
    case MergeRun(target) => Some(target)
    case MergeHash(target) => Some(target)
    case MergeConflicts(target) => Some(target)
    case MergeAbort(target) => Some(target)
    case Finished(UpToDate(target)) => Some(target)
    case Finished(Merged(target)) => Some(target)
    case Finished(ConflictIn(target)) => Some(target)
    case _ => None
  }

  /** A target is the one that the caller named, if it named one. */
  predicate TargetFits(op: Op, target: string) {
    op.Merge? && (op.target.Some? && op.target.value != "" ==> target == op.target.value)
  }

  /** The command belongs to the action that was asked for. */
  predicate PcFits(a: Act) {
    match a.pc
    case MergeReadTarget => a.op.Merge? && (a.op.target.Some? ==> a.op.target.value == "")
    case CreateRun => a.op.Create?
    case CreateRead => a.op.Create?
    case CheckoutRun => a.op.Checkout?
    case DeleteRead => a.op.Delete?
    case DeleteRun => a.op.Delete?
    case Finished(Created(_, name)) => a.op == Create(name)
    case Finished(CheckedOut(name)) => a.op == Checkout(name)
    case Finished(Deleted) => a.op.Delete?
    case _ => TargetOf(a.pc).Some? ==> TargetFits(a.op, TargetOf(a.pc).value)
  }

  /** What an action has established about its repository and still relies on. */
  predicate Relies(d: Dolt, a: Act)
    requires PcFits(a)
  {
    match a.pc
    case CreateRead => a.op.name in d.branches
    case MergeCheckout(target) => d.current != target
    case DeleteRun => d.current != a.op.name && a.op.name != MAIN
    case Finished(Created(current, name)) => name in d.branches && current == d.current
    case Finished(CheckedOut(name)) => d.current == name
    case Finished(Deleted) => a.op.name !in d.branches
    case MergeReadAgain(target) => d.current == target
    case MergeRun(target) => d.current == target
    case _ => true
  }

  /** A merge outcome names the branch that the merge command ran on, and follows how that command ended. */
  predicate Truthful(a: Act) {
    match a.pc
    case MergeReadTarget => a.exit.None?
    case MergeReadCurrent(_) => a.exit.None?
    case MergeCheckout(_) => a.exit.None?
    case MergeReadAgain(_) => a.exit.None?
    case MergeRun(_) => a.exit.None?
    case MergeHash(target) => a.mergedInto == Some(target) && a.exit == Some(Clean)
    case MergeConflicts(target) => a.mergedInto == Some(target) && a.exit == Some(Conflict)
    case MergeAbort(target) => a.mergedInto == Some(target) && a.exit == Some(Conflict)
    case Finished(UpToDate(target)) => a.mergedInto == Some(target) && a.exit == Some(AlreadyUpToDate)
    case Finished(Merged(target)) => a.mergedInto == Some(target) && a.exit == Some(Clean)
    case Finished(ConflictIn(target)) => a.mergedInto == Some(target) && a.exit == Some(Conflict)
    case _ => true
  }

  predicate ActOk(s: State, n: nat)
    requires n < |s.acts| == |s.mutex.calls| == |s.mutex.phases|
  {
    && PcFits(s.acts[n])
    && (s.mutex.phases[n].Waiting? <==> s.acts[n].pc.Queued?)
    && (s.mutex.phases[n].Waiting? ==> s.acts[n].exit.None?)
    && Truthful(s.acts[n])
    && s.mutex.calls[n].repo in s.repos
    && (s.mutex.phases[n].Running? ==> Relies(s.repos[s.mutex.calls[n].repo], s.acts[n]))
  }

  ghost predicate Inv(s: State) {
    && M.Inv(s.mutex)
    && |s.acts| == |s.mutex.calls|
    && (forall n: nat :: n < |s.acts| ==> ActOk(s, n))
    && (forall r :: r in s.repos ==> RepoOk(s.repos[r]))
    && (forall i :: 0 <= i < |s.deletions| ==>
          s.deletions[i].name != s.deletions[i].current && s.deletions[i].name != MAIN)
  }

  /** How many commands a section may still issue. */
  function CommandsLeft(pc: Pc): nat {
    match pc
    case Queued => 8
    case MergeReadCurrent(_) => 7
    case MergeReadTarget => 6
    case MergeCheckout(_) => 6
    case MergeReadAgain(_) => 5
    case MergeRun(_) => 4
    case MergeConflicts(_) => 2
    case CreateRun => 2
    case DeleteRead => 2
    case Finished(_) => 0
    case _ => 1
  }

  /** One command, run alone on its repository, keeps what the services promise. */
  lemma CommandKeeps(d: Dolt, a: Act, ok: bool, exit: MergeExit)
    requires RepoOk(d) && PcFits(a) && Truthful(a) && Relies(d, a) && !a.pc.Finished? && !a.pc.Queued?
    ensures var (d', a') := Perform(d, a, ok, exit);
            RepoOk(d') && PcFits(a') && Truthful(a') && Relies(d', a') && CommandsLeft(a'.pc) < CommandsLeft(a.pc)
  {
  }

  lemma CommandStep(s: State, n: nat, ok: bool, exit: MergeExit)
    requires Inv(s) && Enabled(s, Command(n, ok, exit))
    ensures Inv(Next(s, Command(n, ok, exit)))
  {
    var t, repo := Next(s, Command(n, ok, exit)), s.mutex.calls[n].repo;
    assert ActOk(s, n);
    CommandKeeps(s.repos[repo], s.acts[n], ok, exit);
    forall m: nat | m < |t.acts|
      ensures ActOk(t, m)
    {
      assert ActOk(s, m);
      if m != n && s.mutex.phases[m].Running? && s.mutex.calls[m].repo == repo {
        M.ExclusiveState(s.mutex, m, n);
      }
    }
  }

  lemma MutexStep(s: State, a: Action)
    requires Inv(s) && Enabled(s, a) && !a.Command?
    ensures Inv(Next(s, a))
  {
    var t := Next(s, a);
    match a {
      case Call(repo, _) => M.InvStep(s.mutex, M.Enter(repo));
      case Start(n) => M.InvStep(s.mutex, M.Resume(n));
      case End(n) => M.InvStep(s.mutex, M.Exit(n, Throws(s.acts[n].pc.result)));
      case Settle(n) => M.InvStep(s.mutex, M.Settle(n));
    }
    forall m: nat | m < |t.acts|
      ensures ActOk(t, m)
    {
      if m < |s.acts| {
        assert ActOk(s, m);
      }
    }
  }

  lemma {:induction false} RunInv(run: seq<State>, acts: seq<Action>, k: nat)
    requires IsRun(run, acts) && k < |run|
    ensures Inv(run[k])
  {
    if k > 0 {
      RunInv(run, acts, k - 1);
      assert StepAt(run, acts, k - 1);
      if acts[k - 1].Command? {
        CommandStep(run[k - 1], acts[k - 1].call, acts[k - 1].ok, acts[k - 1].exit);
      } else {
        MutexStep(run[k - 1], acts[k - 1]);
      }
    }
  }

  // ------------------------------------------------------------------ results

  /** In every reachable state each repository has `main` and its checked-out branch. */
  lemma MainAndCurrentExist(run: seq<State>, acts: seq<Action>, k: nat, repo: string)
    requires IsRun(run, acts) && k < |run| && repo in run[k].repos
    ensures MAIN in run[k].repos[repo].branches && run[k].repos[repo].current in run[k].repos[repo].branches
  {
    RunInv(run, acts, k);
    assert RepoOk(run[k].repos[repo]);
  }

  /** No delete command is ever issued for `main` or for the branch checked out at that moment. */
  lemma DeletesAreSafe(run: seq<State>, acts: seq<Action>, k: nat, i: nat)
    requires IsRun(run, acts) && k < |run| && i < |run[k].deletions|
    ensures run[k].deletions[i].name != run[k].deletions[i].current && run[k].deletions[i].name != MAIN
  {
    RunInv(run, acts, k);
  }

  /**
   * The same, step by step: a branch disappears only in a delete that was asked for by its
   * name, and then it is neither `main` nor checked out; and a merge checks its target out
   * only if another branch is.
   */
  lemma OnlyDeletesShrink(run: seq<State>, acts: seq<Action>, k: nat, repo: string)
    requires IsRun(run, acts) && k < |acts| && repo in run[k].repos
    ensures repo in run[k + 1].repos
    ensures forall b :: b in run[k].repos[repo].branches && b !in run[k + 1].repos[repo].branches ==>
              && acts[k].Command? && acts[k].call < |run[k].acts| && run[k].acts[acts[k].call].op == Delete(b)
              && b != run[k].repos[repo].current && b != "main"
    ensures acts[k].Command? && acts[k].call < |run[k].acts| && acts[k].call < |run[k].mutex.calls|
            && run[k].mutex.calls[acts[k].call].repo == repo && run[k].acts[acts[k].call].pc.MergeCheckout? ==>
              run[k].repos[repo].current != run[k].acts[acts[k].call].pc.target
  {
    RunInv(run, acts, k);
    assert StepAt(run, acts, k);
    if acts[k].Command? {
      assert ActOk(run[k], acts[k].call);
    }
  }

  /** Every delete command is in the log. */
  lemma DeletesAreLogged(run: seq<State>, acts: seq<Action>, k: nat)
    requires IsRun(run, acts) && k < |acts| && acts[k].Command? && acts[k].call < |run[k].acts|
    requires run[k].acts[acts[k].call].pc.DeleteRun?
    ensures acts[k].call < |run[k].mutex.calls| && run[k].mutex.calls[acts[k].call].repo in run[k].repos
    ensures var a, d := run[k].acts[acts[k].call], run[k].repos[run[k].mutex.calls[acts[k].call].repo];
            a.op.Delete? && run[k + 1].deletions == run[k].deletions + [Deletion(a.op.name, d.current)]
  {
    RunInv(run, acts, k);
    assert StepAt(run, acts, k);
    assert ActOk(run[k], acts[k].call);
  }

  /** A merge's result, and its conflict error, name the branch that the merge ran on: the one asked for, if any was. */
  lemma MergeNamesItsTarget(run: seq<State>, acts: seq<Action>, k: nat, n: nat)
    requires IsRun(run, acts) && k < |run| && n < |run[k].acts| && run[k].acts[n].pc.Finished?
    ensures var a := run[k].acts[n];
            match a.pc.result
            case UpToDate(target) => a.mergedInto == Some(target) && TargetFits(a.op, target) && a.exit == Some(AlreadyUpToDate)
            case Merged(target) => a.mergedInto == Some(target) && TargetFits(a.op, target) && a.exit == Some(Clean)
            case ConflictIn(target) => a.mergedInto == Some(target) && TargetFits(a.op, target) && a.exit == Some(Conflict)
            case _ => true
  {
    RunInv(run, acts, k);
    assert ActOk(run[k], n);
  }

  /**
   * While its section lasts, a result is true of the repository: a created branch is there
   * and the current one is as reported, a branch checked out is the current one, and a
   * deleted branch is gone.
   */
  lemma ResultHolds(run: seq<State>, acts: seq<Action>, k: nat, n: nat)
    requires IsRun(run, acts) && k < |run| && Running(run[k], n) && run[k].acts[n].pc.Finished?
    ensures run[k].mutex.calls[n].repo in run[k].repos
    ensures var a, d := run[k].acts[n], run[k].repos[run[k].mutex.calls[n].repo];
            match a.pc.result
            case Created(current, name) => a.op == Create(name) && name in d.branches && current == d.current
            case CheckedOut(name) => a.op == Checkout(name) && d.current == name
            case Deleted => a.op.Delete? && a.op.name !in d.branches
            case Threw => true
            case _ => a.op.Merge?
  {
    RunInv(run, acts, k);
    assert ActOk(run[k], n);
  }

  /**
   * What makes a section throw: a command that fails, one that Dolt refuses, a branch that is
   * protected, or a merge that breaks.
   */
  predicate FailsHere(d: Dolt, a: Act, ok: bool, exit: MergeExit) {
    || !ok
    || (a.pc.CreateRun? && a.op.Create? && a.op.name in d.branches)
    || (a.pc.CheckoutRun? && a.op.Checkout? && a.op.name !in d.branches)
    || (a.pc.DeleteRead? && a.op.Delete? && (a.op.name == d.current || a.op.name == "main"))
    || (a.pc.DeleteRun? && a.op.Delete? && a.op.name !in d.branches)
    || (a.pc.MergeCheckout? && a.pc.target !in d.branches)
    || (a.pc.MergeRun? && (exit.Broken? || (d.merging && !exit.Conflict?)))
  }

  lemma ThrowsHereIff(d: Dolt, a: Act, ok: bool, exit: MergeExit)
    requires PcFits(a) && !a.pc.Finished? && !a.pc.Queued?
    ensures Perform(d, a, ok, exit).1.pc == Finished(Threw) <==> FailsHere(d, a, ok, exit)
  {
  }

  /** Step `j` is a command of call `n` that makes it throw. */
  predicate FailsAt(run: seq<State>, acts: seq<Action>, j: nat, n: nat) {
    && j < |acts| && j < |run| && acts[j].Command? && acts[j].call == n && n < |run[j].acts| && n < |run[j].mutex.calls|
    && run[j].mutex.calls[n].repo in run[j].repos
    && FailsHere(run[j].repos[run[j].mutex.calls[n].repo], run[j].acts[n], acts[j].ok, acts[j].exit)
  }

  /** A call throws only because one of its own commands made it: a section with none such ends in its result. */
  lemma {:induction false} ThrewHasCause(run: seq<State>, acts: seq<Action>, k: nat, n: nat) returns (j: nat)
    requires IsRun(run, acts) && k < |run| && n < |run[k].acts| && run[k].acts[n].pc == Finished(Threw)
    ensures j < k && FailsAt(run, acts, j, n)
  {
    j := k - 1;
    assert StepAt(run, acts, j);
    if n < |run[j].acts| && run[j].acts[n].pc == Finished(Threw) {
      j := ThrewHasCause(run, acts, k - 1, n);
    } else {
      RunInv(run, acts, j);
      ThrewNow(run[j], acts[j], n);
    }
  }

  lemma ThrewNow(s: State, a: Action, n: nat)
    requires Inv(s) && Enabled(s, a) && n < |Next(s, a).acts| && Next(s, a).acts[n].pc == Finished(Threw)
    requires n < |s.acts| ==> s.acts[n].pc != Finished(Threw)
    ensures a.Command? && a.call == n && n < |s.acts| && n < |s.mutex.calls| && s.mutex.calls[n].repo in s.repos
    ensures FailsHere(s.repos[s.mutex.calls[n].repo], s.acts[n], a.ok, a.exit)
  {
    if a.Command? && a.call == n {
      assert ActOk(s, n);
      ThrowsHereIff(s.repos[s.mutex.calls[n].repo], s.acts[n], a.ok, a.exit);
    }
  }

  /** The mutex sees a section throw exactly for an error or a merge conflict. */
  lemma EndReports(run: seq<State>, acts: seq<Action>, k: nat)
    requires IsRun(run, acts) && k < |acts| && acts[k].End?
    ensures acts[k].call < |run[k].acts| && acts[k].call < |run[k + 1].mutex.phases| && run[k].acts[acts[k].call].pc.Finished?
    ensures var r := run[k].acts[acts[k].call].pc.result;
            run[k + 1].mutex.phases[acts[k].call] == M.Done(r == Threw || r.ConflictIn?)
  {
    assert StepAt(run, acts, k);
  }

  /** A section that runs can issue its next command or end, and it has boundedly many commands left. */
  lemma SectionGoesOn(run: seq<State>, acts: seq<Action>, k: nat, n: nat, ok: bool, exit: MergeExit)
    requires IsRun(run, acts) && k < |run| && Running(run[k], n)
    ensures Enabled(run[k], if run[k].acts[n].pc.Finished? then End(n) else Command(n, ok, exit))
    ensures k < |acts| && acts[k] == Command(n, ok, exit) ==>
              n < |run[k + 1].acts| && CommandsLeft(run[k + 1].acts[n].pc) < CommandsLeft(run[k].acts[n].pc)
  {
    RunInv(run, acts, k);
    assert ActOk(run[k], n);
    if k < |acts| && acts[k] == Command(n, ok, exit) {
      assert StepAt(run, acts, k);
      CommandKeeps(run[k].repos[run[k].mutex.calls[n].repo], run[k].acts[n], ok, exit);
    }
  }

  /** A command of a call on this repo that succeeds in this step, and where the call then stood. */
  predicate Succeeds(s: State, a: Action, repo: string) {
    a.Command? && Running(s, a.call) && s.mutex.calls[a.call].repo == repo && a.ok
  }

  /** A `dolt merge` on this repo ends in conflicts. */
  predicate Conflicts(s: State, a: Action, repo: string) {
    Succeeds(s, a, repo) && s.acts[a.call].pc.MergeRun? && a.exit.Conflict?
  }

  /** A `dolt merge --abort` on this repo succeeds. */
  predicate Aborts(s: State, a: Action, repo: string) {
    Succeeds(s, a, repo) && s.acts[a.call].pc.MergeAbort?
  }

  /** Step `j` before `k` ends a merge on this repo in conflicts, and no abort follows before `k`. */
  ghost predicate LeftPending(run: seq<State>, acts: seq<Action>, repo: string, j: nat, k: nat)
    requires k <= |acts| <= |run|
  {
    j < k && Conflicts(run[j], acts[j], repo) && forall i: nat :: j < i < k ==> !Aborts(run[i], acts[i], repo)
  }

  lemma MergingStep(s: State, a: Action, repo: string)
    requires Enabled(s, a) && repo in s.repos
    ensures repo in Next(s, a).repos
    ensures Next(s, a).repos[repo].merging <==>
            Conflicts(s, a, repo) || (s.repos[repo].merging && !Aborts(s, a, repo))
  {
  }

  /**
   * In every reachable state a merge is pending on a repository exactly when some
   * `dolt merge` on it ended in conflicts and no successful `dolt merge --abort` on it has
   * followed.
   */
  lemma {:induction false} PendingMergeIff(run: seq<State>, acts: seq<Action>, k: nat, repo: string)
    requires IsRun(run, acts) && k < |run| && repo in run[0].repos
    ensures repo in run[k].repos
    ensures run[k].repos[repo].merging <==> exists j: nat :: LeftPending(run, acts, repo, j, k)
  {
    if k > 0 {
      PendingMergeIff(run, acts, k - 1, repo);
      assert StepAt(run, acts, k - 1);
      MergingStep(run[k - 1], acts[k - 1], repo);
      PendingNext(run, acts, repo, k - 1, k);
    }
  }

  lemma PendingNext(run: seq<State>, acts: seq<Action>, repo: string, k: nat, n: nat)
    requires k < |acts| <= |run| && n == k + 1
    ensures (exists j: nat :: LeftPending(run, acts, repo, j, n)) <==>
            || Conflicts(run[k], acts[k], repo)
            || ((exists j: nat :: LeftPending(run, acts, repo, j, k)) && !Aborts(run[k], acts[k], repo))
  {
    if j: nat :| LeftPending(run, acts, repo, j, n) && j < k {
      assert LeftPending(run, acts, repo, j, k);
    }
    if j: nat :| LeftPending(run, acts, repo, j, k) && !Aborts(run[k], acts[k], repo) {
      assert LeftPending(run, acts, repo, j, n);
    }
    if Conflicts(run[k], acts[k], repo) {
      assert LeftPending(run, acts, repo, k, n);
    }
  }

  /** A call on this repo whose merge conflicted and has not been aborted. */
  predicate Culprit(s: State, repo: string, n: nat) {
    && n < |s.acts| && n < |s.mutex.calls| && s.mutex.calls[n].repo == repo
    && s.acts[n].exit == Some(Conflict) && !(s.acts[n].pc.Finished? && s.acts[n].pc.result.ConflictIn?)
  }

  ghost predicate Blamed(s: State) {
    forall repo :: repo in s.repos && s.repos[repo].merging ==> exists n :: Culprit(s, repo, n)
  }

  lemma BlamedCommand(s: State, n: nat, ok: bool, exit: MergeExit)
    requires Inv(s) && Enabled(s, Command(n, ok, exit)) && Blamed(s)
    ensures Blamed(Next(s, Command(n, ok, exit)))
  {
    var t, own := Next(s, Command(n, ok, exit)), s.mutex.calls[n].repo;
    assert ActOk(s, n);
    forall repo | repo in t.repos && t.repos[repo].merging
      ensures exists m :: Culprit(t, repo, m)
    {
      if s.repos[repo].merging {
        var m :| Culprit(s, repo, m);
        assert Culprit(t, repo, m);
      } else {
        assert repo == own && Culprit(t, repo, n);
      }
    }
  }

  lemma BlamedStep(s: State, a: Action)
    requires Inv(s) && Enabled(s, a) && Blamed(s) && !a.Command?
    ensures Blamed(Next(s, a))
  {
    var t := Next(s, a);
    forall repo | repo in t.repos && t.repos[repo].merging
      ensures exists m :: Culprit(t, repo, m)
    {
      var m :| Culprit(s, repo, m);
      assert ActOk(s, m);
      assert Culprit(t, repo, m);
    }
  }

  /** A pending merge is always the doing of a call whose conflict was not, or not yet, aborted. */
  lemma {:induction false} PendingMergeHasCulprit(run: seq<State>, acts: seq<Action>, k: nat)
    requires IsRun(run, acts) && k < |run|
    ensures Blamed(run[k])
  {
    if k > 0 {
      PendingMergeHasCulprit(run, acts, k - 1);
      RunInv(run, acts, k - 1);
      assert StepAt(run, acts, k - 1);
      if acts[k - 1].Command? {
        BlamedCommand(run[k - 1], acts[k - 1].call, acts[k - 1].ok, acts[k - 1].exit);
      } else {
        BlamedStep(run[k - 1], acts[k - 1]);
      }
    }
  }

  // ------------------------------------------------------------ reachable states

  /** Some run ends in this state. */
  ghost predicate Reachable(s: State) {
    exists run, acts :: RunTo(run, acts, s)
  }

  ghost predicate RunTo(run: seq<State>, acts: seq<Action>, s: State) {
    IsRun(run, acts) && run[|acts|] == s
  }

  /** Any enabled action leads to a reachable state again. */
  lemma ReachNext(s: State, a: Action)
    requires Reachable(s) && Enabled(s, a)
    ensures Reachable(Next(s, a))
  {
    var run, acts :| RunTo(run, acts, s);
    var run', acts' := run + [Next(s, a)], acts + [a];
    forall i: nat | i < |acts'|
      ensures StepAt(run', acts', i)
    {
      if i < |acts| {
        assert StepAt(run, acts, i);
      }
    }
    assert RunTo(run', acts', Next(s, a));
  }
}
