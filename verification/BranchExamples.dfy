/** A run after which a merge with conflicts stays pending, although its call has ended. */
module BranchExamples {
  import opened Common
  import M = RepoMutex
  import opened BranchServices

  /** One repository with two branches. */
  const FRESH := State(M.INITIAL, [], map["r" := Dolt({MAIN, "b"}, MAIN, false)], [])

  lemma Go(s: State, a: Action) returns (t: State)
    requires Reachable(s) && Enabled(s, a)
    ensures Reachable(t) && t == Next(s, a)
  {
    t := Next(s, a);
    ReachNext(s, a);
  }

  /** The one call is running and stands at this command. */
  predicate At(s: State, pc: Pc, conflicted: bool) {
    && s.mutex.calls == [M.Call("r", M.Resolved)] && s.mutex.phases == [M.Running]
    && |s.acts| == 1 && s.acts[0].op == Merge("b", None) && s.acts[0].pc == pc
    && "r" in s.repos && s.repos["r"] == Dolt({MAIN, "b"}, MAIN, conflicted)
  }

  /** The two reads, and the merge that conflicts. */
  lemma MergeCommand(s: State, pc: Pc, pc': Pc)
    requires At(s, pc, false)
    requires (pc, pc') in {(MergeReadTarget, MergeReadAgain(MAIN)), (MergeReadAgain(MAIN), MergeRun(MAIN)),
                           (MergeRun(MAIN), MergeConflicts(MAIN))}
    ensures Enabled(s, Command(0, true, Conflict)) && At(Next(s, Command(0, true, Conflict)), pc', pc.MergeRun?)
  {
    assert s.mutex.calls[0] == M.Call("r", M.Resolved) && s.mutex.phases[0] == M.Running;
  }

  lemma ReachConflict() returns (s: State)
    ensures Reachable(s) && At(s, MergeConflicts(MAIN), true)
  {
    assert RunTo([FRESH], [], FRESH);
    s := Go(FRESH, Call("r", Merge("b", None)));
    s := Go(s, Start(0));
    assert At(s, MergeReadTarget, false);
    MergeCommand(s, MergeReadTarget, MergeReadAgain(MAIN));
    s := Go(s, Command(0, true, Conflict));
    MergeCommand(s, MergeReadAgain(MAIN), MergeRun(MAIN));
    s := Go(s, Command(0, true, Conflict));
    MergeCommand(s, MergeRun(MAIN), MergeConflicts(MAIN));
    s := Go(s, Command(0, true, Conflict));
  }

  /**
   * A merge ends in conflicts, and reading them fails, as it does for a table with an unsafe
   * name: the call throws without an abort, its section ends, and the merge is pending.
   */
  lemma ConflictStaysPending() returns (s: State)
    ensures Reachable(s) && "r" in s.repos && s.repos["r"].merging
    ensures |s.acts| == 1 && s.acts[0].pc == Finished(Threw) && s.mutex.phases == [M.Done(true)]
  {
    s := ReachConflict();
    s := Go(s, Command(0, false, Clean));
    s := Go(s, End(0));
  }
}
