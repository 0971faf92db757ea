/** What every run of the drain, its helpers and the stop of an SSH connection keeps. */
module DrainTheorems {
  import opened Drains
  import opened Runs
  import opened Wrappers

  // ----- the invariant -----

  predicate Busy(h: Helper) {
    h == Admitted || h == Running
  }

  function Active(s: State): set<ChildID> {
    set c | c in s.helpers && Busy(s.helpers[c])
  }

  function One(b: bool): nat {
    if b then 1 else 0
  }

  /** The group counts the open drain and the helpers that have not ended. */
  predicate Balanced(s: State) {
    s.drain.count == One(!s.drain.closed) + |Active(s)|
  }

  predicate Counted(s: State) {
    forall m :: m in s.masters ==> s.masters[m].child.count == One(s.masters[m].child.running) + One(s.masters[m].child.reading)
  }

  predicate Known(s: State) {
    && (s.ssh.master.Some? ==> s.ssh.master.value in s.masters)
    && ((s.ssh.plan.Waiting? || s.ssh.plan.Posted?) && s.ssh.plan.child.Some? ==> s.ssh.plan.child.value in s.masters)
    && (s.ssh.plan.Ending? ==> s.ssh.plan.master in s.masters)
    && (s.ssh.plan.Over? && s.ssh.plan.child.Some? ==> s.ssh.plan.child.value in s.masters)
  }

  /** A stop that waits goes on only when the drain is closed and empty, and only then. */
  predicate Planned(s: State) {
    && (s.ssh.stopped <==> !s.ssh.plan.NotAsked?)
    && (s.ssh.stopped ==> s.ssh.master.None?)
    && (s.ssh.plan.Waiting? ==> s.ssh.awaits && s.drain.count != 0)
    && (s.ssh.awaits && (s.ssh.plan.Posted? || s.ssh.plan.Ending? || s.ssh.plan.Over?) ==> s.drain.count == 0)
  }

  predicate Left(s: State) {
    && s.ssh.ended == One(!s.ssh.plan.Over?)
    && (s.ssh.plan.Over? && s.ssh.plan.child.Some? ==> !Alive(s, s.ssh.plan.child.value))
  }

  predicate Spared(s: State) {
    s.kept.Some? ==>
      && s.ssh.stopped && s.ssh.awaits && s.kept.value in s.masters && s.masters[s.kept.value].ready
      && (s.ssh.plan.Waiting? ==> !s.masters[s.kept.value].child.stopping)
  }

  ghost predicate Inv(s: State) {
    Balanced(s) && Counted(s) && Known(s) && Planned(s) && Left(s) && Spared(s)
  }

  // ----- one step -----

  lemma {:induction false} ActiveAdds(s: State, t: State, c: ChildID, h: Helper)
    requires t.helpers == s.helpers[c := h]
    ensures Active(t) == if Busy(h) then Active(s) + {c} else Active(s) - {c}
  {
  }

  predicate IsHelpers(l: Label) {
    l.Enter? || l.RunFails? || l.Runs? || l.Terminates?
  }

  lemma {:induction false} EnterBalances(s: State, c: ChildID)
    requires Balanced(s) && Enabled(s, Enter(c))
    ensures Balanced(Next(s, Enter(c)))
  {
    var t := Next(s, Enter(c));
    ActiveAdds(s, t, c, t.helpers[c]);
    ActiveIs(s, c);
    assert s.drain.closed ==> Active(t) == Active(s);
  }

  lemma {:induction false} EndBalances(s: State, l: Label)
    requires Balanced(s) && Enabled(s, l) && (l.RunFails? || l.Terminates?)
    ensures Balanced(Next(s, l))
  {
    var t := Next(s, l);
    ActiveAdds(s, t, l.helper, t.helpers[l.helper]);
    ActiveIs(s, l.helper);
    assert |Active(s) - {l.helper}| == |Active(s)| - 1;
  }

  lemma {:induction false} HelperBalances(s: State, l: Label)
    requires Balanced(s) && Enabled(s, l) && IsHelpers(l)
    ensures Balanced(Next(s, l))
  {
    if l.Enter? {
      EnterBalances(s, l.helper);
    } else if l.Runs? {
      var t := Next(s, l);
      ActiveAdds(s, t, l.helper, Running);
      ActiveIs(s, l.helper);
      assert Active(t) == Active(s);
    } else {
      EndBalances(s, l);
    }
  }

  lemma {:induction false} OtherBalances(s: State, l: Label)
    requires Balanced(s) && Enabled(s, l) && !IsHelpers(l)
    ensures Balanced(Next(s, l))
  {
    assert Next(s, l).helpers == s.helpers;
  }

  lemma {:induction false} StepBalances(s: State, l: Label)
    requires Balanced(s) && Enabled(s, l)
    ensures Balanced(Next(s, l))
  {
    if IsHelpers(l) {
      HelperBalances(s, l);
    } else {
      OtherBalances(s, l);
    }
  }

  lemma {:induction false} StepKnows(s: State, l: Label)
    requires Known(s) && Enabled(s, l)
    ensures Known(Next(s, l))
  {
  }

  /** The labels that change a master. */
  predicate IsMasters(l: Label) {
    l.LaunchMaster? || l.MasterReady? || l.LaunchGivesUp? || l.RelaunchStops? || l.MasterDies? || l.StderrEnds? || l.RunBlock?
  }

  lemma {:induction false} MasterCounts(s: State, l: Label)
    requires Counted(s) && Enabled(s, l) && IsMasters(l)
    ensures Counted(Next(s, l))
  {
  }

  lemma {:induction false} StepCounts(s: State, l: Label)
    requires Counted(s) && Known(s) && Enabled(s, l)
    ensures Counted(Next(s, l)) && Known(Next(s, l))
  {
    StepKnows(s, l);
    if IsMasters(l) {
      MasterCounts(s, l);
    } else {
      assert Next(s, l).masters == s.masters;
    }
  }

  lemma {:induction false} StepPlans(s: State, l: Label)
    requires Balanced(s) && Planned(s) && Enabled(s, l)
    ensures Planned(Next(s, l))
  {
    if l.RunFails? || l.Terminates? {
      assert l.helper in Active(s);
    }
  }

  lemma {:induction false} StepLeaves(s: State, l: Label)
    requires Left(s) && Counted(s) && Known(s) && Planned(s) && Enabled(s, l)
    ensures Left(Next(s, l))
  {
  }

  lemma {:induction false} StepSpares(s: State, l: Label)
    requires Spared(s) && Planned(s) && Enabled(s, l)
    ensures Spared(Next(s, l))
  {
  }

  lemma {:induction false} StepKeepsInv(s: State, l: Label)
    requires Inv(s) && Enabled(s, l)
    ensures Inv(Next(s, l))
  {
    StepBalances(s, l);
    StepCounts(s, l);
    StepPlans(s, l);
    StepLeaves(s, l);
    StepSpares(s, l);
  }

  ghost predicate Run(run: seq<State>, labels: seq<Label>) {
    IsRun(Steps, run, labels) && run[0] == Start
  }

  lemma {:induction false} RunsKeepInv(run: seq<State>, labels: seq<Label>, n: nat)
    requires Run(run, labels) && n <= |labels|
    ensures Inv(run[n])
  {
    assert Active(Start) == {};
    forall s, l, t | Inv(s) && Steps(s, l, t) ensures Inv(t) {
      StepKeepsInv(s, l);
    }
    Invariant(Steps, Inv, run, labels, n);
  }

  // ----- the theorems -----

  /** No group is ever left more often than it was entered, and the drain counts exactly what is open. */
  lemma {:induction false} CountsNeverUnderflow(run: seq<State>, labels: seq<Label>, n: nat)
    requires Run(run, labels) && n <= |labels|
    ensures run[n].drain.count == One(!run[n].drain.closed) + |Active(run[n])| >= 0
    ensures forall m :: m in run[n].masters ==> run[n].masters[m].child.count >= 0
    ensures run[n].ssh.ended >= 0
  {
    RunsKeepInv(run, labels, n);
  }

  /**
  The block of a stop that waits for the drain runs only after the drain has closed and every helper
  has ended; from then on none is admitted.
  */
  lemma {:induction false} StopWaitsForHelpers(run: seq<State>, labels: seq<Label>, n: nat, k: nat)
    requires Run(run, labels) && n <= k <= |labels|
    requires run[n].ssh.awaits && !run[n].ssh.plan.Waiting?
    requires run[n].ssh.stopped
    ensures run[k].drain.closed && Active(run[k]) == {}
  {
    RunsKeepInv(run, labels, n);
    ClosedStays(run, labels, n, k);
  }

  lemma {:induction false} ActiveIs(s: State, c: ChildID)
    ensures c in Active(s) <==> c in s.helpers && Busy(s.helpers[c])
  {
  }

  lemma {:induction false} ClosedStays(run: seq<State>, labels: seq<Label>, n: nat, k: nat)
    requires IsRun(Steps, run, labels) && n <= k <= |labels|
    requires run[n].drain.closed && Active(run[n]) == {}
    ensures run[k].drain.closed && Active(run[k]) == {}
    decreases k - n
  {
    if n < k {
      var s, l, t := run[n], labels[n], run[n + 1];
      assert Steps(s, l, t);
      if l.Enter? {
        ActiveAdds(s, t, l.helper, Refused);
      } else if IsHelpers(l) {
        ActiveIs(s, l.helper);
      } else {
        assert t.helpers == s.helpers;
      }
      ClosedStays(run, labels, n + 1, k);
    }
  }

  // ----- the master and the helpers -----

  /** The master has been stopped although the drain is open or a helper has not ended. */
  predicate StoppedEarly(s: State, m: ChildID) {
    m in s.masters && s.masters[m].child.stopping && !(s.drain.closed && Active(s) == {})
  }

  ghost predicate MayStopEarly(s: State, m: ChildID) {
    exists run: seq<State>, labels: seq<Label> ::
      IsRun(Steps, run, labels) && run[0] == s && StoppedEarly(run[|labels|], m)
  }

  lemma {:induction false} DrainIsEmpty(s: State)
    requires Balanced(s)
    ensures s.drain.count == 0 <==> s.drain.closed && Active(s) == {}
  {
  }

  lemma {:induction false} StepKeepsKept(s: State, l: Label, m: ChildID)
    requires Enabled(s, l) && s.ssh.stopped && s.kept == Some(m)
    ensures Next(s, l).ssh.stopped && Next(s, l).kept == Some(m)
  {
  }

  lemma {:induction false} KeptIsSpared(s: State, m: ChildID)
    requires Inv(s) && s.kept == Some(m)
    ensures !StoppedEarly(s, m)
  {
    DrainIsEmpty(s);
  }

  lemma {:induction false} KeepableIsSpared(s: State, m: ChildID, run: seq<State>, labels: seq<Label>)
    requires Inv(s) && !s.ssh.stopped && s.ssh.master == Some(m) && Keepable(s)
    requires IsRun(Steps, run, labels) && run[0] == Next(s, StopSsh(true))
    ensures !StoppedEarly(run[|labels|], m)
  {
    var inv := (t: State) => Inv(t) && t.ssh.stopped && t.kept == Some(m);
    StepKeepsInv(s, StopSsh(true));
    forall t, l, u | inv(t) && Steps(t, l, u) ensures inv(u) {
      StepKeepsInv(t, l);
      StepKeepsKept(t, l, m);
    }
    Invariant(Steps, inv, run, labels, |labels|);
    KeptIsSpared(run[|labels|], m);
  }

  lemma {:induction false} EmptyDrainStaysEmpty(s: State, m: ChildID, run: seq<State>, labels: seq<Label>)
    requires Inv(s) && s.drain.count == 0
    requires IsRun(Steps, run, labels) && run[0] == Next(s, StopSsh(true))
    ensures !StoppedEarly(run[|labels|], m)
  {
    DrainIsEmpty(s);
    assert run[0].helpers == s.helpers;
    ClosedStays(run, labels, 0, |labels|);
  }

  lemma {:induction false} OthersMayBeStoppedEarly(s: State, m: ChildID)
    requires Inv(s) && !s.ssh.stopped && s.ssh.master == Some(m) && !Keepable(s) && s.drain.count != 0
    ensures MayStopEarly(Next(s, StopSsh(true)), m)
  {
    var t := Next(s, StopSsh(true));
    DrainIsEmpty(s);
    assert Active(t) == Active(s) && t.masters == s.masters;
    if s.masters[m].child.stopping {
      var run, labels: seq<Label> := [t], [];
      assert IsRun(Steps, run, labels) && StoppedEarly(run[|labels|], m);
    } else {
      var u := Next(t, LaunchGivesUp(m));
      assert Active(u) == Active(t);
      var run, labels := [t, u], [LaunchGivesUp(m)];
      assert IsRun(Steps, run, labels) && StoppedEarly(run[|labels|], m);
    }
  }

  /**
  A stop after the drain leaves the master alone until the drain is closed and every helper has ended,
  whatever happens then, exactly if the master serves and nothing has stopped it at the stop, or the
  drain is already empty. A master still being launched is stopped by its launch, which gives up at
  the stop; one that a relaunch has stopped is stopped already.
  */
  lemma {:induction false} StopSparesMasterExactly(s: State, m: ChildID)
    requires Inv(s) && !s.ssh.stopped && s.ssh.master == Some(m)
    ensures !MayStopEarly(Next(s, StopSsh(true)), m) <==> Keepable(s) || s.drain.count == 0
  {
    if Keepable(s) || s.drain.count == 0 {
      forall run: seq<State>, labels: seq<Label> | IsRun(Steps, run, labels) && run[0] == Next(s, StopSsh(true))
        ensures !StoppedEarly(run[|labels|], m)
      {
        if Keepable(s) {
          KeepableIsSpared(s, m, run, labels);
        } else {
          EmptyDrainStaysEmpty(s, m, run, labels);
        }
      }
    } else {
      OthersMayBeStoppedEarly(s, m);
    }
  }

  /** The group that the owner waits for is left exactly once: never before the master has ended. */
  lemma {:induction false} EndedIsLeftOnce(run: seq<State>, labels: seq<Label>, n: nat)
    requires Run(run, labels) && n <= |labels|
    ensures run[n].ssh.ended == One(!run[n].ssh.plan.Over?)
    ensures run[n].ssh.ended == 0 && run[n].ssh.plan.child.Some? ==>
              var m := run[n].ssh.plan.child.value;
              m in run[n].masters && !run[n].masters[m].child.running && !run[n].masters[m].child.reading
  {
    RunsKeepInv(run, labels, n);
  }

  /** Once a stop is asked for, the drain closed, and all processes have ended, nothing but its own steps is missing. */
  lemma {:induction false} StopCompletes(run: seq<State>, labels: seq<Label>, n: nat)
    requires Run(run, labels) && n <= |labels|
    requires run[n].ssh.stopped && (run[n].ssh.awaits ==> run[n].drain.closed && Active(run[n]) == {})
    requires forall m :: m in run[n].masters ==> !run[n].masters[m].child.running && !run[n].masters[m].child.reading
    ensures run[n].ssh.ended == 0 || Enabled(run[n], RunBlock) || Enabled(run[n], LeaveEnded)
  {
    RunsKeepInv(run, labels, n);
  }

  /** The master that a stop found and that its plan is about. */
  function PlanChild(plan: Plan): Option<ChildID> {
    match plan
    case NotAsked => None
    case Waiting(child) => child
    case Posted(child) => child
    case Ending(master) => Some(master)
    case Over(child) => child
  }

  /** The plan of a stop is about the master that the connection had when it was asked for, until the end. */
  lemma {:induction false} StopTakesTheMaster(run: seq<State>, labels: seq<Label>, n: nat, k: nat)
    requires IsRun(Steps, run, labels) && n < k <= |labels|
    requires labels[n].StopSsh? && !run[n].ssh.stopped
    ensures run[k].ssh.stopped && !run[k].ssh.plan.NotAsked? && PlanChild(run[k].ssh.plan) == run[n].ssh.master
    decreases k
  {
    assert Steps(run[k - 1], labels[k - 1], run[k]);
    if k - 1 > n {
      StopTakesTheMaster(run, labels, n, k - 1);
    }
  }

  /** The block has stopped the master before it waits for its end. */
  predicate Ends(s: State) {
    var p := s.ssh.plan;
    (p.Ending? || p.Over?) && PlanChild(p).Some? ==>
      PlanChild(p).value in s.masters && s.masters[PlanChild(p).value].child.stopping
  }

  lemma {:induction false} StepEnds(s: State, l: Label)
    requires Ends(s) && Enabled(s, l)
    ensures Ends(Next(s, l))
  {
  }

  /** The master that a stop found is stopped before its end is awaited, and its end before the owner's group is left. */
  lemma {:induction false} StopEndsTheMaster(run: seq<State>, labels: seq<Label>, n: nat)
    requires Run(run, labels) && n <= |labels|
    requires (run[n].ssh.plan.Ending? || run[n].ssh.ended == 0) && PlanChild(run[n].ssh.plan).Some?
    ensures var m := PlanChild(run[n].ssh.plan).value;
            && m in run[n].masters && run[n].masters[m].child.stopping
            && (run[n].ssh.ended == 0 ==> !run[n].masters[m].child.running && !run[n].masters[m].child.reading)
  {
    forall s, l, t | Ends(s) && Steps(s, l, t) ensures Ends(t) {
      StepEnds(s, l);
    }
    Invariant(Steps, Ends, run, labels, n);
    RunsKeepInv(run, labels, n);
  }

  function After(s: State, labels: seq<Label>): Option<State>
    decreases |labels|
  {
    if labels == [] then Some(s)
    else if Enabled(s, labels[0]) then After(Next(s, labels[0]), labels[1..])
    else None
  }

  /** Such a run from the start: a master in its launch, a running helper, and the stop. */
  lemma {:induction false} LaunchingMasterMayEndFirst()
    ensures var s := After(Start, [LaunchMaster(0, false), Enter(1), Runs(1), StopSsh(true), LaunchGivesUp(0)]);
            s.Some? && s.value.masters[0].child.stopping && s.value.ssh.plan.Waiting? && s.value.helpers[1] == Running
  {
    var s1 := Next(Start, LaunchMaster(0, false));
    var s2 := Next(s1, Enter(1));
    var s3 := Next(s2, Runs(1));
    var s4 := Next(s3, StopSsh(true));
    var s5 := Next(s4, LaunchGivesUp(0));
    assert After(s4, [LaunchGivesUp(0)]) == Some(s5);
    assert [StopSsh(true), LaunchGivesUp(0)][1..] == [LaunchGivesUp(0)];
    assert After(s3, [StopSsh(true), LaunchGivesUp(0)]) == Some(s5);
    assert [Runs(1), StopSsh(true), LaunchGivesUp(0)][1..] == [StopSsh(true), LaunchGivesUp(0)];
    assert After(s2, [Runs(1), StopSsh(true), LaunchGivesUp(0)]) == Some(s5);
    assert [Enter(1), Runs(1), StopSsh(true), LaunchGivesUp(0)][1..] == [Runs(1), StopSsh(true), LaunchGivesUp(0)];
    assert After(s1, [Enter(1), Runs(1), StopSsh(true), LaunchGivesUp(0)]) == Some(s5);
    var all := [LaunchMaster(0, false), Enter(1), Runs(1), StopSsh(true), LaunchGivesUp(0)];
    assert all[1..] == [Enter(1), Runs(1), StopSsh(true), LaunchGivesUp(0)];
  }
}
