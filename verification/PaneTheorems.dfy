/**
What holds in every run of the pane protocol.
*/
module PaneTheorems {
  import opened Wrappers
  import opened Rows
  import opened Runs
  import opened PaneProtocol
  import opened PaneInvariants

  // ----- runs -----

  ghost predicate Next(s: State, l: Label, t: State) {
    Enabled(s, l) && t == Step(s, l)
  }

  /** The states of the runs that start as a pane starts. */
  ghost predicate Reachable(s: State) {
    exists run, labels :: IsRun(Next, run, labels) && Init(run[0]) && run[|labels|] == s
  }

  lemma {:induction false} MainKeepsInv(s: State, env: Env)
    requires Enabled(s, Main(env)) && Inv(s)
    ensures Inv(MainStep(s, env))
  {
    var l := Main(env);
    assert Step(s, l) == MainStep(s, env);
    ShapedKept(s, l);
    AccountedKeptByMain(s, env);
    SilentKept(s, l);
    PostedKept(s, l);
    CapturesKept(s, l);
    ModesKept(s, l);
    if s.todo.op.O? { GuardedKeptByOutput(s, env); }
    else if s.todo.op.V? { GuardedKeptByView(s, env); }
    else if s.todo.op.S? { GuardedKeptByScroll(s, env); }
    else { GuardedKeptByCopy(s, env); }
    RecoveredKept(s, l);
    if s.todo.op.O? { StampedKeptByOutput(s, env); } else { StampedKeptByMain(s, env); }
    PursuedKept(s, l);
    if s.todo.op.C? { EnteredKeptByCopy(s, env); } else { EnteredKeptByMain(s, env); }
    CoalescedKept(s, l);
    if s.todo.op.S? { SettlingKeptByScroll(s, env); } else { SettlingKeptByMain(s, env); }
    AnsweredKept(s, l);
    PinnedKept(s, l);
    OvertakenKept(s, l);
    DeliveredKept(s, l);
    PlacedKept(s, l);
  }

  /** Every step keeps the whole invariant. */
  lemma {:induction false} StepKeepsInv(s: State, l: Label)
    requires Enabled(s, l) && Inv(s)
    ensures Inv(Step(s, l))
  {
    if l.Main? {
      MainKeepsInv(s, l.env);
    } else {
      ShapedKept(s, l);
      AccountedKeptByOthers(s, l);
      SilentKept(s, l);
      PostedKept(s, l);
      CapturesKept(s, l);
      ModesKept(s, l);
      GuardedKeptByOthers(s, l);
      RecoveredKept(s, l);
      StampedKeptByOthers(s, l);
      PursuedKept(s, l);
      EnteredKeptByOthers(s, l);
      CoalescedKept(s, l);
      SettlingKeptByOthers(s, l);
      AnsweredKept(s, l);
      PinnedKept(s, l);
      OvertakenKept(s, l);
      DeliveredKept(s, l);
      PlacedKept(s, l);
    }
  }

  lemma {:induction false} RunKeepsInv(run: seq<State>, labels: seq<Label>, n: nat)
    requires IsRun(Next, run, labels) && n <= |labels| && Inv(run[0])
    ensures Inv(run[n])
  {
    forall s, l, t | Inv(s) && Next(s, l, t) ensures Inv(t) {
      StepKeepsInv(s, l);
    }
    Invariant(Next, Inv, run, labels, n);
  }

  lemma {:induction false} ReachableInv(s: State)
    requires Reachable(s)
    ensures Inv(s)
  {
    var run, labels :| IsRun(Next, run, labels) && Init(run[0]) && run[|labels|] == s;
    InitInv(run[0]);
    RunKeepsInv(run, labels, |labels|);
  }

  // ----- copy mode: the freeze -----

  /** A feed that was admitted and has not been published. */
  predicate FeedActive(s: State) {
    s.queues.waiting > 0 || InFlight(s.running) > 0
  }

  predicate Thaws(s: State, l: Label) {
    l.Main? && s.todo.Do? && s.todo.op == C(Thaw)
  }

  ghost predicate NextInCopy(s: State, l: Label, t: State) {
    Next(s, l, t) && !Thaws(s, l)
  }

  /**
  `parsing` is the number of feeds admitted but not published, plus `completed`, plus what main
  took and has yet to subtract; so a frozen pane has no feed anywhere.
  */
  lemma {:induction false} ParsingCountsFeeds(s: State)
    requires Reachable(s)
    ensures s.content.parsing == s.queues.waiting + InFlight(s.running) + s.output.completed + Taken(s.todo)
    ensures s.content.freeze == Frozen ==> !FeedActive(s) && s.output.completed == 0 && Taken(s.todo) == 0
  {
    ReachableInv(s);
  }

  /** From the moment the pane is frozen until copy mode ends, no feed runs and none writes the surface. */
  lemma {:induction false} FrozenIsSilent(run: seq<State>, labels: seq<Label>, n: nat)
    requires IsRun(NextInCopy, run, labels) && n <= |labels| && Reachable(run[0]) && run[0].content.freeze == Frozen
    ensures run[n].content.freeze == Frozen && !FeedActive(run[n]) && run[n].past.written == run[0].past.written
  {
    ReachableInv(run[0]);
    var inv := (s: State) => Inv(s) && s.content.freeze == Frozen && s.past.written == run[0].past.written;
    forall s, l, t | inv(s) && NextInCopy(s, l, t) ensures inv(t) {
      StepKeepsInv(s, l);
      StaysFrozen(s, l);
    }
    Invariant(NextInCopy, inv, run, labels, n);
  }

  lemma {:induction false} CopyStaysFrozen(s: State, env: Env)
    requires s.todo.Do? && s.todo.op.C? && s.todo.op != C(Thaw) && Modes(s) && s.content.freeze == Frozen
    ensures var t := MainStep(s, env); t.content.freeze == Frozen && t.past.written == s.past.written
  {
  }

  lemma {:induction false} MainStaysFrozen(s: State, env: Env)
    requires s.todo.Do? && !s.todo.op.C?
    ensures var t := MainStep(s, env); t.content.freeze == s.content.freeze && t.past.written == s.past.written
  {
  }

  lemma {:induction false} StaysFrozen(s: State, l: Label)
    requires Enabled(s, l) && Accounted(s) && Silent(s.content) && Modes(s) && s.content.freeze == Frozen && !Thaws(s, l)
    ensures var t := Step(s, l); t.content.freeze == Frozen && t.past.written == s.past.written
  {
    if l.Main? {
      if s.todo.op.C? { CopyStaysFrozen(s, l.env); } else { MainStaysFrozen(s, l.env); }
    }
  }

  // ----- copy mode: the dropped bytes -----

  /** Between the turns of main, `dirty` says exactly whether a feed was refused since the last thaw. */
  lemma {:induction false} DirtyRemembersRefusals(s: State)
    requires Reachable(s) && s.todo == Idle
    ensures s.content.dirty <==> s.past.lost > 0
    ensures s.content.freeze == Off ==> s.past.lost == 0
  {
    ReachableInv(s);
  }

  /**
  The critical section that ends copy mode, from the entering or the frozen state, clears `dirty`
  and leads to a resync exactly when a feed was refused.
  */
  lemma {:induction false} ThawRecovers(s: State, env: Env)
    requires Reachable(s) && Thaws(s, Main(env)) && s.content.freeze != Off
    ensures var t := MainStep(s, env);
            && t.content.freeze == Off && !t.content.dirty && t.view.copyMode == NoCopy
            && t.todo == if s.past.lost > 0 then Do(C(Resync), s.todo.rest) else s.todo.rest
  {
    ReachableInv(s);
  }

  // ----- copy mode: the entry -----

  /** No job, closure or step of main is left. */
  predicate Quiet(s: State) {
    && s.todo == Idle && s.running == NoJob
    && s.queues == Queues(0, 0, [], 0, [])
  }

  /**
  When everything has come to rest and no restore runs, an entry into copy mode is complete exactly
  if the view did not close during a restore that the entry still waited for.
  */
  lemma {:induction false} EntryCompletesExactly(s: State)
    requires Reachable(s) && Quiet(s) && !s.view.restoring
    ensures s.content.freeze == Entering <==> s.past.orphaned
  {
    ReachableInv(s);
  }

  lemma {:induction false} ReachableStep(s: State, l: Label)
    requires Reachable(s) && Enabled(s, l)
    ensures Reachable(Step(s, l))
  {
    var run, labels :| IsRun(Next, run, labels) && Init(run[0]) && run[|labels|] == s;
    var longer, more := run + [Step(s, l)], labels + [l];
    assert IsRun(Next, longer, more) && longer[|more|] == Step(s, l);
  }

  // ----- scroller refreshes -----

  predicate Skips(s: State, l: Label) {
    l.Main? && s.todo.Do? && s.todo.op == O(Capture) && (s.view.disposed || s.scroll.target.Some?)
  }

  ghost predicate NextUnskipped(s: State, l: Label, t: State) {
    Next(s, l, t) && !Skips(s, l)
  }

  /**
  A refresh request is never lost: if no capture met a scroll target or a closed pane, then at rest
  nothing is requested and the applied snapshot was read after the last request.
  */
  lemma {:induction false} RequestsAreServed(run: seq<State>, labels: seq<Label>)
    requires IsRun(NextUnskipped, run, labels) && Init(run[0]) && Quiet(run[|labels|])
    ensures var s := run[|labels|]; !s.output.requested && s.past.applied == s.past.requests
  {
    InitInv(run[0]);
    var inv := (s: State) => Inv(s) && !s.past.skipped;
    forall s, l, t | inv(s) && NextUnskipped(s, l, t) ensures inv(t) {
      StepKeepsInv(s, l);
      OnlyCapturesSkip(s, l);
    }
    Invariant(NextUnskipped, inv, run, labels, |labels|);
  }

  lemma {:induction false} OnlyCapturesSkip(s: State, l: Label)
    requires Enabled(s, l) && !Skips(s, l) && !s.past.skipped
    ensures !Step(s, l).past.skipped
  {
  }

  /** At rest, a request can only be open because a capture was skipped since the last publication began. */
  lemma {:induction false} OpenRequestWasSkipped(s: State)
    requires Reachable(s) && Quiet(s)
    ensures s.output.requested ==> s.past.skipped
    ensures !s.output.requested ==> s.past.applied == s.past.requests
  {
    ReachableInv(s);
  }

  /** `latest` is set exactly while one applyOutputUpdate is posted or about to be posted. */
  lemma {:induction false} LatestMeansPosted(s: State)
    requires Reachable(s)
    ensures s.queues.applies <= 1
    ensures s.output.latest.Some? <==> s.queues.applies == 1 || s.running == PublishPost
    ensures s.queues.applies == 1 ==> s.running != PublishPost
  {
    ReachableInv(s);
  }

  // ----- the scroll target -----

  /** How much one step's output moves the viewport. */
  function OutputEffect(s: State, l: Label): int {
    if l.Queue? && s.running.FeedWrite? && l.env.yes then l.env.position.Distance() - s.scroll.position.Distance() else 0
  }

  /** How much one jump moves the viewport. */
  function JumpEffect(s: State, l: Label): int {
    if l.Jump? then l.position.Distance() - s.scroll.position.Distance() else 0
  }

  function OutputEffects(run: seq<State>, labels: seq<Label>, n: nat): int
    requires n <= |labels| < |run|
  {
    if n == 0 then 0 else OutputEffects(run, labels, n - 1) + OutputEffect(run[n - 1], labels[n - 1])
  }

  function JumpEffects(run: seq<State>, labels: seq<Label>, n: nat): int
    requires n <= |labels| < |run|
  {
    if n == 0 then 0 else JumpEffects(run, labels, n - 1) + JumpEffect(run[n - 1], labels[n - 1])
  }

  /** A positive target, moved with the viewport and clamped at 0, if the feed pinned it. */
  function Carried(pinned: bool, target: Option<real>, moved: int): Option<real> {
    if pinned && target.Some? && target.value > 0.0 then Some(Max(0.0, target.value + moved as real)) else target
  }

  predicate EndsFeed(s: State, l: Label) {
    l.Queue? && s.running.FeedWrite? && !l.env.yes
  }

  /** Steps while a feed is between its two critical sections. */
  ghost predicate NextWithinFeed(s: State, l: Label, t: State) {
    Next(s, l, t) && s.running.FeedWrite? && !EndsFeed(s, l)
  }

  lemma {:induction false} FeedGoesOn(s: State, l: Label, t: State)
    requires NextWithinFeed(s, l, t)
    ensures t.running == FeedWrite(s.running.pin, s.running.caused + OutputEffect(s, l) + JumpEffect(s, l))
  {
  }

  lemma {:induction false} EffectsAddUp(run: seq<State>, labels: seq<Label>, n: nat)
    requires IsRun(NextWithinFeed, run, labels) && n <= |labels| && run[0].running.FeedWrite?
    ensures run[n].running ==
              FeedWrite(run[0].running.pin,
                        run[0].running.caused + OutputEffects(run, labels, n) + JumpEffects(run, labels, n))
  {
    if n > 0 {
      EffectsAddUp(run, labels, n - 1);
      FeedGoesOn(run[n - 1], labels[n - 1], run[n]);
    }
  }

  /** The first section of a feed remembers the viewport exactly when a positive target is set. */
  lemma {:induction false} FeedPins(s: State, env: Env)
    requires s.running == FeedPin
    ensures var t := QueueStep(s, env);
            && t.running.FeedWrite? && t.running.caused == 0
            && (t.running.pin.Some? <==> s.scroll.target.Some? && s.scroll.target.value > 0.0)
  {
  }

  lemma {:induction false} NoJumps(run: seq<State>, labels: seq<Label>, n: nat)
    requires n <= |labels| < |run| && forall i :: 0 <= i < n ==> !labels[i].Jump?
    ensures JumpEffects(run, labels, n) == 0
  {
    if n > 0 {
      NoJumps(run, labels, n - 1);
    }
  }

  /**
  A feed moves a positive scroll target by exactly the distance that its own output moved the
  viewport, clamped at 0, however main snapped or reset the viewport in between; only what main moved
  outside the lock is added. The feed's first section leads from `first` to the start of the run, its
  second from the end of the run to `last`.
  */
  lemma {:induction false} FeedMovesTarget(first: State, pin: Env, run: seq<State>, labels: seq<Label>, end: Env, last: State)
    requires Reachable(first) && first.running == FeedPin
    requires IsRun(NextWithinFeed, run, labels) && run[0] == QueueStep(first, pin)
    requires EndsFeed(run[|labels|], Queue(end)) && last == QueueStep(run[|labels|], end)
    ensures var before := run[|labels|].scroll.target;
            var pinned := first.scroll.target.Some? && first.scroll.target.value > 0.0;
            var moved := OutputEffects(run, labels, |labels|) + JumpEffects(run, labels, |labels|);
            last.scroll.target == Carried(pinned, before, moved)
    ensures (forall i :: 0 <= i < |labels| ==> !labels[i].Jump?) ==> JumpEffects(run, labels, |labels|) == 0
  {
    if forall i :: 0 <= i < |labels| ==> !labels[i].Jump? {
      NoJumps(run, labels, |labels|);
    }
    FeedPins(first, pin);
    EffectsAddUp(run, labels, |labels|);
    StaysPinned(first, pin, run, labels);
    FeedFollows(run[|labels|], end);
  }

  lemma {:induction false} StaysPinned(first: State, pin: Env, run: seq<State>, labels: seq<Label>)
    requires Reachable(first) && first.running == FeedPin
    requires IsRun(NextWithinFeed, run, labels) && run[0] == QueueStep(first, pin)
    ensures Pinned(run[|labels|])
  {
    ReachableInv(first);
    assert Step(first, Queue(pin)) == run[0];
    StepKeepsInv(first, Queue(pin));
    Weaken(NextWithinFeed, Next, run, labels);
    RunKeepsInv(run, labels, |labels|);
  }

  lemma {:induction false} FeedFollows(s: State, end: Env)
    requires Pinned(s) && EndsFeed(s, Queue(end))
    ensures QueueStep(s, end).scroll.target == Carried(s.running.pin.Some?, s.scroll.target, s.running.caused)
  {
  }

  ghost predicate NextUnasked(s: State, l: Label, t: State) {
    Next(s, l, t) && !(l.Main? && s.todo.op.S? && s.todo.op.scroll.SetTarget?)
  }

  /** A cleared target stays cleared until the user asks for a distance again. */
  lemma {:induction false} ClearedStaysCleared(run: seq<State>, labels: seq<Label>, n: nat)
    requires IsRun(NextUnasked, run, labels) && n <= |labels| && run[0].scroll.target == None
    ensures run[n].scroll.target == None
  {
    var inv := (s: State) => s.scroll.target == None;
    forall s, l, t | inv(s) && NextUnasked(s, l, t) ensures inv(t) {
      OnlyRequestsSetTarget(s, l, t);
    }
    Invariant(NextUnasked, inv, run, labels, n);
  }

  lemma {:induction false} OnlyRequestsSetTarget(s: State, l: Label, t: State)
    requires NextUnasked(s, l, t) && s.scroll.target == None
    ensures t.scroll.target == None
  {
  }

  // ----- the values of the target -----

  /** Distances that main is about to set. */
  predicate Wants(t: Todo) {
    t.Do? ==> (t.op.S? && t.op.scroll.SetTarget? ==> t.op.scroll.distance >= 0.0) && Wants(t.rest)
  }

  predicate NonNegative(s: State) {
    (s.scroll.target.Some? ==> s.scroll.target.value >= 0.0) && Wants(s.todo)
  }

  lemma {:induction false} NonNegativeKeptByScroll(s: State, env: Env)
    requires s.todo.Do? && s.todo.op.S? && NonNegative(s)
    ensures NonNegative(MainStep(s, env))
  {
  }

  lemma {:induction false} NonNegativeKept(s: State, l: Label)
    requires Enabled(s, l) && NonNegative(s)
    ensures NonNegative(Step(s, l))
  {
    if l.Main? && s.todo.op.S? {
      NonNegativeKeptByScroll(s, l.env);
    }
  }

  /** No request, feed, snap or reset ever makes the target negative. */
  lemma {:induction false} TargetIsNeverNegative(s: State)
    requires Reachable(s)
    ensures s.scroll.target.Some? ==> s.scroll.target.value >= 0.0
  {
    var run, labels :| IsRun(Next, run, labels) && Init(run[0]) && run[|labels|] == s;
    forall s, l, t | NonNegative(s) && Next(s, l, t) ensures NonNegative(t) {
      NonNegativeKept(s, l);
    }
    Invariant(Next, NonNegative, run, labels, |labels|);
  }

  /** A snap moves the target to the nearest whole row, and never sets one. */
  lemma {:induction false} SnapAligns(s: State, env: Env)
    requires Enabled(s, Main(env)) && s.todo.op == S(SnapSection)
    ensures var t := MainStep(s, env);
            && (t.scroll.target.Some? <==> s.scroll.target.Some?)
            && (t.scroll.target.Some? ==> NearestRow(s.scroll.target.value, t.scroll.target.value))
  {
    if s.scroll.target.Some? {
      RoundedIsNearest(s.scroll.target.value);
    }
  }

  // ----- scroll jobs -----

  /** At most one scroll job is outstanding, and its end carries the revision that `scrollPending` holds. */
  lemma {:induction false} CompletionMatches(s: State)
    requires Reachable(s)
    ensures s.queues.dones != [] ==> s.scroll.pending == Some(s.queues.dones[0].revision)
    ensures |s.queues.scrolls| + |s.queues.dones| + (if ScrollRuns(s.running) then 1 else 0)
            == (if s.scroll.pending.Some? then 1 else 0)
  {
    ReachableInv(s);
  }

  /**
  Scroll work is coalesced without loss: at rest the presented distance is the target, and it is the
  distance that the surface accepted last.
  */
  lemma {:induction false} ScrollSettles(s: State)
    requires Reachable(s) && Quiet(s) && !s.past.refused
    ensures s.scroll.shown == s.scroll.target && s.scroll.pending == None
    ensures s.scroll.target.Some? ==> s.past.placed == s.scroll.target
  {
    ReachableInv(s);
  }

  /** A job that a newer intent has overtaken presents nothing; the work is queued again. */
  lemma {:induction false} OvertakenJobsPresentNothing(s: State)
    requires Reachable(s) && s.todo == Idle && s.queues.dones != []
    ensures var t := Step(s, RunDone);
            if s.queues.dones[0].revision == s.scroll.intent && s.queues.dones[0].moved.Some?
            then t.scroll.shown == s.queues.dones[0].distance && t.scroll.geometry == s.queues.dones[0].moved.value
            else t.scroll.shown == s.scroll.shown && t.scroll.geometry == s.scroll.geometry
    ensures s.queues.dones[0].revision != s.scroll.intent ==> Step(s, RunDone).todo == Do(S(QueueScroll), Idle)
  {
    ReachableInv(s);
  }

  // ----- requests -----

  /**
  A request sets the wished distance, or the nearest end of the history, and changes nothing exactly
  if that is the distance before. The history is the surface's, or that of the position the wish was made from.
  */
  lemma {:induction false} RequestSetsWish(s: State, env: Env)
    requires s.todo.Do? && s.todo.op == S(RequestScroll)
    ensures var t := MainStep(s, env);
            var from := if env.yes then env.position else s.scroll.position;
            var before := if s.scroll.target.Some? then s.scroll.target.value else (from.history - from.offset) as real;
            var wish := Within(env.wanted, from.history);
            && (wish == before ==> t == s.(todo := s.todo.rest))
            && (wish != before ==>
                  t.todo == Do(S(SetTarget(wish)), s.todo.rest) && t.scroll == s.scroll.(intent := s.scroll.intent + 1))
  {
  }
}
