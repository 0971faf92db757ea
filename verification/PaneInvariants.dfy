/**
What every step of the pane protocol keeps. There are eighteen parts. Main's turn: `Shaped` says which
steps stand first in the rest of it, `Guarded` and `Entered` what an entry into copy mode still has
ahead. Counts: `Accounted` is the account of `parsing`, `Silent` keeps it at 0 while frozen, `Posted` and
`Captures` count the outstanding applications and captures. Refused feeds and requests: `Recovered`,
`Stamped` and `Pursued` keep them remembered until they are served, and `Modes` keeps copy mode and the
freeze in agreement. Scrolling: `Coalesced`, `Settling`, `Answered` and `Pinned` are about one job, the
target on its way and the movement that a feed causes, and `Overtaken`, `Delivered` and `Placed` about
what a job presents and where the surface was last moved.

Each part is kept by lemmas of its own, one for main's steps and one for the other actors where the
proof is too large for both.
*/
module PaneInvariants {
  import opened Wrappers
  import opened PaneProtocol

  // ----- what main's remaining turn promises -----

  /**
  `Entry` ops finish the entry into copy mode, `Leave` ops may end it, `ToComplete` ops lead to
  completeEntry, `ToCapture` ops to captureScrollerIfNeeded, and `ToQueue` ops queue a scroll job
  unless the target is presented.
  */
  datatype Kind = Entry | Leave | ToComplete | ToCapture | ToQueue

  /** The steps of applyOutputUpdate that still end in completeEntry and captureScrollerIfNeeded. */
  predicate Adopting(op: Op) {
    op.O? && (op.output.Adopt? || op.output.AfterAdopt? || op.output.CheckCaptured? || op.output.SetCaptured?)
  }

  predicate Is(op: Op, k: Kind) {
    match k
    case Entry => op == C(EnterCursor) || op == C(SelectCursor)
    case Leave => op == C(EndCopy) || op == C(Thaw) || op == C(StartCopy) || op == V(Resized) || op == V(BeginResize)
    case ToComplete => op == C(CompleteEntry) || op == V(Restored) || op == V(AfterRestore) || Adopting(op)
    case ToCapture => Adopting(op) || op == O(Capture) || op == O(CaptureSection)
    case ToQueue =>
      || (op.O? && (op.output.Adopt? || op.output.AfterAdopt?))
      || (op.S? && (op.scroll.QueueScroll? || op.scroll.CompareTarget? || op.scroll.RoundTarget? || op.scroll.SetTarget?))
      || (op.V? && op.view.FinishUpdate?)
  }

  predicate Has(t: Todo, k: Kind) {
    t.Do? && (Is(t.op, k) || Has(t.rest, k))
  }

  /** Ops that only ever stand at the front of main's turn. */
  predicate Frontal(op: Op) {
    match op
    case O(o) => o.Subtract? || o.Adopt? || o.MarkRequested?
    case S(o) => o.ClearTarget? || o.CompareTarget? || o.SnapSection? || o.ResetSection? || o.Present?
    case C(o) => o.Resync?
    case V(_) => false
  }

  predicate Plain(t: Todo) {
    t.Do? ==> !Frontal(t.op) && Plain(t.rest)
  }

  predicate Shaped(t: Todo) {
    t.Do? ==>
      if t.op.O? && t.op.output.Subtract? then
        || (t.rest == Idle && t.op.output.count == 0)
        || (t.rest.Do? && t.rest.op.O? && t.rest.op.output.Adopt? && t.rest.rest == Idle)
      else if t.op == O(MarkRequested) then t.rest.Do? && t.rest.op == O(Capture) && Plain(t.rest.rest)
      else if t.op == S(ClearTarget) then
        t.rest.Do? && (t.rest.op == S(ResetSection) || t.rest.op == S(QueueScroll)) && Plain(t.rest.rest)
      else Plain(t.rest)
  }

  /** Feeds that main took from `completed` and has yet to subtract from `parsing`. */
  function Taken(t: Todo): nat {
    if t.Do? && t.op.O? && t.op.output.Subtract? then t.op.output.count else 0
  }

  /** The snapshot that main took and has yet to apply. */
  function Held(t: Todo): Option<Update> {
    if t.Do? && t.op.O? && t.op.output.Adopt? then Some(t.op.output.update)
    else if Taking(t) then Some(t.rest.op.output.update)
    else None
  }

  predicate Taking(t: Todo) {
    t.Do? && t.op.O? && t.op.output.Subtract? && t.rest.Do? && t.rest.op.O? && t.rest.op.output.Adopt?
  }

  predicate Resyncing(t: Todo) {
    t.Do? && t.op == C(Resync)
  }

  lemma {:induction false} HasUnfolds(k: Kind)
    ensures forall op, rest :: Has(Do(op, rest), k) <==> Is(op, k) || Has(rest, k)
  {
  }

  /** What main has ahead after the step it takes now stays ahead. */
  lemma {:induction false} RestKept(s: State, env: Env, k: Kind)
    requires s.todo.Do? && Has(s.todo.rest, k)
    ensures Has(MainStep(s, env).todo, k)
  {
    HasUnfolds(k);
  }

  /** Outside applyOutputUpdate, main holds nothing that it took from `outputUpdate`. */
  lemma {:induction false} NothingTaken(s: State, env: Env)
    requires s.todo.Do? && !s.todo.op.O? && Shaped(s.todo)
    ensures var t := MainStep(s, env).todo;
            Taken(t) == 0 && Held(t) == None && (Resyncing(t) ==> s.todo.op == C(Thaw) && s.content.dirty)
  {
  }

  // ----- the invariant, by concern -----

  /** A feed that the queue runs and that has not published yet. */
  function InFlight(r: Running): nat {
    if r.FeedPin? || r.FeedWrite? || (Publishing(r) && r.feed) then 1 else 0
  }

  predicate Publishing(r: Running) {
    r.Publish? || r.PublishRead? || r.PublishStore?
  }

  /** `parsing` counts exactly the feeds that were admitted and that main has not settled. */
  predicate Accounted(s: State) {
    s.content.parsing == s.queues.waiting + InFlight(s.running) + s.output.completed + Taken(s.todo)
  }

  predicate Silent(c: Content) {
    c.freeze == Frozen ==> c.parsing == 0
  }

  /** A snapshot waits in `latest` exactly while one applyOutputUpdate is outstanding. */
  predicate Posted(s: State) {
    && s.queues.applies + (if s.running == PublishPost then 1 else 0) == (if s.output.latest.Some? then 1 else 0)
    && (s.output.completed > 0 ==> s.output.latest.Some?)
  }

  predicate Captures(s: State) {
    s.queues.captures + (if Publishing(s.running) && !s.running.feed then 1 else 0) == (if s.output.capturing then 1 else 0)
  }

  /** Nothing that ends copy mode runs before the end of an entry. */
  predicate EntryLast(t: Todo) {
    t.Do? ==> EntryLast(t.rest) && (Is(t.op, Entry) || Is(t.op, Leave) ==> !Has(t.rest, Entry))
  }

  predicate Modes(s: State) {
    && (s.view.copyMode == NoCopy <==> s.content.freeze == Off)
    && (s.view.copyMode == Selecting ==> s.content.freeze == Frozen)
  }

  predicate Guarded(s: State) {
    && (Has(s.todo, Entry) ==> s.view.copyMode == EnteringCopy && s.content.freeze == Frozen)
    && EntryLast(s.todo)
  }

  /** Refused feeds are remembered by `dirty`, or by the resync that main is about to ask for. */
  predicate Recovered(s: State) {
    && (s.content.dirty ==> s.content.freeze != Off)
    && (Resyncing(s.todo) ==> s.content.freeze == Off)
    && (s.past.lost > 0 <==> s.content.dirty || Resyncing(s.todo))
  }

  function Latest(s: State): nat {
    if s.output.latest.Some? then s.output.latest.value.stamp
    else if Held(s.todo).Some? then Held(s.todo).value.stamp
    else s.past.applied
  }

  /** The stamp of the newest snapshot that exists. */
  function Newest(s: State): nat {
    if s.running.PublishStore? then s.running.update.stamp else Latest(s)
  }

  predicate Stamped(s: State) {
    && s.past.applied <= Latest(s) <= Newest(s) <= s.past.requests
    && (Held(s.todo).Some? ==> s.past.applied <= Held(s.todo).value.stamp <= Latest(s))
    && (s.output.requested || s.running.PublishRead? || Newest(s) == s.past.requests)
  }

  predicate Pursued(s: State) {
    s.output.requested ==>
      || s.output.latest.Some? || s.output.capturing || s.running.Publish?
      || Has(s.todo, ToCapture) || s.past.skipped
  }

  /** An entry into copy mode waits only for feeds, for a restore, or for a step that main has ahead. */
  predicate Entered(s: State) {
    && (s.past.orphaned ==> s.content.freeze == Entering)
    && (s.content.freeze == Entering && !s.view.restoring && !s.past.orphaned ==>
          s.content.parsing > 0 || Has(s.todo, ToComplete))
  }

  predicate ScrollRuns(r: Running) {
    r.ScrollRead? || r.ScrollMove? || r.ScrollPost?
  }

  function JobRevision(r: Running): int
    requires ScrollRuns(r)
  {
    if r.ScrollPost? then r.done.revision else r.revision
  }

  /** At most one scroll job is anywhere, and it carries the revision in `scrollPending`. */
  predicate Coalesced(pending: Option<int>, scrolls: seq<int>, dones: seq<Done>, r: Running) {
    if pending == None then scrolls == [] && dones == [] && !ScrollRuns(r)
    else if ScrollRuns(r) then scrolls == [] && dones == [] && JobRevision(r) == pending.value
    else if scrolls == [] then |dones| == 1 && dones[0].revision == pending.value
    else scrolls == [pending.value] && dones == []
  }

  /** A feed moved the target and its publication has yet to reach main. */
  predicate FeedReports(s: State) {
    s.output.latest.Some? || (Publishing(s.running) && s.running.feed)
  }

  /** The presented distance is the target, or becomes it in the next steps of main. */
  predicate HeadAgrees(t: Todo, c: Scroll) {
    if t.Do? && t.op == S(ClearTarget) then true
    else if t.Do? && t.op == S(ResetSection) then c.target == None
    else if t.Do? && t.op.S? && t.op.scroll.Present? then c.target == t.op.scroll.applied
    else c.target == c.shown
  }

  predicate Settling(s: State) {
    !s.past.refused ==>
      s.scroll.pending.Some? || FeedReports(s) || Has(s.todo, ToQueue) || HeadAgrees(s.todo, s.scroll)
  }

  predicate Answered(s: State) {
    !s.past.refused ==>
      && (s.running.ScrollPost? ==> s.running.done.moved.Some?)
      && (forall d :: d in s.queues.dones ==> d.moved.Some?)
      && (s.todo.Do? && s.todo.op.S? && s.todo.op.scroll.CompareTarget? ==> s.scroll.shown == s.todo.op.scroll.applied)
  }

  /** Between its two sections, a feed can tell its own effect from main's scrolling. */
  predicate Pinned(s: State) {
    s.running.FeedWrite? && s.running.pin.Some? ==>
      s.scroll.position.Distance() - s.running.pin.value.distance
      == s.scroll.adjustment - s.running.pin.value.adjustment + s.running.caused
  }

  /** Main has decided to move the viewport itself and has not done so. */
  predicate Moving(t: Todo) {
    t.Do? && t.op.S? && (t.op.scroll.SnapSection? || t.op.scroll.ResetSection?
                         || (t.op.scroll.ClearTarget? && t.rest.Do? && t.rest.op == S(ResetSection)))
  }

  /** The outstanding scroll job carries an intent that main has not replaced. */
  predicate Fresh(c: Scroll) {
    c.pending == Some(c.intent)
  }

  /** No job carries an intent that is yet to come, and none that main is about to overtake. */
  predicate Overtaken(s: State) {
    && (s.scroll.pending.Some? ==> s.scroll.pending.value <= s.scroll.intent)
    && (Moving(s.todo) ==> !Fresh(s.scroll))
  }

  predicate Accepted(d: Done) {
    d.distance.Some? && d.moved.Some?
  }

  /** What a job moved the surface to that nobody overtook is where the surface still is asked to be. */
  predicate Delivered(s: State) {
    Fresh(s.scroll) ==>
      && (s.running.ScrollPost? && Accepted(s.running.done) ==> s.past.placed == s.running.done.distance)
      && (s.queues.dones != [] && Accepted(s.queues.dones[0]) ==> s.past.placed == s.queues.dones[0].distance)
  }

  /** The surface has been asked for the distance that is presented, unless a job is on its way. */
  predicate Placed(s: State) {
    s.past.refused || s.scroll.pending.Some? || (s.todo.Do? && s.todo.op == S(QueueScroll))
    || (if s.todo.Do? && s.todo.op.S? && s.todo.op.scroll.Present?
        then s.todo.op.scroll.applied.Some? ==> s.past.placed == s.todo.op.scroll.applied
        else s.scroll.shown.Some? ==> s.past.placed == s.scroll.shown)
  }

  predicate Inv(s: State) {
    && Shaped(s.todo)
    && Accounted(s)
    && Silent(s.content)
    && Posted(s)
    && Captures(s)
    && Modes(s)
    && Guarded(s)
    && Recovered(s)
    && Stamped(s)
    && Pursued(s)
    && Entered(s)
    && Coalesced(s.scroll.pending, s.queues.scrolls, s.queues.dones, s.running)
    && Settling(s)
    && Answered(s)
    && Pinned(s)
    && Overtaken(s)
    && Delivered(s)
    && Placed(s)
  }

  lemma {:induction false} InitInv(s: State)
    requires Init(s)
    ensures Inv(s)
  {
  }

  lemma {:induction false} ShapedKeptByOutput(s: State, env: Env)
    requires s.todo.Do? && s.todo.op.O? && Shaped(s.todo)
    ensures Shaped(MainStep(s, env).todo)
  {
  }

  lemma {:induction false} ShapedKeptByScroll(s: State, env: Env)
    requires s.todo.Do? && s.todo.op.S? && Shaped(s.todo)
    ensures Shaped(MainStep(s, env).todo)
  {
  }

  lemma {:induction false} ShapedKeptByCopy(s: State, env: Env)
    requires s.todo.Do? && s.todo.op.C? && Shaped(s.todo)
    ensures Shaped(MainStep(s, env).todo)
  {
  }

  lemma {:induction false} ShapedKeptByView(s: State, env: Env)
    requires s.todo.Do? && s.todo.op.V? && Shaped(s.todo)
    ensures Shaped(MainStep(s, env).todo)
  {
  }

  lemma {:induction false} ShapedKeptByOthers(s: State, l: Label)
    requires Enabled(s, l) && !l.Main? && Shaped(s.todo) && Posted(s)
    ensures Shaped(Step(s, l).todo)
  {
  }

  lemma {:induction false} ShapedKept(s: State, l: Label)
    requires Enabled(s, l) && Shaped(s.todo) && Posted(s)
    ensures Shaped(Step(s, l).todo)
  {
    if !l.Main? { ShapedKeptByOthers(s, l); }
    else if s.todo.op.O? { ShapedKeptByOutput(s, l.env); }
    else if s.todo.op.S? { ShapedKeptByScroll(s, l.env); }
    else if s.todo.op.C? { ShapedKeptByCopy(s, l.env); }
    else { ShapedKeptByView(s, l.env); }
  }

  lemma {:induction false} AccountedKeptByOutput(s: State, env: Env)
    requires s.todo.Do? && s.todo.op.O? && Shaped(s.todo) && Accounted(s)
    ensures Accounted(MainStep(s, env))
  {
  }

  lemma {:induction false} AccountedKeptByMain(s: State, env: Env)
    requires s.todo.Do? && Shaped(s.todo) && Posted(s) && Accounted(s)
    ensures Accounted(MainStep(s, env))
  {
    if s.todo.op.O? { AccountedKeptByOutput(s, env); } else { NothingTaken(s, env); }
  }

  lemma {:induction false} AccountedKeptByOthers(s: State, l: Label)
    requires Enabled(s, l) && !l.Main? && Shaped(s.todo) && Posted(s) && Accounted(s)
    ensures var t := Step(s, l); Accounted(t)
  {
  }

  lemma {:induction false} SilentKept(s: State, l: Label)
    requires Enabled(s, l) && Shaped(s.todo) && Posted(s) && Accounted(s) && Silent(s.content)
    ensures var t := Step(s, l); Silent(t.content)
  {
  }

  lemma {:induction false} PostedKept(s: State, l: Label)
    requires Enabled(s, l) && Posted(s)
    ensures var t := Step(s, l); Posted(t)
  {
  }

  lemma {:induction false} CapturesKept(s: State, l: Label)
    requires Enabled(s, l) && Captures(s)
    ensures var t := Step(s, l); Captures(t)
  {
  }

  lemma {:induction false} ModesKept(s: State, l: Label)
    requires Enabled(s, l) && Guarded(s) && Modes(s)
    ensures var t := Step(s, l); Modes(t)
  {
    if l.Main? && s.todo.op == C(SelectCursor) {
      assert Has(s.todo, Entry);
    }
  }

  lemma {:induction false} GuardedKeptByAdoption(s: State, env: Env)
    requires s.todo.Do? && Adopting(s.todo.op) && Modes(s) && Guarded(s)
    ensures var t := MainStep(s, env); Guarded(t)
  {
    HasUnfolds(Entry);
  }

  lemma {:induction false} GuardedKeptByRequests(s: State, env: Env)
    requires s.todo.Do? && s.todo.op.O? && !Adopting(s.todo.op) && Modes(s) && Guarded(s)
    ensures var t := MainStep(s, env); Guarded(t)
  {
    HasUnfolds(Entry);
  }

  lemma {:induction false} GuardedKeptByOutput(s: State, env: Env)
    requires s.todo.Do? && s.todo.op.O? && Modes(s) && Guarded(s)
    ensures var t := MainStep(s, env); Guarded(t)
  {
    if Adopting(s.todo.op) { GuardedKeptByAdoption(s, env); } else { GuardedKeptByRequests(s, env); }
  }

  lemma {:induction false} GuardedKeptByScroll(s: State, env: Env)
    requires s.todo.Do? && s.todo.op.S? && Modes(s) && Guarded(s)
    ensures Guarded(MainStep(s, env))
  {
    HasUnfolds(Entry);
  }

  lemma {:induction false} GuardedKeptByCopy(s: State, env: Env)
    requires s.todo.Do? && s.todo.op.C? && Modes(s) && Guarded(s)
    ensures Guarded(MainStep(s, env))
  {
    HasUnfolds(Entry);
  }

  /** updateScroller and updateAlternate. */
  predicate Updating(o: ViewOp) {
    o.ReadScroller? || o.UpdateScroller? || o.SwitchAlternate? || o.SetAlternate? || o.FinishUpdate?
  }

  lemma {:induction false} GuardedKeptByUpdates(s: State, env: Env)
    requires s.todo.Do? && s.todo.op.V? && Updating(s.todo.op.view) && Modes(s) && Guarded(s)
    ensures Guarded(MainStep(s, env))
  {
    HasUnfolds(Entry);
  }

  lemma {:induction false} GuardedKeptByTurns(s: State, env: Env)
    requires s.todo.Do? && s.todo.op.V? && !Updating(s.todo.op.view) && Modes(s) && Guarded(s)
    ensures Guarded(MainStep(s, env))
  {
    HasUnfolds(Entry);
  }

  lemma {:induction false} GuardedKeptByView(s: State, env: Env)
    requires s.todo.Do? && s.todo.op.V? && Modes(s) && Guarded(s)
    ensures Guarded(MainStep(s, env))
  {
    if Updating(s.todo.op.view) { GuardedKeptByUpdates(s, env); } else { GuardedKeptByTurns(s, env); }
  }

  lemma {:induction false} GuardedKeptByOthers(s: State, l: Label)
    requires Enabled(s, l) && !l.Main? && Modes(s) && Guarded(s)
    ensures var t := Step(s, l); Guarded(t)
  {
    HasUnfolds(Entry);
  }

  lemma {:induction false} RecoveredKeptByOutput(s: State, env: Env)
    requires s.todo.Do? && s.todo.op.O? && Shaped(s.todo) && Modes(s) && Recovered(s)
    ensures Recovered(MainStep(s, env))
  {
  }

  lemma {:induction false} RecoveredKeptByMain(s: State, env: Env)
    requires s.todo.Do? && !s.todo.op.O? && Shaped(s.todo) && Modes(s) && Recovered(s)
    ensures Recovered(MainStep(s, env))
  {
    NothingTaken(s, env);
  }

  lemma {:induction false} RecoveredKeptByOthers(s: State, l: Label)
    requires Enabled(s, l) && !l.Main? && Modes(s) && Recovered(s)
    ensures Recovered(Step(s, l))
  {
  }

  lemma {:induction false} RecoveredKept(s: State, l: Label)
    requires Enabled(s, l) && Shaped(s.todo) && Modes(s) && Recovered(s)
    ensures Recovered(Step(s, l))
  {
    if !l.Main? { RecoveredKeptByOthers(s, l); }
    else if s.todo.op.O? { RecoveredKeptByOutput(s, l.env); }
    else { RecoveredKeptByMain(s, l.env); }
  }

  lemma {:induction false} StampedKeptByOutput(s: State, env: Env)
    requires s.todo.Do? && s.todo.op.O? && Shaped(s.todo) && Stamped(s)
    ensures var t := MainStep(s, env); Stamped(t)
  {
  }

  lemma {:induction false} StampedKeptByMain(s: State, env: Env)
    requires s.todo.Do? && !s.todo.op.O? && Shaped(s.todo) && Stamped(s)
    ensures var t := MainStep(s, env); Stamped(t)
  {
    NothingTaken(s, env);
  }

  lemma {:induction false} StampedKeptByQueue(s: State, env: Env)
    requires s.running != NoJob && Stamped(s)
    ensures Stamped(QueueStep(s, env))
  {
  }

  lemma {:induction false} StampedKeptByOthers(s: State, l: Label)
    requires Enabled(s, l) && !l.Main? && Shaped(s.todo) && Posted(s) && Stamped(s)
    ensures Stamped(Step(s, l))
  {
    if l.Queue? {
      StampedKeptByQueue(s, l.env);
    }
  }

  lemma {:induction false} PursuedKeptByOutput(s: State, env: Env)
    requires s.todo.Do? && s.todo.op.O? && Shaped(s.todo) && Posted(s) && Captures(s) && Pursued(s)
    ensures Pursued(MainStep(s, env))
  {
    if Has(s.todo.rest, ToCapture) {
      RestKept(s, env, ToCapture);
    } else {
      HasUnfolds(ToCapture);
    }
  }

  lemma {:induction false} PursuedKeptByScroll(s: State, env: Env)
    requires s.todo.Do? && s.todo.op.S? && Shaped(s.todo) && Posted(s) && Captures(s) && Pursued(s)
    ensures Pursued(MainStep(s, env))
  {
    if Has(s.todo.rest, ToCapture) {
      RestKept(s, env, ToCapture);
    } else {
      HasUnfolds(ToCapture);
    }
  }

  lemma {:induction false} PursuedKeptByCopy(s: State, env: Env)
    requires s.todo.Do? && s.todo.op.C? && Shaped(s.todo) && Posted(s) && Captures(s) && Pursued(s)
    ensures Pursued(MainStep(s, env))
  {
    if Has(s.todo.rest, ToCapture) {
      RestKept(s, env, ToCapture);
    } else {
      HasUnfolds(ToCapture);
    }
  }

  lemma {:induction false} PursuedKeptByView(s: State, env: Env)
    requires s.todo.Do? && s.todo.op.V? && Shaped(s.todo) && Posted(s) && Captures(s) && Pursued(s)
    ensures Pursued(MainStep(s, env))
  {
    if Has(s.todo.rest, ToCapture) {
      RestKept(s, env, ToCapture);
    } else {
      HasUnfolds(ToCapture);
    }
  }

  lemma {:induction false} PursuedKeptByOthers(s: State, l: Label)
    requires Enabled(s, l) && !l.Main? && Shaped(s.todo) && Posted(s) && Captures(s) && Pursued(s)
    ensures Pursued(Step(s, l))
  {
    HasUnfolds(ToCapture);
  }

  lemma {:induction false} PursuedKept(s: State, l: Label)
    requires Enabled(s, l) && Shaped(s.todo) && Posted(s) && Captures(s) && Pursued(s)
    ensures Pursued(Step(s, l))
  {
    if !l.Main? { PursuedKeptByOthers(s, l); }
    else if s.todo.op.O? { PursuedKeptByOutput(s, l.env); }
    else if s.todo.op.S? { PursuedKeptByScroll(s, l.env); }
    else if s.todo.op.C? { PursuedKeptByCopy(s, l.env); }
    else { PursuedKeptByView(s, l.env); }
  }

  lemma {:induction false} CoalescedKept(s: State, l: Label)
    requires Enabled(s, l) && Coalesced(s.scroll.pending, s.queues.scrolls, s.queues.dones, s.running)
    ensures var t := Step(s, l); Coalesced(t.scroll.pending, t.queues.scrolls, t.queues.dones, t.running)
  {
  }

  lemma {:induction false} EnteredKeptByCopy(s: State, env: Env)
    requires s.todo.Do? && s.todo.op.C? && Accounted(s) && Modes(s) && Entered(s)
    ensures var t := MainStep(s, env); Entered(t)
  {
    HasUnfolds(ToComplete);
  }

  lemma {:induction false} EnteredKeptByOutput(s: State, env: Env)
    requires s.todo.Do? && s.todo.op.O? && Shaped(s.todo) && Accounted(s) && Modes(s) && Entered(s)
    ensures Entered(MainStep(s, env))
  {
    if Has(s.todo.rest, ToComplete) {
      RestKept(s, env, ToComplete);
    } else {
      HasUnfolds(ToComplete);
    }
  }

  lemma {:induction false} EnteredKeptByScroll(s: State, env: Env)
    requires s.todo.Do? && s.todo.op.S? && Shaped(s.todo) && Accounted(s) && Modes(s) && Entered(s)
    ensures Entered(MainStep(s, env))
  {
    if Has(s.todo.rest, ToComplete) {
      RestKept(s, env, ToComplete);
    } else {
      HasUnfolds(ToComplete);
    }
  }

  lemma {:induction false} EnteredKeptByUpdates(s: State, env: Env)
    requires s.todo.Do? && s.todo.op.V? && Updating(s.todo.op.view) && Shaped(s.todo) && Accounted(s) && Modes(s) && Entered(s)
    ensures Entered(MainStep(s, env))
  {
    if Has(s.todo.rest, ToComplete) {
      RestKept(s, env, ToComplete);
    } else {
      HasUnfolds(ToComplete);
    }
  }

  lemma {:induction false} EnteredKeptByTurns(s: State, env: Env)
    requires s.todo.Do? && s.todo.op.V? && !Updating(s.todo.op.view) && Shaped(s.todo) && Accounted(s) && Modes(s) && Entered(s)
    ensures Entered(MainStep(s, env))
  {
    if Has(s.todo.rest, ToComplete) {
      RestKept(s, env, ToComplete);
    } else {
      HasUnfolds(ToComplete);
    }
  }

  lemma {:induction false} EnteredKeptByView(s: State, env: Env)
    requires s.todo.Do? && s.todo.op.V? && Shaped(s.todo) && Accounted(s) && Modes(s) && Entered(s)
    ensures Entered(MainStep(s, env))
  {
    if Updating(s.todo.op.view) { EnteredKeptByUpdates(s, env); } else { EnteredKeptByTurns(s, env); }
  }

  lemma {:induction false} EnteredKeptByMain(s: State, env: Env)
    requires s.todo.Do? && !s.todo.op.C? && Shaped(s.todo) && Accounted(s) && Modes(s) && Entered(s)
    ensures Entered(MainStep(s, env))
  {
    if s.todo.op.O? { EnteredKeptByOutput(s, env); }
    else if s.todo.op.S? { EnteredKeptByScroll(s, env); }
    else { EnteredKeptByView(s, env); }
  }

  lemma {:induction false} EnteredKeptByOthers(s: State, l: Label)
    requires Enabled(s, l) && !l.Main? && Posted(s) && Accounted(s) && Modes(s) && Entered(s)
    ensures var t := Step(s, l); Entered(t)
  {
    HasUnfolds(ToComplete);
  }

  lemma {:induction false} SettlingKeptByScroll(s: State, env: Env)
    requires s.todo.Do? && s.todo.op.S? && Shaped(s.todo) && Answered(s) && Settling(s)
    ensures var t := MainStep(s, env); Settling(t)
  {
    HasUnfolds(ToQueue);
  }

  lemma {:induction false} SettlingKeptByOutput(s: State, env: Env)
    requires s.todo.Do? && s.todo.op.O? && Shaped(s.todo) && Settling(s)
    ensures Settling(MainStep(s, env))
  {
    if Has(s.todo.rest, ToQueue) {
      RestKept(s, env, ToQueue);
    } else {
      HasUnfolds(ToQueue);
    }
  }

  lemma {:induction false} SettlingKeptByCopy(s: State, env: Env)
    requires s.todo.Do? && s.todo.op.C? && Shaped(s.todo) && Settling(s)
    ensures Settling(MainStep(s, env))
  {
    if Has(s.todo.rest, ToQueue) {
      RestKept(s, env, ToQueue);
    } else {
      HasUnfolds(ToQueue);
    }
  }

  lemma {:induction false} SettlingKeptByView(s: State, env: Env)
    requires s.todo.Do? && s.todo.op.V? && Shaped(s.todo) && Settling(s)
    ensures Settling(MainStep(s, env))
  {
    if Has(s.todo.rest, ToQueue) {
      RestKept(s, env, ToQueue);
    } else {
      HasUnfolds(ToQueue);
    }
  }

  lemma {:induction false} SettlingKeptByMain(s: State, env: Env)
    requires s.todo.Do? && !s.todo.op.S? && Shaped(s.todo) && Settling(s)
    ensures Settling(MainStep(s, env))
  {
    if s.todo.op.O? { SettlingKeptByOutput(s, env); }
    else if s.todo.op.C? { SettlingKeptByCopy(s, env); }
    else { SettlingKeptByView(s, env); }
  }

  lemma {:induction false} SettlingKeptByOthers(s: State, l: Label)
    requires Enabled(s, l) && !l.Main? && Shaped(s.todo) && Posted(s) && Answered(s) && Settling(s)
    ensures var t := Step(s, l); Settling(t)
  {
    HasUnfolds(ToQueue);
  }

  lemma {:induction false} AnsweredKeptByOutput(s: State, env: Env)
    requires s.todo.Do? && s.todo.op.O? && Shaped(s.todo) && Answered(s)
    ensures Answered(MainStep(s, env))
  {
  }

  lemma {:induction false} AnsweredKeptByScroll(s: State, env: Env)
    requires s.todo.Do? && s.todo.op.S? && Shaped(s.todo) && Answered(s)
    ensures Answered(MainStep(s, env))
  {
  }

  lemma {:induction false} AnsweredKeptByCopy(s: State, env: Env)
    requires s.todo.Do? && s.todo.op.C? && Shaped(s.todo) && Answered(s)
    ensures Answered(MainStep(s, env))
  {
  }

  lemma {:induction false} AnsweredKeptByView(s: State, env: Env)
    requires s.todo.Do? && s.todo.op.V? && Shaped(s.todo) && Answered(s)
    ensures Answered(MainStep(s, env))
  {
  }

  lemma {:induction false} AnsweredKeptByOthers(s: State, l: Label)
    requires Enabled(s, l) && !l.Main? && Shaped(s.todo) && Answered(s)
    requires Coalesced(s.scroll.pending, s.queues.scrolls, s.queues.dones, s.running)
    ensures Answered(Step(s, l))
  {
  }

  lemma {:induction false} AnsweredKept(s: State, l: Label)
    requires Enabled(s, l) && Shaped(s.todo) && Answered(s)
    requires Coalesced(s.scroll.pending, s.queues.scrolls, s.queues.dones, s.running)
    ensures Answered(Step(s, l))
  {
    if !l.Main? { AnsweredKeptByOthers(s, l); }
    else if s.todo.op.O? { AnsweredKeptByOutput(s, l.env); }
    else if s.todo.op.S? { AnsweredKeptByScroll(s, l.env); }
    else if s.todo.op.C? { AnsweredKeptByCopy(s, l.env); }
    else { AnsweredKeptByView(s, l.env); }
  }

  lemma {:induction false} PinnedKept(s: State, l: Label)
    requires Enabled(s, l) && Pinned(s)
    ensures var t := Step(s, l); Pinned(t)
  {
  }

  lemma {:induction false} OvertakenKept(s: State, l: Label)
    requires Enabled(s, l) && Shaped(s.todo) && Overtaken(s)
    requires Coalesced(s.scroll.pending, s.queues.scrolls, s.queues.dones, s.running)
    ensures Overtaken(Step(s, l))
  {
  }

  lemma {:induction false} DeliveredKeptByMain(s: State, env: Env)
    requires s.todo.Do? && Shaped(s.todo) && Overtaken(s) && Delivered(s)
    requires Coalesced(s.scroll.pending, s.queues.scrolls, s.queues.dones, s.running)
    ensures Delivered(MainStep(s, env))
  {
  }

  lemma {:induction false} DeliveredKeptByOthers(s: State, l: Label)
    requires !l.Main? && Enabled(s, l) && Shaped(s.todo) && Overtaken(s) && Delivered(s)
    requires Coalesced(s.scroll.pending, s.queues.scrolls, s.queues.dones, s.running)
    ensures Delivered(Step(s, l))
  {
  }

  lemma {:induction false} DeliveredKept(s: State, l: Label)
    requires Enabled(s, l) && Shaped(s.todo) && Overtaken(s) && Delivered(s)
    requires Coalesced(s.scroll.pending, s.queues.scrolls, s.queues.dones, s.running)
    ensures Delivered(Step(s, l))
  {
    if l.Main? { DeliveredKeptByMain(s, l.env); } else { DeliveredKeptByOthers(s, l); }
  }

  lemma {:induction false} PlacedKeptByMain(s: State, env: Env)
    requires s.todo.Do? && Shaped(s.todo) && Overtaken(s) && Delivered(s) && Answered(s) && Placed(s)
    requires Coalesced(s.scroll.pending, s.queues.scrolls, s.queues.dones, s.running)
    ensures Placed(MainStep(s, env))
  {
  }

  lemma {:induction false} PlacedKeptByOthers(s: State, l: Label)
    requires !l.Main? && Enabled(s, l) && Shaped(s.todo) && Overtaken(s) && Delivered(s) && Answered(s) && Placed(s)
    requires Coalesced(s.scroll.pending, s.queues.scrolls, s.queues.dones, s.running)
    ensures Placed(Step(s, l))
  {
  }

  lemma {:induction false} PlacedKept(s: State, l: Label)
    requires Enabled(s, l) && Shaped(s.todo) && Overtaken(s) && Delivered(s) && Answered(s) && Placed(s)
    requires Coalesced(s.scroll.pending, s.queues.scrolls, s.queues.dones, s.running)
    ensures Placed(Step(s, l))
  {
    if l.Main? { PlacedKeptByMain(s, l.env); } else { PlacedKeptByOthers(s, l); }
  }
}
