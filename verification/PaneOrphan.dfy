/**
The entry into copy mode that nothing completes: a feed holds it up, a restore begins, the feed is
applied while the restore runs, and the view closes instead of finishing the restore.
*/
module PaneOrphan {
  import Runs
  import opened Wrappers
  import opened PaneProtocol
  import opened PaneInvariants
  import opened PaneTheorems

  const TOP := Position(0, 0, 1)
  const NO := Env(false, TOP, false, false, 0.0)
  const YES := Env(true, TOP, false, false, 0.0)
  const READ := Update(TOP, false, false, 0)
  const START := State(
    Content(Off, 0, false), Output(None, 0, false, false), Scroll(None, 0, TOP, 0, None, TOP, None),
    Queues(0, 0, [], 0, []), NoJob, Idle, View(NoCopy, false, false, false, false), Past(0, 0, 0, 0, false, false, false, None))

  /** The entry has begun and waits for one admitted feed; a restore runs. */
  const HELD := START.(
    content := Content(Entering, 1, false), queues := START.queues.(waiting := 1),
    view := View(EnteringCopy, true, false, false, false))

  /** The feed has been processed, and main is told. */
  const FED := HELD.(output := Output(Some(READ), 1, false, false), queues := START.queues.(applies := 1))

  /** Main has adopted the snapshot, and looks at the entry while the restore runs. */
  const LOOKING := HELD.(
    content := Content(Entering, 0, false), queues := START.queues, todo := Do(C(CompleteEntry), Do(O(Capture), Idle)))

  const ORPHANED := LOOKING.(
    todo := Idle, view := View(EnteringCopy, false, false, false, false), past := START.past.(orphaned := true))

  lemma {:induction false} Follow(s: State, l: Label, t: State)
    requires Reachable(s) && Enabled(s, l) && t == Step(s, l)
    ensures Reachable(t)
  {
    ReachableStep(s, l);
  }

  lemma {:induction false} StartIsReachable()
    ensures Reachable(START)
  {
    var run, labels: seq<Label> := [START], [];
    assert Runs.IsRun(Next, run, labels) && Init(run[0]) && run[|labels|] == START;
  }

  lemma {:induction false} HeldIsReachable()
    ensures Reachable(HELD)
  {
    StartIsReachable();
    var admitted := START.(content := Content(Off, 1, false), queues := HELD.queues);
    Follow(START, Feed, admitted);
    var asked := admitted.(todo := Do(C(StartCopy), Idle));
    Follow(admitted, Event(C(StartCopy)), asked);
    var entering := admitted.(content := HELD.content, view := START.view.(copyMode := EnteringCopy));
    Follow(asked, Main(YES), entering.(todo := Do(C(CompleteEntry), Idle)));
    Follow(entering.(todo := Do(C(CompleteEntry), Idle)), Main(NO), entering);
    Follow(entering, Event(V(Attach)), entering.(todo := Do(V(Attach), Idle)));
    Follow(entering.(todo := Do(V(Attach), Idle)), Main(NO), HELD);
  }

  lemma {:induction false} FedIsReachable()
    requires Reachable(HELD)
    ensures Reachable(FED)
  {
    var s := HELD.(queues := START.queues);
    Follow(HELD, StartFeed, s.(running := FeedPin));
    Follow(s.(running := FeedPin), Queue(NO), s.(running := FeedWrite(None, 0)));
    Follow(s.(running := FeedWrite(None, 0)), Queue(NO), s.(running := Publish(true)));
    Follow(s.(running := Publish(true)), Queue(NO), s.(running := PublishRead(true)));
    Follow(s.(running := PublishRead(true)), Queue(NO), s.(running := PublishStore(true, READ)));
    var stored := s.(output := FED.output);
    Follow(s.(running := PublishStore(true, READ)), Queue(NO), stored.(running := PublishPost));
    Follow(stored.(running := PublishPost), Queue(NO), FED);
  }

  lemma {:induction false} LookingIsReachable()
    requires Reachable(FED)
    ensures Reachable(LOOKING)
  {
    var adopt := Do(O(Adopt(READ)), Idle);
    var taken := HELD.(queues := START.queues, todo := Do(O(Subtract(1)), adopt));
    Follow(FED, RunApply, taken);
    var s := LOOKING.(todo := adopt);
    Follow(taken, Main(NO), s);
    var after := Do(O(AfterAdopt(false)), Idle);
    Follow(s, Main(NO), s.(todo := Do(V(UpdateScroller(TOP, false)), after)));
    Follow(s.(todo := Do(V(UpdateScroller(TOP, false)), after)), Main(NO), s.(todo := after));
    Follow(s.(todo := after), Main(NO), s.(todo := Do(O(CheckCaptured(false)), Idle)));
    Follow(s.(todo := Do(O(CheckCaptured(false)), Idle)), Main(NO), s.(todo := Do(O(SetCaptured(false)), Idle)));
    Follow(s.(todo := Do(O(SetCaptured(false)), Idle)), Main(NO), LOOKING);
  }

  /** The entry is not complete, nothing is left to run, and no restore runs: only the deadline ends it. */
  lemma {:induction false} EntryMayBeOrphaned()
    ensures Reachable(ORPHANED) && Quiet(ORPHANED) && !ORPHANED.view.restoring && ORPHANED.content.freeze == Entering
  {
    HeldIsReachable();
    FedIsReachable();
    LookingIsReachable();
    Follow(LOOKING, Main(NO), LOOKING.(todo := Do(O(Capture), Idle)));
    Follow(LOOKING.(todo := Do(O(Capture), Idle)), Main(NO), LOOKING.(todo := Do(O(CaptureSection), Idle)));
    var s := LOOKING.(todo := Idle);
    Follow(LOOKING.(todo := Do(O(CaptureSection), Idle)), Main(NO), s);
    Follow(s, Event(V(Detach)), s.(todo := Do(V(Detach), Idle)));
    Follow(s.(todo := Do(V(Detach), Idle)), Main(NO), ORPHANED);
  }

  /** The deadline of an entry refuses it: copy mode is left, and refused feeds are asked for again. */
  lemma {:induction false} DeadlineEndsEntry(s: State, env: Env)
    requires Reachable(s) && s.todo == Idle && s.content.freeze == Entering
    ensures var asked := Step(s, Event(C(EndCopy)));
            var thawing := MainStep(asked, env);
            && thawing.todo == Do(C(Thaw), Idle)
            && var t := MainStep(thawing, env);
            && t.content.freeze == Off && t.view.copyMode == NoCopy && !t.past.orphaned
            && t.todo == if s.past.lost > 0 then Do(C(Resync), Idle) else Idle
  {
    PaneTheorems.ReachableInv(s);
  }
}
