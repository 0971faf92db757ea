/**
Progress of the pane protocol: left alone, a pane comes to rest. A measure counts the steps that are
left at most; only output, which depends on the bytes, leaves it as it is.
*/
module PaneProgress {
  import opened Wrappers
  import opened Runs
  import opened PaneProtocol
  import opened PaneInvariants
  import opened PaneTheorems

  // ----- the measure -----

  /** Steps for one posted applyOutputUpdate, and for an open refresh request. */
  const APPLY: nat := 191
  const REQUEST: nat := 196

  function OutputWeight(o: OutputOp): nat {
    match o
    case Subtract(_) => 1
    case Adopt(_) => 189
    case AfterAdopt(_) => 123
    case CheckCaptured(_) => 115
    case SetCaptured(_) => 92
    case RefreshRequest => REQUEST + 4
    case MarkRequested => REQUEST + 1
    case Capture => 2
    case CaptureSection => 1
  }

  /** A new target or intent may cost the outstanding scroll job seven more steps. */
  function ScrollWeight(o: ScrollOp): nat {
    match o
    case RequestScroll => 23
    case SetTarget(_) => 15
    case ClearTarget => 8
    case RoundTarget => 15
    case QueueScroll => 7
    case CompareTarget(_) => 8
    case Snap => 17
    case SnapSection => 9
    case Reset => 36
    case ResetIntent => 18
    case ResetSection => 2
    case Present(_, _) => 1
  }

  function CopyWeight(o: CopyOp): nat {
    match o
    case StartCopy => 90
    case CompleteEntry => 89
    case EnterCursor => 22
    case SelectCursor => 4
    case EndCopy => 3
    case Thaw => 2
    case Resync => 1
  }

  function ViewWeight(o: ViewOp): nat {
    match o
    case ReadScroller => 66
    case UpdateScroller(_, _) => 65
    case SwitchAlternate(_) => 41
    case SetAlternate(_) => 37
    case FinishUpdate(_, _) => 16
    case Restored => 164
    case AfterRestore => 97
    case Resized => 70
    case BeginResize => 21
    case Attach => 1
    case Detach => 1
    case Dispose => 1
  }

  function OpWeight(op: Op): nat {
    match op
    case O(o) => OutputWeight(o)
    case S(o) => ScrollWeight(o)
    case C(o) => CopyWeight(o)
    case V(o) => ViewWeight(o)
  }

  function RestWeight(t: Todo): nat {
    if t.Idle? then 0 else OpWeight(t.op) + RestWeight(t.rest)
  }

  /** The first step weighs less if it will find the target presented. */
  function TodoWeight(t: Todo, target: Option<real>): nat {
    if t.Do? && t.op.S? && t.op.scroll.CompareTarget? && t.op.scroll.applied == target then 1 + RestWeight(t.rest)
    else RestWeight(t)
  }

  function RunningWeight(r: Running): nat {
    match r
    case FeedPin => APPLY + 20
    case FeedWrite(_, _) => APPLY + 19
    case Publish(_) => APPLY + 4
    case PublishRead(_) => APPLY + 3
    case PublishStore(_, _) => APPLY + 2
    case PublishPost => APPLY + 1
    case _ => 0
  }

  /** A scroll job that has read its distance runs again if intent or target differ by then. */
  function ReadWeight(c: Scroll, distance: Option<real>): nat {
    if c.pending != Some(c.intent) then 7 else if distance == c.target then 1 else 8
  }

  function UnreadWeight(c: Scroll): nat {
    if c.pending != Some(c.intent) then 7 else 1
  }

  function JobWeight(c: Scroll, scrolls: seq<int>, dones: seq<Done>, r: Running): nat {
    if c.pending == None then 0
    else if dones != [] then 1 + ReadWeight(c, dones[0].distance)
    else if r.ScrollPost? then 2 + ReadWeight(c, r.done.distance)
    else if r.ScrollMove? then 3 + ReadWeight(c, r.distance)
    else if r.ScrollRead? then 4 + UnreadWeight(c)
    else if scrolls != [] then 5 + UnreadWeight(c)
    else 0
  }

  /** A request that no queued capture answers. */
  function RequestWeight(s: State): nat {
    if s.output.requested && s.queues.captures == 0 && s.running != Publish(false) then REQUEST else 0
  }

  function QueueWeight(q: Queues): nat {
    (APPLY + 21) * q.waiting + (APPLY + 5) * q.captures + APPLY * q.applies
  }

  function Measure(s: State): nat {
    QueueWeight(s.queues) + RunningWeight(s.running) + JobWeight(s.scroll, s.queues.scrolls, s.queues.dones, s.running)
    + RequestWeight(s) + TodoWeight(s.todo, s.scroll.target)
  }

  // ----- steps that nobody outside causes -----

  predicate Internal(l: Label) {
    l.StartFeed? || l.StartCapture? || l.StartScroll? || l.Queue? || l.RunApply? || l.RunDone? || l.Main?
  }

  /** The surface processes more of a feed's bytes. */
  predicate Outputs(s: State, l: Label) {
    l.Queue? && s.running.FeedWrite? && l.env.yes
  }

  lemma {:induction false} RestUnfolds()
    ensures forall op, rest :: RestWeight(Do(op, rest)) == OpWeight(op) + RestWeight(rest)
  {
  }

  lemma {:induction false} QueueStepCounts(s: State, env: Env)
    requires s.running != NoJob && !Outputs(s, Queue(env))
    requires Coalesced(s.scroll.pending, s.queues.scrolls, s.queues.dones, s.running)
    ensures Measure(QueueStep(s, env)) < Measure(s)
  {
  }

  lemma {:induction false} StartCounts(s: State, l: Label)
    requires Enabled(s, l) && (l.StartFeed? || l.StartCapture? || l.StartScroll? || l.RunApply? || l.RunDone?)
    requires Coalesced(s.scroll.pending, s.queues.scrolls, s.queues.dones, s.running)
    ensures Measure(Step(s, l)) < Measure(s)
  {
    RestUnfolds();
  }

  /** The steps of main that create work for the serial queue. */
  predicate Creates(op: Op) {
    op == S(QueueScroll) || op == O(CaptureSection) || op == O(MarkRequested)
  }

  predicate Disturbs(c: Scroll, d: Scroll) {
    d.intent != c.intent || d.target != c.target
  }

  /** The turn gets shorter by more than the step may cost an outstanding scroll job; all else is as it was. */
  predicate Shrinks(s: State, t: State) {
    && t.queues == s.queues && t.running == s.running && t.scroll.pending == s.scroll.pending
    && t.output.requested == s.output.requested
    && RestWeight(t.todo) + 1 + (if Disturbs(s.scroll, t.scroll) then 7 else 0) <= TodoWeight(s.todo, s.scroll.target)
  }

  lemma {:induction false} AdoptTodoShrinks(s: State, env: Env)
    requires s.todo.Do? && Adopting(s.todo.op)
    ensures Shrinks(s, MainStep(s, env))
  {
    RestUnfolds();
  }

  lemma {:induction false} OutputTodoShrinks(s: State, env: Env)
    requires s.todo.Do? && s.todo.op.O? && !Adopting(s.todo.op) && !Creates(s.todo.op)
    ensures Shrinks(s, MainStep(s, env))
  {
    RestUnfolds();
  }

  lemma {:induction false} ScrollTodoShrinks(s: State, env: Env)
    requires s.todo.Do? && s.todo.op.S? && !Creates(s.todo.op) && !Long(s.todo.op.scroll)
    ensures Shrinks(s, MainStep(s, env))
  {
    RestUnfolds();
  }

  /** Requests, snaps and resets, which become more than one step. */
  predicate Long(o: ScrollOp) {
    o.RequestScroll? || o.Snap? || o.SnapSection? || o.Reset? || o.ResetIntent?
  }

  lemma {:induction false} LongTodoShrinks(s: State, env: Env)
    requires s.todo.Do? && s.todo.op.S? && Long(s.todo.op.scroll)
    ensures Shrinks(s, MainStep(s, env))
  {
    RestUnfolds();
  }

  lemma {:induction false} CopyTodoShrinks(s: State, env: Env)
    requires s.todo.Do? && s.todo.op.C?
    ensures Shrinks(s, MainStep(s, env))
  {
    RestUnfolds();
  }

  lemma {:induction false} UpdateTodoShrinks(s: State, env: Env)
    requires s.todo.Do? && s.todo.op.V? && Updating(s.todo.op.view)
    ensures Shrinks(s, MainStep(s, env))
  {
    RestUnfolds();
  }

  lemma {:induction false} TurnTodoShrinks(s: State, env: Env)
    requires s.todo.Do? && s.todo.op.V? && !Updating(s.todo.op.view)
    ensures Shrinks(s, MainStep(s, env))
  {
    RestUnfolds();
  }

  lemma {:induction false} DisturbedJob(c: Scroll, d: Scroll, scrolls: seq<int>, dones: seq<Done>, r: Running)
    requires c.pending == d.pending
    ensures JobWeight(d, scrolls, dones, r) <= JobWeight(c, scrolls, dones, r) + (if Disturbs(c, d) then 7 else 0)
  {
  }

  lemma {:induction false} ShrinkingCounts(s: State, t: State)
    requires Shrinks(s, t)
    ensures Measure(t) < Measure(s)
  {
    DisturbedJob(s.scroll, t.scroll, s.queues.scrolls, s.queues.dones, s.running);
  }

  lemma {:induction false} CreationCounts(s: State, env: Env)
    requires s.todo.Do? && Creates(s.todo.op) && Captures(s)
    requires Coalesced(s.scroll.pending, s.queues.scrolls, s.queues.dones, s.running)
    ensures Measure(MainStep(s, env)) < Measure(s)
  {
    RestUnfolds();
  }

  lemma {:induction false} MainStepCounts(s: State, env: Env)
    requires s.todo.Do? && Captures(s)
    requires Coalesced(s.scroll.pending, s.queues.scrolls, s.queues.dones, s.running)
    ensures Measure(MainStep(s, env)) < Measure(s)
  {
    if Creates(s.todo.op) {
      CreationCounts(s, env);
    } else {
      match s.todo.op {
        case O(_) => if Adopting(s.todo.op) { AdoptTodoShrinks(s, env); } else { OutputTodoShrinks(s, env); }
        case S(o) => if Long(o) { LongTodoShrinks(s, env); } else { ScrollTodoShrinks(s, env); }
        case C(_) => CopyTodoShrinks(s, env);
        case V(o) => if Updating(o) { UpdateTodoShrinks(s, env); } else { TurnTodoShrinks(s, env); }
      }
      ShrinkingCounts(s, MainStep(s, env));
    }
  }

  /** Every internal step but output brings rest closer, and output does not put it off. */
  lemma {:induction false} InternalStepCounts(s: State, l: Label)
    requires Inv(s) && Enabled(s, l) && Internal(l)
    ensures Measure(Step(s, l)) + (if Outputs(s, l) then 0 else 1) <= Measure(s)
  {
    if Outputs(s, l) {
    } else if l.Queue? {
      QueueStepCounts(s, l.env);
    } else if !l.Main? {
      StartCounts(s, l);
    } else {
      MainStepCounts(s, l.env);
    }
  }

  // ----- rest -----

  ghost predicate NextInternal(s: State, l: Label, t: State) {
    Next(s, l, t) && Internal(l)
  }

  /** The steps of a run that are not output. */
  function Work(run: seq<State>, labels: seq<Label>, n: nat): nat
    requires n <= |labels| < |run|
  {
    if n == 0 then 0 else Work(run, labels, n - 1) + (if Outputs(run[n - 1], labels[n - 1]) then 0 else 1)
  }

  /**
  A pane that is left alone comes to rest: whatever the surface answers and in whatever order the
  jobs run, no more steps than the measure says are taken besides output.
  */
  lemma {:induction false} RestIsReached(run: seq<State>, labels: seq<Label>, n: nat)
    requires IsRun(NextInternal, run, labels) && n <= |labels| && Reachable(run[0])
    ensures Work(run, labels, n) + Measure(run[n]) <= Measure(run[0]) && Inv(run[n])
  {
    if n == 0 {
      ReachableInv(run[0]);
    } else {
      RestIsReached(run, labels, n - 1);
      assert NextInternal(run[n - 1], labels[n - 1], run[n]);
      InternalStepCounts(run[n - 1], labels[n - 1]);
      StepKeepsInv(run[n - 1], labels[n - 1]);
    }
  }

  /** As long as anything is left, some step other than output can be taken; at rest none can. */
  lemma {:induction false} RestIsWhereNothingRuns(s: State)
    ensures Quiet(s) <==> forall l :: Internal(l) && Enabled(s, l) ==> Outputs(s, l)
  {
    var env := Env(false, s.scroll.position, false, false, 0.0);
    if !Quiet(s) {
      var l := if s.running != NoJob then Queue(env)
               else if s.todo.Do? then Main(env)
               else if s.queues.waiting > 0 then StartFeed
               else if s.queues.captures > 0 then StartCapture
               else if s.queues.scrolls != [] then StartScroll
               else if s.queues.applies > 0 then RunApply
               else RunDone;
      assert Internal(l) && Enabled(s, l) && !Outputs(s, l);
    }
  }
}
