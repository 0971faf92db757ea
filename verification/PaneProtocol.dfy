/**
The interleaving of a pane's three actors: the decoder thread in `feed`, the serial `scrolling`
queue, and main (app/App/PaneView.swift).

One step is one critical section of a lock, or a stretch of code that no other actor can observe.
Jobs of one kind leave the serial queue and main's queue in their order; between kinds any waiting
job may start next, which contains every first-in first-out run. What main still has to do in its
current turn is the list `todo`. The terminal is seen through its scroll position, which output and
scrolling move freely.
*/
module PaneProtocol {
  import opened Rows
  import opened Wrappers

  datatype Freeze = Off | Entering | Frozen

  /** `Selecting` stands for every mode after the entry is complete. */
  datatype CopyMode = NoCopy | EnteringCopy | Selecting

  datatype Position = Position(history: nat, offset: nat, rows: nat) {
    function Distance(): int {
      history - offset
    }
  }

  /** A snapshot for the scroller; `stamp` counts the refresh requests made before it was read. */
  datatype Update = Update(position: Position, alternate: bool, captured: bool, stamp: nat)

  /** What a feed remembers of the viewport from its first critical section. */
  datatype Pin = Pin(distance: int, adjustment: int)

  /**
  The job that the serial queue runs. `caused` sums the distance changes since a feed's first section
  that no adjustment records: those of its own output, and jumps.
  */
  datatype Running =
    | NoJob
    | FeedPin
    | FeedWrite(pin: Option<Pin>, caused: int)
    | Publish(feed: bool)
    | PublishRead(feed: bool)
    | PublishStore(feed: bool, update: Update)
    | PublishPost
    | ScrollRead(revision: int)
    | ScrollMove(revision: int, distance: Option<real>)
    | ScrollPost(done: Done)

  /** The closure that ends a scroll job on main; `moved` is absent when the surface refused. */
  datatype Done = Done(revision: int, distance: Option<real>, moved: Option<Position>)

  // ----- what main does in a turn -----

  /** applyOutputUpdate after its first section, and the scroller refreshes. */
  datatype OutputOp =
    | Subtract(count: nat)
    | Adopt(update: Update)
    | AfterAdopt(nowCaptured: bool)
    | CheckCaptured(nowCaptured: bool)
    | SetCaptured(nowCaptured: bool)
    | RefreshRequest
    | MarkRequested
    | Capture
    | CaptureSection

  datatype ScrollOp =
    | RequestScroll
    | SetTarget(distance: real)
    | ClearTarget
    | RoundTarget
    | QueueScroll
    | CompareTarget(applied: Option<real>)
    | Snap
    | SnapSection
    | Reset
    | ResetIntent
    | ResetSection
    | Present(applied: Option<real>, position: Position)

  datatype CopyOp =
    | StartCopy
    | CompleteEntry
    | EnterCursor
    | SelectCursor
    | EndCopy
    | Thaw
    | Resync

  /** updateScroller and updateAlternate, and the other turns of main. */
  datatype ViewOp =
    | ReadScroller
    | UpdateScroller(position: Position, nowAlternate: bool)
    | SwitchAlternate(nowAlternate: bool)
    | SetAlternate(nowAlternate: bool)
    | FinishUpdate(position: Position, nowAlternate: bool)
    | Restored
    | AfterRestore
    | Resized
    | BeginResize
    | Attach
    | Detach
    | Dispose

  datatype Op = O(output: OutputOp) | S(scroll: ScrollOp) | C(copy: CopyOp) | V(view: ViewOp)

  datatype Todo = Idle | Do(op: Op, rest: Todo)

  // ----- the state -----

  datatype Content = Content(freeze: Freeze, parsing: int, dirty: bool)

  datatype Output = Output(latest: Option<Update>, completed: nat, capturing: bool, requested: bool)

  /** The scroll target and the viewport's cell, the surface's position, and main's scroll fields. */
  datatype Scroll = Scroll(
    target: Option<real>, adjustment: int, position: Position,
    intent: int, shown: Option<real>, geometry: Position, pending: Option<int>)

  /** Admitted feeds, captures and scroll jobs that wait for the serial queue, and what was posted to main. */
  datatype Queues = Queues(waiting: nat, captures: nat, scrolls: seq<int>, applies: nat, dones: seq<Done>)

  /** The fields that only main uses. */
  datatype View = View(copyMode: CopyMode, restoring: bool, disposed: bool, alternate: bool, captured: bool)

  /**
  What happened so far: writes of the surface by feeds, feeds refused since the last resync, refresh
  requests, the stamp of the last applied snapshot, whether a capture was skipped since the last
  publication began, whether the surface refused a position since a scroll job was last presented,
  whether the view closed during the restore that an entry into copy mode still waits for, and the
  distance that the surface last accepted. The program has none of this.
  */
  datatype Past = Past(written: nat, lost: nat, requests: nat, applied: nat, skipped: bool, refused: bool, orphaned: bool,
                       placed: Option<real>)

  datatype State = State(content: Content, output: Output, scroll: Scroll, queues: Queues, running: Running,
                         todo: Todo, view: View, past: Past)

  ghost predicate Init(s: State) {
    && s.content == Content(Off, 0, false)
    && s.output == Output(None, 0, false, false)
    && s.scroll.target == None && s.scroll.shown == None && s.scroll.pending == None
    && s.queues == Queues(0, 0, [], 0, [])
    && s.running == NoJob && s.todo == Idle
    && s.view.copyMode == NoCopy && !s.view.disposed
    && s.past == Past(0, 0, 0, 0, false, false, false, None)
  }

  /** What the environment decides in one step: the surface's answers and the user's wish. */
  datatype Env = Env(yes: bool, position: Position, alternate: bool, captured: bool, wanted: real)

  datatype Label =
    | Feed
    | StartFeed
    | StartCapture
    | StartScroll
    | Queue(env: Env)
    | RunApply
    | RunDone
    | Event(op: Op)
    | Main(env: Env)
    | Restore(position: Position)
    | Jump(position: Position)

  /** The turns of main that a user event, a timer or a decoder message starts. */
  predicate External(op: Op) {
    match op
    case O(o) => o == RefreshRequest
    case S(o) => o == RequestScroll || o == Snap || o == Reset || o == QueueScroll
    case C(o) => o == StartCopy || o == EndCopy
    case V(o) => o == Restored || o == Resized || o == BeginResize || o == Attach || o == Detach || o == Dispose
  }

  /** Main's critical sections of the `viewport` lock. */
  predicate TakesViewport(op: Op) {
    op == S(SnapSection) || op == S(ResetSection)
  }

  predicate Enabled(s: State, l: Label) {
    match l
    case Feed => true
    case StartFeed => s.running == NoJob && s.queues.waiting > 0
    case StartCapture => s.running == NoJob && s.queues.captures > 0
    case StartScroll => s.running == NoJob && s.queues.scrolls != []
    case Queue(_) => s.running != NoJob
    case RunApply => s.todo == Idle && s.queues.applies > 0
    case RunDone => s.todo == Idle && s.queues.dones != []
    case Event(op) => s.todo == Idle && External(op)
    case Main(_) => s.todo.Do? && (TakesViewport(s.todo.op) ==> !s.running.ScrollMove?)
    case Restore(_) => !s.running.FeedWrite?
    case Jump(_) => true
  }

  function Step(s: State, l: Label): State
    requires Enabled(s, l)
  {
    match l
    case Feed => Admit(s)
    case StartFeed => s.(running := FeedPin, queues := s.queues.(waiting := s.queues.waiting - 1))
    case StartCapture => s.(running := Publish(false), queues := s.queues.(captures := s.queues.captures - 1))
    case StartScroll => s.(running := ScrollRead(s.queues.scrolls[0]), queues := s.queues.(scrolls := s.queues.scrolls[1..]))
    case Queue(env) => QueueStep(s, env)
    case RunApply => TakeUpdate(s)
    case RunDone => EndScroll(s)
    case Event(op) => s.(todo := Do(op, Idle))
    case Main(env) => MainStep(s, env)
    case Restore(p) => s.(scroll := s.scroll.(position := p))
    case Jump(p) => Jumped(s, p)
  }

  /** Main moves the viewport outside the lock, as a search does, and no adjustment records it. */
  function Jumped(s: State, p: Position): State {
    s.(scroll := s.scroll.(position := p),
       running := if s.running.FeedWrite?
                  then FeedWrite(s.running.pin, s.running.caused + p.Distance() - s.scroll.position.Distance())
                  else s.running)
  }

  // ----- the decoder thread -----

  /** `feed` up to its wait for the serial queue: a frozen pane drops the bytes. */
  function Admit(s: State): State {
    if s.content.freeze == Off then
      s.(content := s.content.(parsing := s.content.parsing + 1), queues := s.queues.(waiting := s.queues.waiting + 1))
    else
      s.(content := s.content.(dirty := true), past := s.past.(lost := s.past.lost + 1))
  }

  // ----- the serial queue -----

  function QueueStep(s: State, env: Env): State
    requires s.running != NoJob
  {
    match s.running
    case FeedPin =>
      var pinned := s.scroll.target.Some? && s.scroll.target.value > 0.0;
      s.(running := FeedWrite(if pinned then Some(Pin(s.scroll.position.Distance(), s.scroll.adjustment)) else None, 0))
    case FeedWrite(pin, caused) =>
      if env.yes then
        // the surface processes some of the bytes
        s.(scroll := s.scroll.(position := env.position), past := s.past.(written := s.past.written + 1),
           running := FeedWrite(pin, caused + env.position.Distance() - s.scroll.position.Distance()))
      else
        s.(scroll := s.scroll.(target := if pin.Some? then Followed(s.scroll, pin.value) else s.scroll.target),
           running := Publish(true))
    case Publish(feed) =>
      s.(output := s.output.(requested := false), past := s.past.(skipped := false), running := PublishRead(feed))
    case PublishRead(feed) =>
      s.(running := PublishStore(feed, Update(s.scroll.position, env.alternate, env.captured, s.past.requests)))
    case PublishStore(feed, update) =>
      s.(output := s.output.(latest := Some(update),
                             completed := s.output.completed + (if feed then 1 else 0),
                             capturing := s.output.capturing && feed),
         running := if s.output.latest == None then PublishPost else NoJob)
    case PublishPost => s.(queues := s.queues.(applies := s.queues.applies + 1), running := NoJob)
    case ScrollRead(r) => s.(running := ScrollMove(r, s.scroll.target))
    case ScrollMove(r, distance) =>
      if distance == None then
        s.(running := ScrollPost(Done(r, distance, Some(s.scroll.position))))
      else if env.yes then
        s.(scroll := s.scroll.(position := env.position), past := s.past.(placed := distance),
           running := ScrollPost(Done(r, distance, Some(env.position))))
      else
        s.(running := ScrollPost(Done(r, distance, None)), past := s.past.(refused := true))
    case ScrollPost(done) => s.(queues := s.queues.(dones := s.queues.dones + [done]), running := NoJob)
  }

  /** A feed's second critical section: the target follows the viewport. */
  function Followed(c: Scroll, pin: Pin): Option<real> {
    var delta := c.position.Distance() - pin.distance - (c.adjustment - pin.adjustment);
    if c.target.Some? && c.target.value > 0.0 then Some(Max(0.0, c.target.value + delta as real)) else c.target
  }

  // ----- main -----

  /** The first section of `applyOutputUpdate`. */
  function TakeUpdate(s: State): State
    requires s.todo == Idle && s.queues.applies > 0
  {
    var rest := if s.output.latest.Some? then Do(O(Adopt(s.output.latest.value)), Idle) else Idle;
    s.(queues := s.queues.(applies := s.queues.applies - 1), output := s.output.(latest := None, completed := 0),
       todo := Do(O(Subtract(s.output.completed)), rest))
  }

  /** The end of a scroll job on main. */
  function EndScroll(s: State): State
    requires s.todo == Idle && s.queues.dones != []
  {
    var d := s.queues.dones[0];
    var t := s.(queues := s.queues.(dones := s.queues.dones[1..]));
    if s.scroll.pending != Some(d.revision) then t
    else if s.scroll.intent != d.revision then
      t.(scroll := s.scroll.(pending := None), todo := Do(S(QueueScroll), Idle))
    else if d.moved.Some? then
      t.(scroll := s.scroll.(pending := None, geometry := d.moved.value, shown := d.distance),
         past := s.past.(refused := false), todo := Do(S(CompareTarget(d.distance)), Idle))
    else
      t.(scroll := s.scroll.(pending := None), todo := Do(S(CompareTarget(d.distance)), Idle))
  }

  function MainStep(s: State, env: Env): State
    requires s.todo.Do?
  {
    match s.todo.op
    case O(o) => OutputStep(s, o, s.todo.rest)
    case S(o) => ScrollStep(s, o, s.todo.rest, env)
    case C(o) => CopyStep(s, o, s.todo.rest, env)
    case V(o) => ViewStep(s, o, s.todo.rest, env)
  }

  function OutputStep(s: State, o: OutputOp, rest: Todo): State {
    match o
    case Subtract(n) => s.(content := s.content.(parsing := s.content.parsing - n), todo := rest)
    case Adopt(u) =>
      s.(past := s.past.(applied := u.stamp),
         todo := Do(V(UpdateScroller(u.position, u.alternate)), Do(O(AfterAdopt(u.captured)), rest)))
    case AfterAdopt(c) =>
      var next := Do(O(CheckCaptured(c)), rest);
      s.(todo := if s.scroll.target != s.scroll.shown then Do(S(QueueScroll), next) else next)
    case CheckCaptured(c) =>
      var next := Do(O(SetCaptured(c)), rest);
      if c != s.view.captured then s.(scroll := Invalidated(s.scroll), todo := Do(S(RoundTarget), next)) else s.(todo := next)
    case SetCaptured(c) =>
      s.(view := s.view.(captured := c), todo := Do(C(CompleteEntry), Do(O(Capture), rest)))
    case RefreshRequest =>
      s.(todo := if s.scroll.target.Some? then rest else Do(O(MarkRequested), Do(O(Capture), rest)))
    case MarkRequested =>
      s.(output := s.output.(requested := true), past := s.past.(requests := s.past.requests + 1), todo := rest)
    case Capture =>
      if s.view.disposed || s.scroll.target.Some? then
        s.(past := s.past.(skipped := s.past.skipped || s.output.requested), todo := rest)
      else s.(todo := Do(O(CaptureSection), rest))
    case CaptureSection =>
      if s.output.latest == None && !s.output.capturing && s.output.requested then
        s.(output := s.output.(capturing := true), queues := s.queues.(captures := s.queues.captures + 1), todo := rest)
      else s.(todo := rest)
  }

  function Invalidated(c: Scroll): Scroll {
    c.(intent := c.intent + 1)
  }

  /** A scroll call under the `viewport` lock records how far it moved the viewport. */
  function Moved(c: Scroll, p: Position): Scroll {
    c.(position := p, adjustment := c.adjustment + p.Distance() - c.position.Distance())
  }

  function ScrollStep(s: State, o: ScrollOp, rest: Todo, env: Env): State {
    var c := s.scroll;
    match o
    case RequestScroll =>
      // the wheel passes a position that it read before
      var snapshot := if env.yes then env.position else c.position;
      var previous := if c.target.Some? then c.target.value else snapshot.Distance() as real;
      var distance := Max(0.0, Min(snapshot.history as real, env.wanted));
      if distance == previous then s.(todo := rest)
      else s.(scroll := Invalidated(c), todo := Do(S(SetTarget(distance)), rest))
    case SetTarget(d) => s.(scroll := c.(target := Some(d)), todo := Do(S(QueueScroll), rest))
    case ClearTarget => s.(scroll := c.(target := None), todo := rest)
    case RoundTarget => s.(scroll := c.(target := Aligned(c.target)), todo := Do(S(QueueScroll), rest))
    case QueueScroll =>
      if c.pending.Some? then s.(todo := rest)
      else s.(scroll := c.(pending := Some(c.intent)), queues := s.queues.(scrolls := s.queues.scrolls + [c.intent]),
              todo := rest)
    case CompareTarget(d) => s.(todo := if c.target != d then Do(S(QueueScroll), rest) else rest)
    case Snap => s.(scroll := Invalidated(c), todo := Do(S(SnapSection), rest))
    case SnapSection =>
      if c.target == None then s.(todo := rest)
      else if env.yes then
        s.(scroll := Moved(c, env.position).(target := Aligned(c.target)), past := s.past.(placed := Aligned(c.target)),
           todo := Do(S(Present(Aligned(c.target), env.position)), rest))
      else s.(scroll := c.(target := Aligned(c.target)), past := s.past.(refused := true), todo := rest)
    case Reset => s.(todo := Do(S(Snap), Do(S(ResetIntent), rest)))
    case ResetIntent => s.(scroll := Invalidated(c), todo := Do(S(ClearTarget), Do(S(ResetSection), rest)))
    case ResetSection =>
      if env.yes then
        s.(scroll := Moved(c, env.position), past := s.past.(placed := Some(0.0)),
           todo := Do(S(Present(None, env.position)), rest))
      else s.(past := s.past.(refused := true), todo := rest)
    case Present(d, p) => s.(scroll := c.(geometry := p, shown := d), todo := rest)
  }

  function CopyStep(s: State, o: CopyOp, rest: Todo, env: Env): State {
    match o
    case StartCopy =>
      if env.yes && !s.view.disposed && !s.view.restoring && s.view.copyMode == NoCopy then
        s.(view := s.view.(copyMode := EnteringCopy), content := s.content.(freeze := Entering),
           todo := Do(C(CompleteEntry), rest))
      else s.(todo := Do(C(EndCopy), rest))
    case CompleteEntry =>
      if s.view.copyMode == EnteringCopy && !s.view.restoring && s.content.freeze == Entering && s.content.parsing == 0 then
        s.(content := s.content.(freeze := Frozen), past := s.past.(orphaned := false),
           todo := Do(V(ReadScroller), Do(C(EnterCursor), rest)))
      else s.(todo := rest)
    case EnterCursor => s.(view := s.view.(captured := env.captured), todo := Do(S(Snap), Do(C(SelectCursor), rest)))
    case SelectCursor =>
      if env.yes then s.(view := s.view.(copyMode := Selecting), todo := rest)
      else s.(todo := Do(C(EndCopy), rest))
    case EndCopy => s.(todo := if s.view.copyMode == NoCopy then rest else Do(C(Thaw), rest))
    case Thaw =>
      s.(content := s.content.(freeze := Off, dirty := false), view := s.view.(copyMode := NoCopy),
         past := s.past.(orphaned := false), todo := if s.content.dirty then Do(C(Resync), rest) else rest)
    case Resync =>
      s.(view := s.view.(restoring := true), past := s.past.(lost := 0), todo := rest)
  }

  predicate ScrollerChanged(s: State, p: Position, nowAlternate: bool) {
    || s.view.alternate != nowAlternate
    || s.scroll.geometry.history != p.history
    || s.scroll.geometry.rows != p.rows
    || (s.scroll.target == None && s.scroll.geometry.offset != p.offset)
  }

  function ViewStep(s: State, o: ViewOp, rest: Todo, env: Env): State {
    match o
    case ReadScroller => s.(todo := Do(V(UpdateScroller(s.scroll.position, env.alternate)), rest))
    case UpdateScroller(p, a) =>
      var finish := Do(V(FinishUpdate(p, a)), rest);
      if !ScrollerChanged(s, p, a) then s.(todo := rest)
      else
        s.(scroll := Invalidated(s.scroll),
           todo := if s.view.alternate != a then Do(V(SwitchAlternate(a)), finish) else finish)
    case SwitchAlternate(a) =>
      var next := Do(V(SetAlternate(a)), rest);
      s.(todo := if s.view.copyMode == EnteringCopy then next else Do(C(EndCopy), next))
    case SetAlternate(a) => s.(view := s.view.(alternate := a), todo := Do(S(Reset), rest))
    case FinishUpdate(p, a) =>
      var next := Do(S(QueueScroll), rest);
      s.(scroll := s.scroll.(geometry := p), todo := if a then Do(S(ClearTarget), next) else next)
    case Restored => s.(view := s.view.(restoring := false), todo := Do(V(ReadScroller), Do(V(AfterRestore), rest)))
    case AfterRestore => s.(todo := Do(S(QueueScroll), Do(C(CompleteEntry), rest)))
    case Resized => s.(todo := Do(C(EndCopy), Do(V(ReadScroller), rest)))
    case BeginResize => s.(todo := Do(C(EndCopy), Do(S(Snap), rest)))
    case Attach => s.(view := s.view.(restoring := s.view.restoring || !s.view.disposed), todo := rest)
    case Detach =>
      s.(view := s.view.(restoring := false),
         past := s.past.(orphaned := s.past.orphaned || (s.view.restoring && s.content.freeze == Entering)), todo := rest)
    case Dispose => s.(view := s.view.(disposed := true), todo := rest)
  }

  // ----- arithmetic -----

  /** Rounding to the nearest whole row, halves away from zero. */
  function Rounded(x: real): real {
    if x >= 0.0 then (x + 0.5).Floor as real else -((-x + 0.5).Floor as real)
  }

  lemma {:induction false} RoundedIsNearest(x: real)
    ensures NearestRow(x, Rounded(x))
  {
    var n := if x >= 0.0 then (x + 0.5).Floor else -(-x + 0.5).Floor;
    assert Rounded(x) == n as real && (n as real).Floor == n;
  }

  function Aligned(target: Option<real>): Option<real> {
    if target.Some? then Some(Rounded(target.value)) else None
  }

  function Max(a: real, b: real): real {
    if a >= b then a else b
  }

  function Min(a: real, b: real): real {
    if a <= b then a else b
  }
}
