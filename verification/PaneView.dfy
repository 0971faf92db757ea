/**
The pane's own functions (app/App/PaneView.swift) on its fields, as the source writes them. Each is
proved to leave what the protocol's steps leave, with the same answers from outside; so the lists of
steps in PaneProtocol are these functions.
*/
module PaneViews {
  import opened Rows
  import opened Wrappers
  import opened PaneProtocol
  import opened PaneTurns

  datatype Snapshot = Snapshot(position: Position, alternate: bool, captured: bool)

  /** What the lock of `outputUpdate` guards. */
  datatype OutputUpdate = OutputUpdate(latest: Option<Snapshot>, completed: nat, capturing: bool, requested: bool)

  function Stamped(o: OutputUpdate, stamp: nat): Output {
    Output(if o.latest.Some? then Some(Marked(o.latest.value, stamp)) else None, o.completed, o.capturing, o.requested)
  }

  function Marked(s: Snapshot, stamp: nat): Update {
    Update(s.position, s.alternate, s.captured, stamp)
  }

  class PaneView {
    /** What the surface and the user answer when main asks, and how often it has asked. */
    const answers: Answers
    var asked: nat

    /** The locked cells `content` and `outputUpdate`. */
    var content: Content
    var outputUpdate: OutputUpdate
    /** The locked cells `target` and `viewport`, the surface's position, and main's fields of the scroller. */
    var scroll: Scroll
    /** What was posted to the serial queue and to main. */
    var queues: Queues
    /** Main's other fields. */
    var view: PaneProtocol.View

    ghost var stamp: nat
    ghost var running: Running
    ghost var past: Past

    /** The protocol's state, if main still has `todo` to do. */
    ghost function At(todo: Todo): State
      reads this
    {
      State(content, Stamped(outputUpdate, stamp), scroll, queues, running, todo, view, past)
    }

    constructor (answers: Answers, start: Position, alternate: bool, captured: bool)
      ensures Init(At(Idle)) && asked == 0 && this.answers == answers
    {
      this.answers, asked := answers, 0;
      content := Content(Off, 0, false);
      outputUpdate := OutputUpdate(None, 0, false, false);
      scroll := Scroll(None, 0, start, 0, None, start, None);
      queues := Queues(0, 0, [], 0, []);
      view := PaneProtocol.View.View(NoCopy, false, false, alternate, captured);
      stamp, running, past := 0, NoJob, Past(0, 0, 0, 0, false, false, false, None);
    }

    // ----- scrolling, on main -----

    method QueueScroll(ghost rest: Todo)
      modifies `scroll, `queues
      ensures Leads(answers, old(At(Do(S(ScrollOp.QueueScroll), rest))), asked, At(rest), asked)
      ensures old(scroll.pending) == None ==>
                scroll == old(scroll).(pending := Some(old(scroll.intent)))
                && queues == old(queues).(scrolls := old(queues.scrolls) + [old(scroll.intent)])
      ensures old(scroll.pending).Some? ==> scroll == old(scroll) && queues == old(queues)
    {
      ghost var s := At(Do(S(ScrollOp.QueueScroll), rest));
      if scroll.pending == None {
        var revision := scroll.intent;
        scroll := scroll.(pending := Some(revision));
        queues := queues.(scrolls := queues.scrolls + [revision]);
      }
      Steps(answers, s, asked, At(rest), asked);
    }

    method RequestScrollDistance(ghost rest: Todo)
      modifies `scroll, `queues, `asked
      ensures Leads(answers, old(At(Do(S(RequestScroll), rest))), old(asked), At(rest), asked)
      ensures var wish := answers(old(asked), 0.0);
              var from := if wish.yes then wish.position else old(scroll.position);
              var before := if old(scroll.target).Some? then old(scroll.target).value else (from.history - from.offset) as real;
              var distance := Within(wish.wanted, from.history);
              && asked == old(asked) + 1
              && (distance == before ==> scroll == old(scroll) && queues == old(queues))
              && (distance != before ==>
                    && scroll.target == Some(distance) && scroll.intent == old(scroll.intent) + 1 && scroll.pending.Some?
                    && scroll.position == old(scroll.position) && scroll.shown == old(scroll.shown)
                    && scroll.adjustment == old(scroll.adjustment) && scroll.geometry == old(scroll.geometry))
    {
      ghost var s, a := At(Do(S(RequestScroll), rest)), asked;
      var wish := answers(asked, 0.0);
      asked := asked + 1;
      var snapshot := if wish.yes then wish.position else scroll.position;
      var previous := if scroll.target.Some? then scroll.target.value else snapshot.Distance() as real;
      var distance := Max(0.0, Min(snapshot.history as real, wish.wanted));
      if distance == previous {
        Steps(answers, s, a, At(rest), asked);
        return;
      }
      scroll := scroll.(intent := scroll.intent + 1);
      ghost var s1 := At(Do(S(SetTarget(distance)), rest));
      AimAt(distance, rest);
      StepsOn(answers, s, a, s1, asked, At(rest), asked);
    }

    method AimAt(distance: real, ghost rest: Todo)
      modifies `scroll, `queues
      ensures Leads(answers, old(At(Do(S(SetTarget(distance)), rest))), asked, At(rest), asked)
      ensures scroll == old(scroll).(target := Some(distance), pending := scroll.pending) && scroll.pending.Some?
    {
      ghost var s := At(Do(S(SetTarget(distance)), rest));
      scroll := scroll.(target := Some(distance));
      ghost var s1 := At(Do(S(ScrollOp.QueueScroll), rest));
      QueueScroll(rest);
      StepsOn(answers, s, asked, s1, asked, At(rest), asked);
    }

    /** The section of snapScroll and what it presents. */
    method Align(ghost rest: Todo)
      modifies `scroll, `asked, `past
      ensures Leads(answers, old(At(Do(S(SnapSection), rest))), old(asked), At(rest), asked)
      ensures old(scroll.target) == None ==> scroll == old(scroll) && asked == old(asked)
      ensures old(scroll.target).Some? ==>
                && scroll.target.Some? && NearestRow(old(scroll.target).value, scroll.target.value)
                && asked == old(asked) + 1 && scroll.intent == old(scroll.intent) && scroll.pending == old(scroll.pending)
                && var answer := answers(old(asked), scroll.target.value);
                   if answer.yes then
                     && scroll.position == scroll.geometry == answer.position && scroll.shown == scroll.target
                     && scroll.adjustment - old(scroll.adjustment) == scroll.position.Distance() - old(scroll.position).Distance()
                   else
                     && scroll.position == old(scroll.position) && scroll.geometry == old(scroll.geometry)
                     && scroll.shown == old(scroll.shown) && scroll.adjustment == old(scroll.adjustment)
    {
      ghost var s, a := At(Do(S(SnapSection), rest)), asked;
      if scroll.target == None {
        Steps(answers, s, a, At(rest), asked);
        return;
      }
      var aligned := Rounded(scroll.target.value);
      scroll := scroll.(target := Some(aligned));
      var answer := answers(asked, aligned);
      asked := asked + 1;
      RoundedIsNearest(old(scroll.target).value);
      if !answer.yes {
        past := past.(refused := true);
        Steps(answers, s, a, At(rest), asked);
        return;
      }
      past := past.(placed := Some(aligned));
      var delta := answer.position.Distance() - scroll.position.Distance();
      scroll := scroll.(adjustment := scroll.adjustment + delta, position := answer.position);
      ghost var s1 := At(Do(S(Present(Some(aligned), answer.position)), rest));
      scroll := scroll.(geometry := answer.position, shown := Some(aligned));
      Steps(answers, s1, asked, At(rest), asked);
      StepsOn(answers, s, a, s1, asked, At(rest), asked);
    }

    method SnapScroll(ghost rest: Todo)
      modifies `scroll, `asked, `past
      ensures Leads(answers, old(At(Do(S(Snap), rest))), old(asked), At(rest), asked)
      ensures old(scroll.target) == None ==> scroll == old(scroll).(intent := old(scroll.intent) + 1) && asked == old(asked)
      ensures old(scroll.target).Some? ==>
                && scroll.target.Some? && NearestRow(old(scroll.target).value, scroll.target.value)
                && asked == old(asked) + 1 && scroll.intent == old(scroll.intent) + 1 && scroll.pending == old(scroll.pending)
                && var answer := answers(old(asked), scroll.target.value);
                   if answer.yes then
                     && scroll.position == scroll.geometry == answer.position && scroll.shown == scroll.target
                     && scroll.adjustment - old(scroll.adjustment) == scroll.position.Distance() - old(scroll.position).Distance()
                   else
                     && scroll.position == old(scroll.position) && scroll.geometry == old(scroll.geometry)
                     && scroll.shown == old(scroll.shown) && scroll.adjustment == old(scroll.adjustment)
    {
      ghost var s, a := At(Do(S(Snap), rest)), asked;
      scroll := scroll.(intent := scroll.intent + 1);
      ghost var s1 := At(Do(S(SnapSection), rest));
      Align(rest);
      StepsOn(answers, s, a, s1, a, At(rest), asked);
    }

    /** The section of resetScroll and what it presents. */
    method ToBottom(ghost rest: Todo)
      modifies `scroll, `asked, `past
      ensures Leads(answers, old(At(Do(S(ResetSection), rest))), old(asked), At(rest), asked)
      ensures asked == old(asked) + 1 && scroll.target == old(scroll.target) && scroll.intent == old(scroll.intent)
      ensures scroll.pending == old(scroll.pending)
      ensures scroll.adjustment - old(scroll.adjustment) == scroll.position.Distance() - old(scroll.position).Distance()
      ensures var answer := answers(old(asked), 0.0);
              if answer.yes then scroll.position == scroll.geometry == answer.position && scroll.shown == None
              else scroll == old(scroll)
    {
      ghost var s, a := At(Do(S(ResetSection), rest)), asked;
      var answer := answers(asked, 0.0);
      asked := asked + 1;
      if !answer.yes {
        past := past.(refused := true);
        Steps(answers, s, a, At(rest), asked);
        return;
      }
      past := past.(placed := Some(0.0));
      var delta := answer.position.Distance() - scroll.position.Distance();
      scroll := scroll.(adjustment := scroll.adjustment + delta, position := answer.position);
      ghost var s1 := At(Do(S(Present(None, answer.position)), rest));
      scroll := scroll.(geometry := answer.position, shown := None);
      Steps(answers, s1, asked, At(rest), asked);
      StepsOn(answers, s, a, s1, asked, At(rest), asked);
    }

    method ResetScroll(ghost rest: Todo)
      modifies `scroll, `asked, `past
      ensures Leads(answers, old(At(Do(S(Reset), rest))), old(asked), At(rest), asked)
      ensures scroll.target == None && scroll.intent == old(scroll.intent) + 2 && scroll.pending == old(scroll.pending)
      ensures asked == old(asked) + (if old(scroll.target).Some? then 2 else 1)
      ensures scroll.adjustment - old(scroll.adjustment) == scroll.position.Distance() - old(scroll.position).Distance()
      ensures var answer := answers(asked - 1, 0.0);
              answer.yes ==> scroll.position == scroll.geometry == answer.position && scroll.shown == None
    {
      ghost var s, a := At(Do(S(Reset), rest)), asked;
      ghost var later := Do(S(ResetIntent), rest);
      ghost var s1 := At(Do(S(Snap), later));
      SnapScroll(later);
      ghost var s2, b := At(later), asked;
      scroll := scroll.(intent := scroll.intent + 1);
      ghost var s3 := At(Do(S(ClearTarget), Do(S(ResetSection), rest)));
      scroll := scroll.(target := None);
      ghost var s4 := At(Do(S(ResetSection), rest));
      ToBottom(rest);
      StepsOn(answers, s3, b, s4, b, At(rest), asked);
      StepsOn(answers, s2, b, s3, b, At(rest), asked);
      Then(answers, s1, a, s2, b, At(rest), asked);
      StepsOn(answers, s, a, s1, a, At(rest), asked);
    }

    // ----- copy mode, on main -----

    method EndCopy(ghost rest: Todo)
      modifies `content, `view, `past
      ensures Leads(answers, old(At(Do(C(CopyOp.EndCopy), rest))), asked, At(rest), asked)
      ensures old(view.copyMode) == NoCopy ==> content == old(content) && view == old(view)
      ensures old(view.copyMode) != NoCopy ==>
                && content == old(content).(freeze := Off, dirty := false)
                && view == old(view).(copyMode := NoCopy, restoring := old(view.restoring) || old(content.dirty))
    {
      ghost var s := At(Do(C(CopyOp.EndCopy), rest));
      if view.copyMode == NoCopy {
        Steps(answers, s, asked, At(rest), asked);
        return;
      }
      ghost var s1 := At(Do(C(Thaw), rest));
      var dirty := content.dirty;
      content := content.(freeze := Off, dirty := false);
      view := view.(copyMode := NoCopy);
      past := past.(orphaned := false);
      ghost var s2 := At(if dirty then Do(C(Resync), rest) else rest);
      if dirty {
        view := view.(restoring := true);
        past := past.(lost := 0);
        Steps(answers, s2, asked, At(rest), asked);
      } else {
        Stays(answers, s2, asked);
      }
      StepsOn(answers, s1, asked, s2, asked, At(rest), asked);
      StepsOn(answers, s, asked, s1, asked, At(rest), asked);
    }

    /** The selection of the surface's cursor, and the end of copy mode where the surface refuses it. */
    method SelectOrEnd(ghost rest: Todo)
      modifies `content, `view, `asked, `past
      ensures Leads(answers, old(At(Do(C(SelectCursor), rest))), old(asked), At(rest), asked)
      ensures content.parsing == old(content.parsing) && asked == old(asked) + 1
      ensures view.disposed == old(view.disposed) && view.alternate == old(view.alternate) && view.captured == old(view.captured)
      ensures if answers(old(asked), 0.0).yes
              then view.copyMode == Selecting && content == old(content) && view.restoring == old(view.restoring)
              else old(view.copyMode) != NoCopy ==> view.copyMode == NoCopy && content.freeze == Off && !content.dirty
    {
      ghost var s, a := At(Do(C(SelectCursor), rest)), asked;
      var selected := answers(asked, 0.0).yes;
      asked := asked + 1;
      if selected {
        view := view.(copyMode := Selecting);
        Steps(answers, s, a, At(rest), asked);
      } else {
        ghost var s1, b := At(Do(C(CopyOp.EndCopy), rest)), asked;
        EndCopy(rest);
        StepsOn(answers, s, a, s1, b, At(rest), asked);
      }
    }

    /** From the surface's readings to the selection of its cursor. */
    method EnterCursor(ghost rest: Todo)
      modifies `content, `scroll, `view, `asked, `past
      ensures Leads(answers, old(At(Do(C(CopyOp.EnterCursor), rest))), old(asked), At(rest), asked)
      ensures content.parsing == old(content.parsing)
      ensures view.disposed == old(view.disposed) && view.alternate == old(view.alternate)
      ensures view.captured == answers(old(asked), 0.0).captured
      ensures asked >= 1
      ensures if answers(asked - 1, 0.0).yes
              then view.copyMode == Selecting && content == old(content) && view.restoring == old(view.restoring)
              else old(view.copyMode) != NoCopy ==> view.copyMode == NoCopy && content.freeze == Off && !content.dirty
    {
      ghost var s, a := At(Do(C(CopyOp.EnterCursor), rest)), asked;
      view := view.(captured := answers(asked, 0.0).captured);
      asked := asked + 1;
      ghost var s1, b := At(Do(S(Snap), Do(C(SelectCursor), rest))), asked;
      SnapAndSelect(rest);
      StepsOn(answers, s, a, s1, b, At(rest), asked);
    }

    method SnapAndSelect(ghost rest: Todo)
      modifies `content, `scroll, `view, `asked, `past
      ensures Leads(answers, old(At(Do(S(Snap), Do(C(SelectCursor), rest)))), old(asked), At(rest), asked)
      ensures content.parsing == old(content.parsing) && asked > old(asked)
      ensures view.disposed == old(view.disposed) && view.alternate == old(view.alternate) && view.captured == old(view.captured)
      ensures if answers(asked - 1, 0.0).yes
              then view.copyMode == Selecting && content == old(content) && view.restoring == old(view.restoring)
              else old(view.copyMode) != NoCopy ==> view.copyMode == NoCopy && content.freeze == Off && !content.dirty
    {
      ghost var later := Do(C(SelectCursor), rest);
      ghost var s1, b := At(Do(S(Snap), later)), asked;
      SnapScroll(later);
      ghost var s2, c := At(later), asked;
      SelectOrEnd(rest);
      Then(answers, s1, b, s2, c, At(rest), asked);
    }

    /** An entry waits for neither a restore nor a feed. */
    predicate MayComplete()
      reads this
    {
      view.copyMode == EnteringCopy && content.freeze == Entering && !view.restoring && content.parsing == 0
    }

    method CompleteEntry(ghost rest: Todo)
      modifies this
      ensures Leads(answers, old(At(Do(C(CopyOp.CompleteEntry), rest))), old(asked), At(rest), asked)
      ensures content.parsing == old(content.parsing) && outputUpdate == old(outputUpdate) && view.disposed == old(view.disposed)
      ensures queues.applies == old(queues.applies) && queues.captures == old(queues.captures)
      ensures !old(MayComplete()) ==>
                && content == old(content) && view == old(view) && scroll == old(scroll) && queues == old(queues)
                && asked == old(asked)
      ensures old(MayComplete()) ==>
                && asked >= 1
                && if answers(asked - 1, 0.0).yes
                   then view.copyMode == Selecting && content == old(content).(freeze := Frozen)
                   else view.copyMode == NoCopy && content == old(content).(freeze := Off, dirty := false)
    {
      ghost var s, a := At(Do(C(CopyOp.CompleteEntry), rest)), asked;
      if view.copyMode != EnteringCopy || view.restoring || content.freeze != Entering || content.parsing != 0 {
        Steps(answers, s, a, At(rest), asked);
        return;
      }
      content := content.(freeze := Frozen);
      past := past.(orphaned := false);
      ghost var s1 := At(Do(V(ReadScroller), Do(C(CopyOp.EnterCursor), rest)));
      EnterFrozen(rest);
      StepsOn(answers, s, a, s1, a, At(rest), asked);
    }

    /** The rest of completeEntry, once the content is frozen. */
    method EnterFrozen(ghost rest: Todo)
      requires view.copyMode == EnteringCopy
      modifies `content, `scroll, `queues, `view, `asked, `past
      ensures var s := old(At(Do(V(ReadScroller), Do(C(CopyOp.EnterCursor), rest))));
              Leads(answers, s, old(asked), At(rest), asked)
      ensures content.parsing == old(content.parsing) && view.disposed == old(view.disposed)
      ensures queues.applies == old(queues.applies) && queues.captures == old(queues.captures) && asked >= 1
      ensures if answers(asked - 1, 0.0).yes
              then view.copyMode == Selecting && content == old(content)
              else view.copyMode == NoCopy && content == old(content).(freeze := Off, dirty := false)
    {
      ghost var later := Do(C(CopyOp.EnterCursor), rest);
      ghost var s1, a := At(Do(V(ReadScroller), later)), asked;
      RefreshScroller(later);
      ghost var s2, b := At(later), asked;
      EnterCursor(rest);
      Then(answers, s1, a, s2, b, At(rest), asked);
    }

    method StartCopy(ghost rest: Todo)
      modifies this
      ensures Leads(answers, old(At(Do(C(CopyOp.StartCopy), rest))), old(asked), At(rest), asked)
      ensures content.parsing == old(content.parsing)
      ensures var may := answers(old(asked), 0.0).yes && !old(view.disposed) && !old(view.restoring)
                         && old(view.copyMode) == NoCopy;
              && (may && content.parsing > 0 ==>
                    content == old(content).(freeze := Entering) && view == old(view).(copyMode := EnteringCopy))
              && (may && content.parsing == 0 ==>
                    && asked > 0
                    && if answers(asked - 1, 0.0).yes
                       then view.copyMode == Selecting && content == old(content).(freeze := Frozen)
                       else view.copyMode == NoCopy && content == old(content).(freeze := Off, dirty := false))
              && (!may ==> view.copyMode == NoCopy)
              && (!may && old(view.copyMode) != NoCopy ==> content.freeze == Off && !content.dirty)
              && (!may && old(view.copyMode) == NoCopy ==> content == old(content))
    {
      ghost var s, a := At(Do(C(CopyOp.StartCopy), rest)), asked;
      var may := answers(asked, 0.0).yes;
      asked := asked + 1;
      if !may || view.disposed || view.restoring || view.copyMode != NoCopy {
        ghost var s1, b := At(Do(C(CopyOp.EndCopy), rest)), asked;
        EndCopy(rest);
        StepsOn(answers, s, a, s1, b, At(rest), asked);
        return;
      }
      view := view.(copyMode := EnteringCopy);
      content := content.(freeze := Entering);
      ghost var s1, b := At(Do(C(CopyOp.CompleteEntry), rest)), asked;
      CompleteEntry(rest);
      StepsOn(answers, s, a, s1, b, At(rest), asked);
    }

    // ----- the scroller, on main -----

    /** updateAlternate, once the screen has changed. */
    method UpdateAlternate(nowAlternate: bool, ghost rest: Todo)
      modifies `content, `scroll, `view, `asked, `past
      ensures Leads(answers, old(At(Do(V(SwitchAlternate(nowAlternate)), rest))), old(asked), At(rest), asked)
      ensures view.alternate == nowAlternate && scroll.target == None && scroll.intent == old(scroll.intent) + 2
      ensures scroll.pending == old(scroll.pending)
      ensures content.parsing == old(content.parsing)
      ensures view.disposed == old(view.disposed) && view.captured == old(view.captured)
      ensures old(view.copyMode) == EnteringCopy ==> content == old(content) && view == old(view).(alternate := nowAlternate)
      ensures old(view.copyMode) != EnteringCopy ==>
                view.copyMode == NoCopy && content.freeze == if old(view.copyMode) == NoCopy then old(content.freeze) else Off
    {
      ghost var s, a := At(Do(V(SwitchAlternate(nowAlternate)), rest)), asked;
      ghost var later := Do(V(SetAlternate(nowAlternate)), rest);
      ghost var s1 := At(if view.copyMode == EnteringCopy then later else Do(C(CopyOp.EndCopy), later));
      if view.copyMode == EnteringCopy {
        Stays(answers, s1, a);
      } else {
        EndCopy(later);
      }
      ghost var s2 := At(later);
      view := view.(alternate := nowAlternate);
      ghost var s3 := At(Do(S(Reset), rest));
      ResetScroll(rest);
      StepsOn(answers, s2, a, s3, a, At(rest), asked);
      Then(answers, s1, a, s2, a, At(rest), asked);
      StepsOn(answers, s, a, s1, a, At(rest), asked);
    }

    /** The end of updateScroller. */
    method FinishUpdate(p: Position, nowAlternate: bool, ghost rest: Todo)
      modifies `scroll, `queues
      ensures Leads(answers, old(At(Do(V(ViewOp.FinishUpdate(p, nowAlternate)), rest))), asked, At(rest), asked)
      ensures scroll.geometry == p && scroll.pending.Some? && scroll.intent == old(scroll.intent)
      ensures scroll.target == if nowAlternate then None else old(scroll.target)
      ensures queues.applies == old(queues.applies) && queues.captures == old(queues.captures)
    {
      ghost var s := At(Do(V(ViewOp.FinishUpdate(p, nowAlternate)), rest));
      scroll := scroll.(geometry := p);
      ghost var queueing := Do(S(ScrollOp.QueueScroll), rest);
      ghost var s1 := At(if nowAlternate then Do(S(ClearTarget), queueing) else queueing);
      if nowAlternate {
        scroll := scroll.(target := None);
        Steps(answers, s1, asked, At(queueing), asked);
      } else {
        Stays(answers, s1, asked);
      }
      ghost var s2 := At(queueing);
      QueueScroll(rest);
      Then(answers, s1, asked, s2, asked, At(rest), asked);
      StepsOn(answers, s, asked, s1, asked, At(rest), asked);
    }

    /** What the scroller shows is not what it should show. */
    predicate Differs(p: Position, nowAlternate: bool)
      reads this
    {
      || view.alternate != nowAlternate || scroll.geometry.history != p.history || scroll.geometry.rows != p.rows
      || (scroll.target == None && scroll.geometry.offset != p.offset)
    }

    method SwitchIfChanged(nowAlternate: bool, ghost later: Todo)
      modifies `content, `scroll, `view, `asked, `past
      ensures var s := old(At(if view.alternate != nowAlternate then Do(V(SwitchAlternate(nowAlternate)), later) else later));
              Leads(answers, s, old(asked), At(later), asked)
      ensures content.parsing == old(content.parsing)
      ensures view.disposed == old(view.disposed) && view.captured == old(view.captured)
      ensures view.alternate == nowAlternate && scroll.intent >= old(scroll.intent) && scroll.pending == old(scroll.pending)
      ensures old(view.copyMode) == EnteringCopy || old(view.alternate) == nowAlternate ==>
                content == old(content) && view == old(view).(alternate := nowAlternate)
      ensures old(view.copyMode) != EnteringCopy && old(view.alternate) != nowAlternate ==> view.copyMode == NoCopy
      ensures if old(view.alternate) == nowAlternate then scroll == old(scroll) && asked == old(asked) else scroll.target == None
    {
      if view.alternate != nowAlternate {
        UpdateAlternate(nowAlternate, later);
      } else {
        Stays(answers, At(later), asked);
      }
    }

    method UpdateScroller(p: Position, nowAlternate: bool, ghost rest: Todo)
      modifies `content, `scroll, `queues, `view, `asked, `past
      ensures Leads(answers, old(At(Do(V(ViewOp.UpdateScroller(p, nowAlternate)), rest))), old(asked), At(rest), asked)
      ensures content.parsing == old(content.parsing)
      ensures view.disposed == old(view.disposed) && view.captured == old(view.captured)
      ensures queues.applies == old(queues.applies) && queues.captures == old(queues.captures) && view.alternate == nowAlternate
      ensures old(view.copyMode) == EnteringCopy || old(view.alternate) == nowAlternate ==>
                content == old(content) && view == old(view).(alternate := nowAlternate)
      ensures old(view.copyMode) != EnteringCopy && old(view.alternate) != nowAlternate ==> view.copyMode == NoCopy
      ensures if old(Differs(p, nowAlternate))
              then && scroll.geometry == p && scroll.pending.Some? && scroll.intent > old(scroll.intent)
                   && scroll.target == if nowAlternate || old(view.alternate) then None else old(scroll.target)
              else scroll == old(scroll) && queues == old(queues) && asked == old(asked)
    {
      ghost var s, a := At(Do(V(ViewOp.UpdateScroller(p, nowAlternate)), rest)), asked;
      var changed := view.alternate != nowAlternate || scroll.geometry.history != p.history
                     || scroll.geometry.rows != p.rows || (scroll.target == None && scroll.geometry.offset != p.offset);
      if !changed {
        Steps(answers, s, a, At(rest), asked);
        return;
      }
      BeginUpdate(p, nowAlternate, rest);
    }

    /** An update that has something to change overtakes the scroll jobs under way. */
    method BeginUpdate(p: Position, nowAlternate: bool, ghost rest: Todo)
      requires Differs(p, nowAlternate)
      modifies `content, `scroll, `queues, `view, `asked, `past
      ensures Leads(answers, old(At(Do(V(ViewOp.UpdateScroller(p, nowAlternate)), rest))), old(asked), At(rest), asked)
      ensures content.parsing == old(content.parsing)
      ensures view.disposed == old(view.disposed) && view.captured == old(view.captured)
      ensures queues.applies == old(queues.applies) && queues.captures == old(queues.captures) && view.alternate == nowAlternate
      ensures old(view.copyMode) == EnteringCopy || old(view.alternate) == nowAlternate ==>
                content == old(content) && view == old(view).(alternate := nowAlternate)
      ensures old(view.copyMode) != EnteringCopy && old(view.alternate) != nowAlternate ==> view.copyMode == NoCopy
      ensures scroll.geometry == p && scroll.pending.Some? && scroll.intent > old(scroll.intent)
      ensures scroll.target == if nowAlternate || old(view.alternate) then None else old(scroll.target)
    {
      ghost var s, a := At(Do(V(ViewOp.UpdateScroller(p, nowAlternate)), rest)), asked;
      scroll := scroll.(intent := scroll.intent + 1);
      ghost var later := Do(V(ViewOp.FinishUpdate(p, nowAlternate)), rest);
      ghost var s1 := At(if view.alternate != nowAlternate then Do(V(SwitchAlternate(nowAlternate)), later) else later);
      ChangeScroller(p, nowAlternate, rest);
      StepsOn(answers, s, a, s1, a, At(rest), asked);
    }

    /** The two halves of an update that has something to change. */
    method ChangeScroller(p: Position, nowAlternate: bool, ghost rest: Todo)
      modifies `content, `scroll, `queues, `view, `asked, `past
      ensures var later := Do(V(ViewOp.FinishUpdate(p, nowAlternate)), rest);
              var s := old(At(if view.alternate != nowAlternate then Do(V(SwitchAlternate(nowAlternate)), later) else later));
              Leads(answers, s, old(asked), At(rest), asked)
      ensures content.parsing == old(content.parsing)
      ensures view.disposed == old(view.disposed) && view.captured == old(view.captured)
      ensures queues.applies == old(queues.applies) && queues.captures == old(queues.captures) && view.alternate == nowAlternate
      ensures old(view.copyMode) == EnteringCopy || old(view.alternate) == nowAlternate ==>
                content == old(content) && view == old(view).(alternate := nowAlternate)
      ensures old(view.copyMode) != EnteringCopy && old(view.alternate) != nowAlternate ==> view.copyMode == NoCopy
      ensures scroll.geometry == p && scroll.pending.Some? && scroll.intent >= old(scroll.intent)
      ensures scroll.target == if nowAlternate || old(view.alternate) then None else old(scroll.target)
    {
      ghost var later, a := Do(V(ViewOp.FinishUpdate(p, nowAlternate)), rest), asked;
      ghost var s1 := At(if view.alternate != nowAlternate then Do(V(SwitchAlternate(nowAlternate)), later) else later);
      SwitchIfChanged(nowAlternate, later);
      ghost var s2, b := At(later), asked;
      FinishUpdate(p, nowAlternate, rest);
      Then(answers, s1, a, s2, b, At(rest), asked);
    }

    method RefreshScroller(ghost rest: Todo)
      modifies `content, `scroll, `queues, `view, `asked, `past
      ensures Leads(answers, old(At(Do(V(ReadScroller), rest))), old(asked), At(rest), asked)
      ensures content.parsing == old(content.parsing)
      ensures view.disposed == old(view.disposed) && view.captured == old(view.captured)
      ensures queues.applies == old(queues.applies) && queues.captures == old(queues.captures)
      ensures old(view.copyMode) == EnteringCopy ==>
                content == old(content) && view == old(view).(alternate := answers(old(asked), 0.0).alternate)
      ensures view.alternate == answers(old(asked), 0.0).alternate
      ensures old(Differs(scroll.position, answers(asked, 0.0).alternate)) ==>
                scroll.geometry == old(scroll.position) && scroll.pending.Some?
    {
      ghost var s, a := At(Do(V(ReadScroller), rest)), asked;
      var nowAlternate := answers(asked, 0.0).alternate;
      asked := asked + 1;
      ghost var s1, b := At(Do(V(ViewOp.UpdateScroller(scroll.position, nowAlternate)), rest)), asked;
      UpdateScroller(scroll.position, nowAlternate, rest);
      StepsOn(answers, s, a, s1, b, At(rest), asked);
    }

    // ----- snapshots, on main -----

    method CaptureScrollerIfNeeded(ghost rest: Todo)
      modifies `outputUpdate, `queues, `past
      ensures Leads(answers, old(At(Do(O(Capture), rest))), asked, At(rest), asked)
      ensures var capture := !view.disposed && scroll.target == None && old(outputUpdate.latest) == None
                             && !old(outputUpdate.capturing) && old(outputUpdate.requested);
              && outputUpdate == old(outputUpdate).(capturing := old(outputUpdate.capturing) || capture)
              && queues == old(queues).(captures := old(queues.captures) + (if capture then 1 else 0))
    {
      ghost var s := At(Do(O(Capture), rest));
      if view.disposed || scroll.target.Some? {
        past := past.(skipped := past.skipped || outputUpdate.requested);
        Steps(answers, s, asked, At(rest), asked);
        return;
      }
      ghost var s1 := At(Do(O(CaptureSection), rest));
      if outputUpdate.latest == None && !outputUpdate.capturing && outputUpdate.requested {
        outputUpdate := outputUpdate.(capturing := true);
        queues := queues.(captures := queues.captures + 1);
      }
      Steps(answers, s1, asked, At(rest), asked);
      StepsOn(answers, s, asked, s1, asked, At(rest), asked);
    }

    method RefreshScrollerAfterRender(ghost rest: Todo)
      modifies `outputUpdate, `queues, `past
      ensures Leads(answers, old(At(Do(O(RefreshRequest), rest))), asked, At(rest), asked)
      ensures outputUpdate.requested == (old(outputUpdate.requested) || scroll.target == None)
      ensures outputUpdate.latest == old(outputUpdate.latest) && outputUpdate.completed == old(outputUpdate.completed)
      ensures scroll.target == None && !view.disposed ==> outputUpdate.capturing || outputUpdate.latest.Some?
      ensures outputUpdate.capturing == old(outputUpdate.capturing) <==> queues.captures == old(queues.captures)
    {
      ghost var s := At(Do(O(RefreshRequest), rest));
      if scroll.target.Some? {
        Steps(answers, s, asked, At(rest), asked);
        return;
      }
      ghost var s1 := At(Do(O(MarkRequested), Do(O(Capture), rest)));
      outputUpdate := outputUpdate.(requested := true);
      past := past.(requests := past.requests + 1);
      ghost var s2 := At(Do(O(Capture), rest));
      CaptureScrollerIfNeeded(rest);
      StepsOn(answers, s1, asked, s2, asked, At(rest), asked);
      StepsOn(answers, s, asked, s1, asked, At(rest), asked);
    }

    /** applyOutputUpdate after its two sections, with the snapshot that it took. */
    method Adopt(update: Snapshot, ghost mark: nat)
      modifies this
      ensures Leads(answers, old(At(Do(O(OutputOp.Adopt(Marked(update, mark))), Idle))), old(asked), At(Idle), asked)
      ensures content.parsing == old(content.parsing) && queues.applies == old(queues.applies)
      ensures outputUpdate.latest == old(outputUpdate.latest) && outputUpdate.completed == old(outputUpdate.completed)
      ensures old(view.copyMode) != EnteringCopy ==>
                && view.captured == update.captured && view.alternate == update.alternate
                && (scroll.pending.Some? || scroll.shown == scroll.target)
    {
      ghost var s, a := At(Do(O(OutputOp.Adopt(Marked(update, mark))), Idle)), asked;
      past := past.(applied := mark);
      ghost var later := Do(O(AfterAdopt(update.captured)), Idle);
      ghost var s1 := At(Do(V(ViewOp.UpdateScroller(update.position, update.alternate)), later));
      UpdateScroller(update.position, update.alternate, later);
      ghost var s2, b := At(later), asked;
      QueueIfMoved(update.captured);
      ghost var s3 := At(Do(O(CheckCaptured(update.captured)), Idle));
      FinishAdopt(update.captured);
      Then(answers, s2, b, s3, b, At(Idle), asked);
      Then(answers, s1, a, s2, b, At(Idle), asked);
      StepsOn(answers, s, a, s1, a, At(Idle), asked);
    }

    /** A feed may have moved the target: a scroll job presents it. */
    method QueueIfMoved(nowCaptured: bool)
      modifies `scroll, `queues
      ensures var next := Do(O(CheckCaptured(nowCaptured)), Idle);
              Leads(answers, old(At(Do(O(AfterAdopt(nowCaptured)), Idle))), asked, At(next), asked)
      ensures scroll == old(scroll).(pending := scroll.pending) && (scroll.pending.Some? || scroll.shown == scroll.target)
      ensures old(scroll.pending).Some? ==> scroll.pending == old(scroll.pending)
      ensures queues.applies == old(queues.applies)
    {
      ghost var s := At(Do(O(AfterAdopt(nowCaptured)), Idle));
      ghost var later := Do(O(CheckCaptured(nowCaptured)), Idle);
      if scroll.target != scroll.shown {
        ghost var s1 := At(Do(S(ScrollOp.QueueScroll), later));
        QueueScroll(later);
        StepsOn(answers, s, asked, s1, asked, At(later), asked);
      } else {
        Steps(answers, s, asked, At(later), asked);
      }
    }

    method FinishAdopt(nowCaptured: bool)
      modifies this
      ensures Leads(answers, old(At(Do(O(CheckCaptured(nowCaptured)), Idle))), old(asked), At(Idle), asked)
      ensures content.parsing == old(content.parsing) && queues.applies == old(queues.applies)
      ensures outputUpdate.latest == old(outputUpdate.latest) && outputUpdate.completed == old(outputUpdate.completed)
      ensures old(view.copyMode) != EnteringCopy ==>
                && view == old(view).(captured := nowCaptured)
                && (old(scroll.pending).Some? || old(scroll.shown) == old(scroll.target) ==>
                      scroll.pending.Some? || scroll.shown == scroll.target)
    {
      ghost var s, a := At(Do(O(CheckCaptured(nowCaptured)), Idle)), asked;
      RoundIfSwitched(nowCaptured);
      ghost var s3 := At(Do(O(SetCaptured(nowCaptured)), Idle));
      view := view.(captured := nowCaptured);
      ghost var s4 := At(Do(C(CopyOp.CompleteEntry), Do(O(Capture), Idle)));
      CompleteAndCapture();
      StepsOn(answers, s3, a, s4, a, At(Idle), asked);
      Then(answers, s, a, s3, a, At(Idle), asked);
    }

    /** A change of mouse capture ends the reader's scrolling on a whole row. */
    method RoundIfSwitched(nowCaptured: bool)
      modifies `scroll, `queues
      ensures var later := Do(O(SetCaptured(nowCaptured)), Idle);
              Leads(answers, old(At(Do(O(CheckCaptured(nowCaptured)), Idle))), asked, At(later), asked)
      ensures queues.applies == old(queues.applies)
      ensures nowCaptured == view.captured ==> scroll == old(scroll)
      ensures nowCaptured != view.captured ==>
                && scroll.intent == old(scroll.intent) + 1 && scroll.pending.Some? && scroll.shown == old(scroll.shown)
                && (old(scroll.target) == None ==> scroll.target == None)
                && (old(scroll.target).Some? ==>
                      scroll.target.Some? && NearestRow(old(scroll.target).value, scroll.target.value))
    {
      ghost var s := At(Do(O(CheckCaptured(nowCaptured)), Idle));
      ghost var later := Do(O(SetCaptured(nowCaptured)), Idle);
      if nowCaptured == view.captured {
        Steps(answers, s, asked, At(later), asked);
        return;
      }
      scroll := scroll.(intent := scroll.intent + 1);
      ghost var s1 := At(Do(S(RoundTarget), later));
      if scroll.target.Some? {
        RoundedIsNearest(scroll.target.value);
      }
      scroll := scroll.(target := if scroll.target.Some? then Some(Rounded(scroll.target.value)) else None);
      ghost var s2 := At(Do(S(ScrollOp.QueueScroll), later));
      QueueScroll(later);
      StepsOn(answers, s1, asked, s2, asked, At(later), asked);
      StepsOn(answers, s, asked, s1, asked, At(later), asked);
    }

    method CompleteAndCapture()
      modifies this
      ensures Leads(answers, old(At(Do(C(CopyOp.CompleteEntry), Do(O(Capture), Idle)))), old(asked), At(Idle), asked)
      ensures content.parsing == old(content.parsing) && queues.applies == old(queues.applies)
      ensures outputUpdate.latest == old(outputUpdate.latest) && outputUpdate.completed == old(outputUpdate.completed)
      ensures old(view.copyMode) != EnteringCopy ==> view == old(view) && scroll == old(scroll)
    {
      ghost var capturing := Do(O(Capture), Idle);
      ghost var s, a := At(Do(C(CopyOp.CompleteEntry), capturing)), asked;
      CompleteEntry(capturing);
      ghost var s1, b := At(capturing), asked;
      CaptureScrollerIfNeeded(Idle);
      Then(answers, s, a, s1, b, At(Idle), asked);
    }

    method ApplyOutputUpdate()
      requires queues.applies > 0
      modifies this
      ensures Leads(answers, TakeUpdate(old(At(Idle))), old(asked), At(Idle), asked)
      ensures content.parsing == old(content.parsing) - old(outputUpdate.completed) && queues.applies == old(queues.applies) - 1
      ensures outputUpdate.latest == None && outputUpdate.completed == 0
      ensures old(outputUpdate.latest) == None ==> scroll == old(scroll) && view == old(view)
      ensures old(outputUpdate.latest).Some? && old(view.copyMode) != EnteringCopy ==>
                && view.captured == old(outputUpdate.latest).value.captured
                && view.alternate == old(outputUpdate.latest).value.alternate
                && (scroll.pending.Some? || scroll.shown == scroll.target)
    {
      ghost var s, a, mark := TakeUpdate(At(Idle)), asked, stamp;
      queues := queues.(applies := queues.applies - 1);
      var update, completed := outputUpdate.latest, outputUpdate.completed;
      outputUpdate := outputUpdate.(latest := None, completed := 0);
      content := content.(parsing := content.parsing - completed);
      if update == None {
        Steps(answers, s, a, At(Idle), asked);
        return;
      }
      ghost var s1 := At(Do(O(OutputOp.Adopt(Marked(update.value, mark))), Idle));
      Adopt(update.value, mark);
      StepsOn(answers, s, a, s1, a, At(Idle), asked);
    }

    /** The closure that ends a scroll job. */
    method EndScrollJob()
      requires queues.dones != []
      modifies `scroll, `queues, `past
      ensures Leads(answers, EndScroll(old(At(Idle))), asked, At(Idle), asked)
      ensures queues.dones == old(queues.dones)[1..] && scroll.target == old(scroll.target) && scroll.intent == old(scroll.intent)
      ensures old(scroll.pending) != Some(old(queues.dones)[0].revision) ==> scroll == old(scroll)
      ensures var done := old(queues.dones)[0];
              old(scroll.pending) == Some(done.revision) ==>
                && (if done.revision == scroll.intent && done.moved.Some?
                    then scroll.geometry == done.moved.value && scroll.shown == done.distance
                    else scroll.geometry == old(scroll.geometry) && scroll.shown == old(scroll.shown))
                && (scroll.pending ==
                    if done.revision != scroll.intent || done.distance != scroll.target then Some(scroll.intent) else None)
    {
      ghost var s := EndScroll(At(Idle));
      var done := queues.dones[0];
      queues := queues.(dones := queues.dones[1..]);
      if scroll.pending != Some(done.revision) {
        Stays(answers, s, asked);
        return;
      }
      scroll := scroll.(pending := None);
      if scroll.intent != done.revision {
        QueueScroll(Idle);
        return;
      }
      if done.moved.Some? {
        scroll := scroll.(geometry := done.moved.value, shown := done.distance);
        past := past.(refused := false);
      }
      if scroll.target != done.distance {
        ghost var s1 := At(Do(S(ScrollOp.QueueScroll), Idle));
        QueueScroll(Idle);
        StepsOn(answers, s, asked, s1, asked, At(Idle), asked);
      } else {
        Steps(answers, s, asked, At(Idle), asked);
      }
    }

    // ----- on the serial queue -----

    /** The second section of publishOutputUpdate, and the closure it may post. */
    method StoreUpdate(update: Snapshot, feed: bool, ghost mark: nat, env: Env, ghost todo: Todo) returns (post: bool)
      requires running == PublishStore(feed, Marked(update, mark))
      modifies `outputUpdate, `queues, `running, `stamp
      ensures post == (old(outputUpdate.latest) == None) && running == NoJob
      ensures Plays(old(At(todo)), [Queue(env)] + (if post then [Queue(env)] else []), At(todo))
      ensures outputUpdate == OutputUpdate(Some(update), old(outputUpdate.completed) + (if feed then 1 else 0),
                                           old(outputUpdate.capturing) && feed, old(outputUpdate.requested))
      ensures queues == old(queues).(applies := old(queues.applies) + (if post then 1 else 0))
    {
      ghost var s := At(todo);
      post := outputUpdate.latest == None;
      outputUpdate := outputUpdate.(latest := Some(update), completed := outputUpdate.completed + (if feed then 1 else 0));
      if !feed {
        outputUpdate := outputUpdate.(capturing := false);
      }
      stamp, running := mark, if post then PublishPost else NoJob;
      PlaysOne(s, Queue(env));
      ghost var s1 := At(todo);
      if post {
        queues := queues.(applies := queues.applies + 1);
        running := NoJob;
        PlaysOn(s, [Queue(env)], s1, Queue(env), At(todo));
      }
    }

    /** publishOutputUpdate, for a feed or for a capture, when nobody comes between. */
    method PublishOutputUpdate(feed: bool, env: Env, ghost todo: Todo) returns (post: bool)
      requires running == Publish(feed)
      modifies `outputUpdate, `queues, `past, `running, `stamp
      ensures post == (old(outputUpdate.latest) == None) && running == NoJob
      ensures Plays(old(At(todo)), PublishLabels(env, post), At(todo))
      ensures outputUpdate == OutputUpdate(Some(Snapshot(scroll.position, env.alternate, env.captured)),
                                           old(outputUpdate.completed) + (if feed then 1 else 0),
                                           old(outputUpdate.capturing) && feed, false)
      ensures queues == old(queues).(applies := old(queues.applies) + (if post then 1 else 0))
    {
      ghost var s := At(todo);
      outputUpdate := outputUpdate.(requested := false);
      past, running := past.(skipped := false), PublishRead(feed);
      PlaysOne(s, Queue(env));
      ghost var s1 := At(todo);
      var update := Snapshot(scroll.position, env.alternate, env.captured);
      ghost var mark := past.requests;
      running := PublishStore(feed, Marked(update, mark));
      PlaysOn(s, [Queue(env)], s1, Queue(env), At(todo));
      ghost var s2 := At(todo);
      post := StoreUpdate(update, feed, mark, env, todo);
      ghost var stored := [Queue(env)] + (if post then [Queue(env)] else []);
      PlaysMore(s, [Queue(env)] + [Queue(env)], s2, stored, At(todo));
    }

    /** ghostty_surface_process_output: the surface takes the bytes in any number of parts. */
    method TakeBytes(parts: seq<Env>, pinned: Option<Pin>, ghost todo: Todo)
      requires running == FeedWrite(pinned, 0) && forall i :: 0 <= i < |parts| ==> parts[i].yes
      modifies `scroll, `past, `running
      ensures Plays(old(At(todo)), OutputLabels(parts), At(todo))
      ensures scroll == old(scroll).(position := if parts == [] then old(scroll).position else parts[|parts| - 1].position)
      ensures running == FeedWrite(pinned, scroll.position.Distance() - old(scroll).position.Distance())
    {
      ghost var s := At(todo);
      for i := 0 to |parts|
        invariant running == FeedWrite(pinned, scroll.position.Distance() - old(scroll).position.Distance())
        invariant scroll == old(scroll).(position := if i == 0 then old(scroll).position else parts[i - 1].position)
        invariant Plays(s, OutputLabels(parts[..i]), At(todo))
      {
        ghost var t := At(todo);
        running := FeedWrite(pinned, running.caused + parts[i].position.Distance() - scroll.position.Distance());
        past := past.(written := past.written + 1);
        scroll := scroll.(position := parts[i].position);
        PlaysOn(s, OutputLabels(parts[..i]), t, Queue(parts[i]), At(todo));
        OneMoreLabel(parts, i);
      }
      assert parts[..|parts|] == parts;
    }

    /** The part of feed before it publishes. */
    method ProcessOutput(parts: seq<Env>, env: Env, ghost todo: Todo)
      requires running == FeedPin && !env.yes && forall i :: 0 <= i < |parts| ==> parts[i].yes
      modifies `scroll, `past, `running
      ensures running == Publish(true)
      ensures Plays(old(At(todo)), [Queue(env)] + OutputLabels(parts) + [Queue(env)], At(todo))
      ensures scroll == Swept(old(scroll), if parts == [] then old(scroll.position) else parts[|parts| - 1].position)
    {
      ghost var s := At(todo);
      var pinned: Option<Pin> := None;
      if scroll.target.Some? && scroll.target.value > 0.0 {
        pinned := Some(Pin(scroll.position.Distance(), scroll.adjustment));
      }
      running := FeedWrite(pinned, 0);
      PlaysOne(s, Queue(env));
      ghost var s1 := At(todo);
      TakeBytes(parts, pinned, todo);
      ghost var t := At(todo);
      PlaysMore(s, [Queue(env)], s1, OutputLabels(parts), t);
      MoveTarget(pinned, env, todo);
      PlaysMore(s, [Queue(env)] + OutputLabels(parts), t, [Queue(env)], At(todo));
    }

    /** The section that ends a feed: what was pinned goes along with the viewport, unless a scroll moved it. */
    method MoveTarget(pinned: Option<Pin>, env: Env, ghost todo: Todo)
      requires running.FeedWrite? && running.pin == pinned && !env.yes
      modifies `scroll, `running
      ensures running == Publish(true) && Plays(old(At(todo)), [Queue(env)], At(todo))
      ensures var c := old(scroll);
              scroll ==
                if pinned == None || c.target == None || c.target.value <= 0.0 then c
                else
                  var scrolled := c.adjustment - pinned.value.adjustment;
                  var delta := c.position.Distance() - pinned.value.distance - scrolled;
                  c.(target := Some(Max(0.0, c.target.value + delta as real)))
    {
      ghost var s := At(todo);
      if pinned.Some? {
        var moved := scroll.position.Distance() - pinned.value.distance;
        var delta := moved - (scroll.adjustment - pinned.value.adjustment);
        if scroll.target.Some? && scroll.target.value > 0.0 {
          scroll := scroll.(target := Some(Max(0.0, scroll.target.value + delta as real)));
        }
      }
      running := Publish(true);
      PlaysOne(s, Queue(env));
    }

    /** A feed that nobody disturbs: a frozen pane refuses it, any other takes it from the lock to the publication. */
    method Feed(parts: seq<Env>, env: Env, ghost todo: Todo) returns (admitted: bool)
      requires running == NoJob && !env.yes && forall i :: 0 <= i < |parts| ==> parts[i].yes
      modifies this
      ensures admitted == (old(content.freeze) == Off)
      ensures var labels := if admitted then FeedLabels(parts, env, old(outputUpdate.latest) == None) else [Label.Feed];
              Plays(old(At(todo)), labels, At(todo))
      ensures admitted ==>
                scroll == Swept(old(scroll), if parts == [] then old(scroll.position) else parts[|parts| - 1].position)
      ensures admitted ==>
                && content == old(content).(parsing := old(content.parsing) + 1)
                && outputUpdate == OutputUpdate(Some(Snapshot(scroll.position, env.alternate, env.captured)),
                                                old(outputUpdate.completed) + 1, old(outputUpdate.capturing), false)
                && queues == old(queues).(applies := old(queues.applies) + (if old(outputUpdate.latest) == None then 1 else 0))
      ensures !admitted ==>
                content == old(content).(dirty := true) && scroll == old(scroll)
                && outputUpdate == old(outputUpdate) && queues == old(queues)
    {
      ghost var s := At(todo);
      admitted := content.freeze == Off;
      if !admitted {
        content := content.(dirty := true);
        past := past.(lost := past.lost + 1);
        PlaysOn(s, [], s, Label.Feed, At(todo));
        return;
      }
      content := content.(parsing := content.parsing + 1);
      queues := queues.(waiting := queues.waiting + 1);
      PlaysOn(s, [], s, Label.Feed, At(todo));
      ghost var s1 := At(todo);
      queues := queues.(waiting := queues.waiting - 1);
      running := FeedPin;
      PlaysOn(s, [Label.Feed], s1, StartFeed, At(todo));
      ghost var s2 := At(todo);
      ProcessOutput(parts, env, todo);
      ghost var s3 := At(todo);
      ghost var written := [Queue(env)] + OutputLabels(parts) + [Queue(env)];
      PlaysMore(s, [Label.Feed, StartFeed], s2, written, s3);
      var post := PublishOutputUpdate(true, env, todo);
      PlaysMore(s, [Label.Feed, StartFeed] + written, s3, PublishLabels(env, post), At(todo));
    }

    /** The section of a scroll job: the target as it is now, and where the viewport then is. */
    method MoveViewport(revision: int, surface: real -> Env, ghost todo: Todo) returns (done: Done)
      requires running == ScrollRead(revision)
      modifies `scroll, `past, `running
      ensures running == ScrollPost(done)
      ensures Plays(old(At(todo)), MoveLabels(surface, old(scroll.target)), At(todo))
      ensures done.revision == revision && done.distance == old(scroll.target)
      ensures scroll == old(scroll).(position := scroll.position)
      ensures if scroll.target == None then done.moved == Some(old(scroll.position)) && scroll == old(scroll)
              else
                var answer := surface(scroll.target.value);
                if answer.yes then done.moved == Some(answer.position) && scroll.position == answer.position
                else done.moved == None && scroll == old(scroll)
    {
      ghost var s := At(todo);
      var distance := scroll.target;
      ghost var env := Asked(surface, distance);
      running := ScrollMove(revision, distance);
      PlaysOne(s, Queue(env));
      ghost var s1 := At(todo);
      var moved := Some(scroll.position);
      if distance.Some? {
        var answer := surface(distance.value);
        if answer.yes {
          past := past.(placed := distance);
          scroll := scroll.(position := answer.position);
          moved := Some(answer.position);
        } else {
          past := past.(refused := true);
          moved := None;
        }
      }
      done := Done(revision, distance, moved);
      running := ScrollPost(done);
      PlaysOn(s, [Queue(env)], s1, Queue(env), At(todo));
    }

    /** The job of queueScroll, when nobody comes between. */
    method RunScrollJob(surface: real -> Env, ghost todo: Todo)
      requires running == NoJob && queues.scrolls != []
      modifies `scroll, `queues, `past, `running
      ensures running == NoJob
      ensures Plays(old(At(todo)), JobLabels(surface, old(scroll.target)), At(todo))
      ensures var done := Done(old(queues.scrolls)[0], scroll.target,
                               if scroll.target == None || surface(scroll.target.value).yes then Some(scroll.position) else None);
              queues == old(queues).(scrolls := old(queues.scrolls)[1..], dones := old(queues.dones) + [done])
      ensures scroll == old(scroll).(
                position := if scroll.target.Some? && surface(scroll.target.value).yes
                            then surface(scroll.target.value).position else old(scroll.position))
    {
      ghost var s := At(todo);
      var revision := queues.scrolls[0];
      queues := queues.(scrolls := queues.scrolls[1..]);
      running := ScrollRead(revision);
      PlaysOne(s, StartScroll);
      ghost var s1, moving := At(todo), MoveLabels(surface, scroll.target);
      var done := MoveViewport(revision, surface, todo);
      ghost var s2 := At(todo);
      PlaysMore(s, [StartScroll], s1, moving, s2);
      queues := queues.(dones := queues.dones + [done]);
      running := NoJob;
      PlaysOn(s, [StartScroll] + moving, s2, Queue(Asked(surface, scroll.target)), At(todo));
    }
  }

  /** What the surface answers a scroll job. */
  function Asked(surface: real -> Env, distance: Option<real>): Env {
    surface(if distance.Some? then distance.value else 0.0)
  }

  function MoveLabels(surface: real -> Env, distance: Option<real>): seq<Label> {
    [Queue(Asked(surface, distance))] + [Queue(Asked(surface, distance))]
  }

  function JobLabels(surface: real -> Env, distance: Option<real>): seq<Label> {
    [StartScroll] + MoveLabels(surface, distance) + [Queue(Asked(surface, distance))]
  }

  // ----- the steps of an undisturbed feed -----

  function OutputLabels(parts: seq<Env>): seq<Label> {
    seq(|parts|, i requires 0 <= i < |parts| => Queue(parts[i]))
  }

  lemma {:induction false} OneMoreLabel(parts: seq<Env>, i: nat)
    requires i < |parts|
    ensures OutputLabels(parts[..i + 1]) == OutputLabels(parts[..i]) + [Queue(parts[i])]
  {
  }

  function PublishLabels(env: Env, post: bool): seq<Label> {
    [Queue(env)] + [Queue(env)] + ([Queue(env)] + (if post then [Queue(env)] else []))
  }

  function FeedLabels(parts: seq<Env>, env: Env, post: bool): seq<Label> {
    [Label.Feed, StartFeed] + ([Queue(env)] + OutputLabels(parts) + [Queue(env)]) + PublishLabels(env, post)
  }

  /** The scroll state after output that left the surface at `after`: a positive target goes along. */
  function Swept(c: Scroll, after: Position): Scroll {
    var delta := after.Distance() - c.position.Distance();
    c.(position := after,
       target := if c.target.Some? && c.target.value > 0.0 then Some(Max(0.0, c.target.value + delta as real)) else c.target)
  }
}
