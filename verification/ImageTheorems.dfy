/**
What the answers to the fetches of a frame decide, over whole runs of the protocol
(app/App/PaneImages.swift).
*/
module ImageTheorems {
  import opened Wrappers
  import opened Runs
  import opened ImageProtocol

  /** What `obtain` answered the job, oldest first. A job number stands for one stay of its key in `known`. */
  function AnswersTo(labels: seq<Label>, id: nat): seq<Outcome> {
    if labels == [] then []
    else
      var n := |labels| - 1;
      AnswersTo(labels[..n], id) + if labels[n].Obtain? && labels[n].id == id then [labels[n].outcome] else []
  }

  predicate AllTransient(answers: seq<Outcome>) {
    forall i :: 0 <= i < |answers| ==> answers[i] == Transient
  }

  /** Where a job stands, by the answers it got: only transient failures before the last one, and the last one. */
  predicate Decided(j: Job, answers: seq<Outcome>) {
    && j.tries == |answers|
    && match j.phase {
         case Fresh => answers == []
         case Queued => AllTransient(answers)
         case Running => AllTransient(answers)
         case Delayed => answers != [] && AllTransient(answers)
         case Missing => EndsWith(answers, NotFound)
         case Settling(transient) =>
           if transient then EndsWith(answers, Transient) else EndsWith(answers, Success) || EndsWith(answers, NotFound)
         case _ => EndsWith(answers, Success)
       }
  }

  predicate EndsWith(answers: seq<Outcome>, last: Outcome) {
    answers != [] && AllTransient(answers[..|answers| - 1]) && answers[|answers| - 1] == last
  }

  ghost predicate Ran(run: seq<State>, labels: seq<Label>) {
    IsRun(Next, run, labels) && Init(run[0])
  }

  lemma {:induction false} RanInv(run: seq<State>, labels: seq<Label>, n: nat)
    requires Ran(run, labels) && n <= |labels|
    ensures Inv(run[n])
  {
    forall s, l, t | Inv(s) && Next(s, l, t) ensures Inv(t) {
      StepKeepsInv(s, l);
    }
    Invariant(Next, Inv, run, labels, n);
  }

  lemma {:induction false} LastAnswer(labels: seq<Label>, n: nat, id: nat)
    requires n < |labels|
    ensures var l := labels[n];
            AnswersTo(labels[..n + 1], id) ==
              AnswersTo(labels[..n], id) + (if l.Obtain? && l.id == id then [l.outcome] else [])
  {
    assert labels[..n + 1][..n] == labels[..n];
  }

  /** A number that no job has had got no answers. */
  lemma {:induction false} NoJobNoAnswers(run: seq<State>, labels: seq<Label>, n: nat, id: nat)
    requires Ran(run, labels) && n <= |labels| && id >= run[n].next
    ensures AnswersTo(labels[..n], id) == []
  {
    if n > 0 {
      var s, l := run[n - 1], labels[n - 1];
      assert Next(s, l, run[n]);
      RanInv(run, labels, n - 1);
      LastAnswer(labels, n - 1, id);
      NoJobNoAnswers(run, labels, n - 1, id);
    }
  }

  lemma {:induction false} DecidedAfterStep(s: State, l: Label, id: nat, answers: seq<Outcome>)
    requires Enabled(s, l) && Single(s) && id in s.jobs && Decided(s.jobs[id], answers)
    ensures var t := Step(s, l);
            id in t.jobs ==>
              Decided(t.jobs[id], answers + if l.Obtain? && l.id == id then [l.outcome] else [])
  {
    if l.Walk? {
      WalkAddsJobs(s, l.keys, id);
      assert answers + [] == answers;
    } else if l.Obtain? && l.id == id {
      var more := answers + [l.outcome];
      assert more[..|more| - 1] == answers;
    } else {
      assert answers + [] == answers;
    }
  }

  /**
  A job got exactly as many answers as its key was fetched in this stay. Only NotFound leads to the
  frame being gone, only a success to its being attached, only transient failures to another try.
  */
  lemma {:induction false} AnswersDecide(run: seq<State>, labels: seq<Label>, n: nat, id: nat)
    requires Ran(run, labels) && n <= |labels| && id in run[n].jobs
    ensures Decided(run[n].jobs[id], AnswersTo(labels[..n], id))
  {
    assert n > 0;
    var s, l := run[n - 1], labels[n - 1];
    assert Next(s, l, run[n]);
    RanInv(run, labels, n - 1);
    LastAnswer(labels, n - 1, id);
    if id in s.jobs {
      AnswersDecide(run, labels, n - 1, id);
      DecidedAfterStep(s, l, id, AnswersTo(labels[..n - 1], id));
    } else {
      BornFresh(s, l, id);
      NoJobNoAnswers(run, labels, n - 1, id);
    }
  }

  lemma {:induction false} BornFresh(s: State, l: Label, id: nat)
    requires Enabled(s, l) && Single(s) && id !in s.jobs && id in Step(s, l).jobs
    ensures l.Walk? && id >= s.next && Step(s, l).jobs[id].phase == Fresh && Step(s, l).jobs[id].tries == 0
  {
    if l.Walk? {
      WalkAddsJobs(s, l.keys, id);
    }
  }

  /** A job of key `k` whose last answer was `o` is at step `i` of the run. */
  ghost predicate Got(run: seq<State>, labels: seq<Label>, i: nat, id: nat, k: Key, o: Outcome)
    requires i <= |labels| < |run|
  {
    id in run[i].jobs && run[i].jobs[id].key == k && EndsWith(AnswersTo(labels[..i], id), o)
  }

  /** Every frame in `gone` was answered NotFound. */
  lemma {:induction false} GoneWasNotFound(run: seq<State>, labels: seq<Label>, n: nat, k: Key)
    requires Ran(run, labels) && n <= |labels| && k in run[n].cells.gone
    ensures exists i, id :: 0 <= i < n && Got(run, labels, i, id, k, NotFound)
  {
    assert n > 0;
    var s, l := run[n - 1], labels[n - 1];
    assert Next(s, l, run[n]);
    if k in s.cells.gone {
      GoneWasNotFound(run, labels, n - 1, k);
    } else {
      assert l.MarkGone? && s.jobs[l.id].key == k;
      AnswersDecide(run, labels, n - 1, l.id);
      assert Got(run, labels, n - 1, l.id, k, NotFound);
    }
  }

  /** Every frame offered to the surface was fetched. */
  lemma {:induction false} OfferedWasFetched(run: seq<State>, labels: seq<Label>, n: nat, k: Key)
    requires Ran(run, labels) && n <= |labels| && k in run[n].offered
    ensures exists i, id :: 0 <= i < n && Got(run, labels, i, id, k, Success)
  {
    assert n > 0;
    var s, l := run[n - 1], labels[n - 1];
    assert Next(s, l, run[n]);
    if k in s.offered {
      OfferedWasFetched(run, labels, n - 1, k);
    } else {
      assert l.Attach? && s.jobs[l.id].key == k;
      AnswersDecide(run, labels, n - 1, l.id);
      assert Got(run, labels, n - 1, l.id, k, Success);
    }
  }

  /**
  Before `stop`, a job whose last answer was transient waits for another try, and its key stays known,
  while it was fetched at most as often as there are delays; fetched once more, it gives up.
  */
  lemma {:induction false} SettledExactly(run: seq<State>, labels: seq<Label>, n: nat, id: nat)
    requires Ran(run, labels) && n < |labels| && labels[n] == Settle(id) && !run[n].cells.stopped
    ensures var s, t, answers := run[n], run[n + 1], AnswersTo(labels[..n], id);
            && id in s.jobs && 1 <= |answers| <= s.retries + 1
            && var k, transient := s.jobs[id].key, EndsWith(answers, Transient);
               && (transient && |answers| <= s.retries ==>
                     && id in t.jobs && t.jobs[id] == s.jobs[id].(phase := Delayed) && t.cells.known == s.cells.known
                     && k in t.cells.known && t.failed == s.failed && t.cells.gaveUp == s.cells.gaveUp)
               && (transient && |answers| == s.retries + 1 ==>
                     && id !in t.jobs && t.cells.known == s.cells.known - {k}
                     && t.failed == s.failed + {k} && t.cells.gaveUp)
               && (!transient ==>
                     && id !in t.jobs && t.cells.known == s.cells.known - {k}
                     && t.failed == s.failed && t.cells.gaveUp == s.cells.gaveUp)
  {
    var s := run[n];
    assert Next(s, labels[n], run[n + 1]);
    RanInv(run, labels, n);
    AnswersDecide(run, labels, n, id);
    assert s.jobs[id].key in s.cells.known;
  }

  /** Before `stop`, a frame is given up only by a job that was fetched once more than there are delays, each time in vain. */
  lemma {:induction false} GivenUpAfterAllTries(run: seq<State>, labels: seq<Label>, n: nat, k: Key)
    requires Ran(run, labels) && n < |labels| && !run[n].cells.stopped
    requires (k in run[n + 1].failed && k !in run[n].failed) || (run[n + 1].cells.gaveUp && !run[n].cells.gaveUp)
    ensures labels[n].Settle? && labels[n].id in run[n].jobs
    ensures k in run[n + 1].failed && k !in run[n].failed ==> run[n].jobs[labels[n].id].key == k
    ensures var answers := AnswersTo(labels[..n], labels[n].id); |answers| == run[n].retries + 1 && AllTransient(answers)
  {
    assert Next(run[n], labels[n], run[n + 1]);
    SettledExactly(run, labels, n, labels[n].id);
  }
}
