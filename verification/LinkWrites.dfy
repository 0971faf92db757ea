/**
What `write` does to a lane, in its fields (bench/rtt_proxy.py): the attempts one after the other, why
they end, when the sink closes, and over runs what became of the bytes that the reads delivered.
*/
module LinkWrites {
  import opened Wrappers
  import opened Runs
  import opened Link

  function AnswerAt(answers: seq<Answer>, i: nat): Answer {
    if i < |answers| then answers[i] else Blocks
  }

  /** The tokens of a limited lane at a time. */
  function TokensThen(l: LaneState, now: real): real
    requires l.rate.Some?
  {
    var filled := l.tokens + (now - l.refilled) * l.rate.value;
    if filled > 65536.0 then 65536.0 else filled
  }

  /** `os.write` is reached: the first chunk is due, and there are tokens for all of it or for 4096 bytes. */
  predicate Reached(l: LaneState, now: real) {
    && l.queue != [] && l.sinkOpen && l.queue[0].due <= now
    && (l.rate.Some? ==> TokensThen(l, now) >= |l.queue[0].data| as real || TokensThen(l, now) >= 4096.0)
  }

  /** How many bytes are offered: the first chunk, or as much of it as there are tokens for. */
  function Offered(l: LaneState, now: real): int
    requires l.queue != []
  {
    var size := |l.queue[0].data|;
    if l.rate == None || TokensThen(l, now) >= size as real then size else TokensThen(l, now).Floor
  }

  /** `os.write` took bytes of the first chunk: at least one, at most what it could and what was offered. */
  predicate Sends(l: LaneState, m: LaneState, now: real, count: nat) {
    && l.queue != [] && 0 < Offered(l, now) <= |l.queue[0].data|
    && var data := l.queue[0].data;
       var n := if count < 1 then 1 else if count <= Offered(l, now) then count else Offered(l, now);
       && m.sent == l.sent + Stamps(data[..n], now) && m.bytes == l.bytes + n && m.queued == l.queued - n
       && m.queue == (if n < |data| then [Chunk(l.queue[0].due, data[n..])] else []) + l.queue[1..]
       && !m.blocked && m.sinkOpen && m.sourceOpen == l.sourceOpen && m.received == l.received
       && m.delay == l.delay && m.rate == l.rate
       && (l.rate.Some? ==> m.tokens == TokensThen(l, now) - n as real && m.refilled == now)
  }

  /** Neither the queue nor what was read and sent has changed. */
  predicate Untouched(l: LaneState, m: LaneState) {
    && m.queue == l.queue && m.queued == l.queued && m.sent == l.sent && m.bytes == l.bytes
    && m.received == l.received && m.sourceOpen == l.sourceOpen
  }

  /** The states before the attempts of one call, each of which but the last sent something. */
  predicate Attempted(l: LaneState, now: real, answers: seq<Answer>, s: seq<LaneState>) {
    && s != [] && s[0] == l.(clock := now)
    && forall i :: 0 <= i < |s| - 1 ==>
         Reached(s[i], now) && AnswerAt(answers, i).Wrote? && Sends(s[i], s[i + 1], now, AnswerAt(answers, i).count)
  }

  /**
  What the call leaves behind, if `z` is the lane when it last looks: an empty queue, a chunk that may
  not leave yet, a sink that blocks or a sink that fails.
  */
  predicate Ends(z: LaneState, now: real, answer: Answer, m: LaneState) {
    if z.queue == [] then Untouched(z, m) && (m.sinkOpen <==> z.sourceOpen)
    else if !Reached(z, now) then Untouched(z, m) && m.sinkOpen && m.blocked == z.blocked
    else if answer == Blocks then Untouched(z, m) && m.sinkOpen && m.blocked
    else
      && answer == Fails && !m.sinkOpen && m.queue == [] && m.queued == 0 && m.sent == z.sent && m.bytes == z.bytes
      && m.received == z.received && m.sourceOpen == z.sourceOpen
  }

  lemma {:induction false} ReachedIsAttempts(l: LaneState, now: real)
    ensures Reached(l, now) <==> Attempts(l, now)
  {
    AttemptsIs(l, now);
    if l.rate.Some? && l.queue != [] {
      var tokens, n := TokensThen(l, now), |l.queue[0].data|;
      assert tokens == TokensAt(l, now);
      FloorReaches(tokens, n);
      FloorReaches(tokens, 4096);
      assert Enough(tokens, n) <==> tokens >= n as real || tokens >= 4096.0;
    }
  }

  lemma {:induction false} PassSends(l: LaneState, now: real, count: nat)
    requires Valid(l) && l.queue != [] && l.sinkOpen && Attempts(l, now)
    ensures var p := Pass(l, now, Wrote(count)); p.more && Sends(l, p.lane, now, count)
  {
    PreparedAllows(l, now, count);
    AllowedIsOffered(l, now);
    assert |l.queue[0].data| > 0;
  }

  lemma {:induction false} AllowedIsOffered(l: LaneState, now: real)
    requires l.queue != []
    ensures Allowed(Refill(l, now), l.queue[0].data) == Offered(l, now)
    ensures l.rate.Some? ==> TokensThen(l, now) == TokensAt(l, now)
  {
    if l.rate.Some? {
      FloorReaches(TokensAt(l, now), |l.queue[0].data|);
    }
  }

  lemma {:induction false} PassEnds(l: LaneState, now: real, answer: Answer)
    requires Valid(l) && l.queue != [] && l.sinkOpen && !Pass(l, now, answer).more
    ensures Ends(l, now, answer, Pass(l, now, answer).lane)
  {
    ReachedIsAttempts(l, now);
  }

  lemma {:induction false} LoopAttempts(l: LaneState, now: real, answers: seq<Answer>) returns (s: seq<LaneState>)
    requires Valid(l) && l.clock == now && l.sinkOpen
    ensures Attempted(l, now, answers, s)
    ensures Ends(s[|s| - 1], now, AnswerAt(answers, |s| - 1), WriteLoop(l, now, answers))
    decreases |answers|
  {
    s := [l];
    if l.queue != [] {
      var answer := AnswerAt(answers, 0);
      var p := Pass(l, now, answer);
      if p.more {
        PassKeepsValid(l, now, answer);
        PassSends(l, now, answer.count);
        ReachedIsAttempts(l, now);
        var t := LoopAttempts(p.lane, now, answers[1..]);
        s := [l] + t;
        OneMoreAttempt(l, now, answers, t);
      } else {
        PassEnds(l, now, answer);
      }
    }
  }

  lemma {:induction false} OneMoreAttempt(l: LaneState, now: real, answers: seq<Answer>, t: seq<LaneState>)
    requires l.clock == now && answers != [] && answers[0].Wrote? && Reached(l, now)
    requires t != [] && Attempted(t[0], now, answers[1..], t) && Sends(l, t[0], now, answers[0].count)
    ensures Attempted(l, now, answers, [l] + t) && AnswerAt(answers[1..], |t| - 1) == AnswerAt(answers, |t|)
  {
    var s := [l] + t;
    forall i | 0 <= i < |s| - 1
      ensures Reached(s[i], now) && AnswerAt(answers, i).Wrote? && Sends(s[i], s[i + 1], now, AnswerAt(answers, i).count)
    {
      if i > 0 {
        assert AnswerAt(answers[1..], i - 1) == AnswerAt(answers, i);
        assert Reached(t[i - 1], now);
      }
    }
  }

  /** A call of `write` on an open lane: its attempts, and the reason why they end. */
  lemma {:induction false} WriteAttempts(l: LaneState, now: real, answers: seq<Answer>) returns (s: seq<LaneState>)
    requires Valid(l) && l.clock <= now && l.sinkOpen
    ensures Attempted(l, now, answers, s)
    ensures Ends(s[|s| - 1], now, AnswerAt(answers, |s| - 1), Write(l, now, answers))
  {
    TickKeepsValid(l, now);
    s := LoopAttempts(l.(clock := now), now, answers);
  }

  lemma {:induction false} ClosedStaysAsItIs(l: LaneState, now: real, answers: seq<Answer>)
    requires Valid(l) && l.clock <= now && !l.sinkOpen
    ensures Write(l, now, answers) == l.(clock := now)
  {
  }

  /** The call reaches an `os.write` that fails. */
  ghost predicate FailsIn(l: LaneState, now: real, answers: seq<Answer>) {
    exists s :: Attempted(l, now, answers, s) && Reached(s[|s| - 1], now) && AnswerAt(answers, |s| - 1) == Fails
  }

  lemma {:induction false} SameAttempts(l: LaneState, now: real, answers: seq<Answer>, s: seq<LaneState>, t: seq<LaneState>)
    requires Attempted(l, now, answers, s) && Attempted(l, now, answers, t) && |s| <= |t|
    ensures SameLane(s[|s| - 1], t[|s| - 1], now)
  {
    for i := 0 to |s| - 1
      invariant SameLane(s[i], t[i], now)
    {
      SameSends(s[i], s[i + 1], t[i], t[i + 1], now, AnswerAt(answers, i).count);
    }
  }

  lemma {:induction false} SameSends(a: LaneState, b: LaneState, c: LaneState, d: LaneState, now: real, count: nat)
    requires SameLane(a, c, now) && Sends(a, b, now, count) && Sends(c, d, now, count)
    ensures SameLane(b, d, now)
  {
    assert Offered(a, now) == Offered(c, now);
  }

  predicate SameLane(a: LaneState, b: LaneState, now: real) {
    && Untouched(a, b) && a.sinkOpen == b.sinkOpen && a.rate == b.rate && a.delay == b.delay
    && (a.rate.Some? ==> TokensThen(a, now) == TokensThen(b, now))
  }

  lemma {:induction false} AttemptsSend(l: LaneState, now: real, answers: seq<Answer>, s: seq<LaneState>, i: nat)
    requires Attempted(l, now, answers, s) && i < |s|
    ensures |l.sent| <= |s[i].sent| <= |l.sent| + |Flat(l.queue)|
    ensures Flat(s[i].queue) == Flat(l.queue)[|s[i].sent| - |l.sent|..]
    ensures s[i].sourceOpen == l.sourceOpen && s[i].received == l.received
  {
    if i > 0 {
      AttemptsSend(l, now, answers, s, i - 1);
      var a, b := s[i - 1], s[i];
      var n := |b.sent| - |a.sent|;
      assert Sends(a, b, now, AnswerAt(answers, i - 1).count);
      TookFlat(a, now, n);
      assert b.queue == Took(a, now, n).queue;
    }
  }

  /**
  `write` closes an open sink exactly if it reaches an `os.write` that fails, or if the source has
  ended and every queued byte has been sent.
  */
  lemma {:induction false} ClosesExactly(l: LaneState, now: real, answers: seq<Answer>)
    requires Valid(l) && l.clock <= now && l.sinkOpen
    ensures var m := Write(l, now, answers);
            !m.sinkOpen <==> FailsIn(l, now, answers) || (!l.sourceOpen && |m.sent| == |l.sent| + |Flat(l.queue)|)
  {
    var m := Write(l, now, answers);
    var s := WriteAttempts(l, now, answers);
    var z := s[|s| - 1];
    AttemptsSend(l, now, answers, s, |s| - 1);
    WriteKeepsValid(l, now, answers);
    if FailsIn(l, now, answers) {
      FailureCloses(l, now, answers, s, m);
    }
    if m.queue != [] {
      FlatOfSome(m.queue);
    }
  }

  lemma {:induction false} FailureCloses(l: LaneState, now: real, answers: seq<Answer>, s: seq<LaneState>, m: LaneState)
    requires FailsIn(l, now, answers)
    requires Attempted(l, now, answers, s) && Ends(s[|s| - 1], now, AnswerAt(answers, |s| - 1), m)
    ensures !m.sinkOpen
  {
    var t :| Attempted(l, now, answers, t) && Reached(t[|t| - 1], now) && AnswerAt(answers, |t| - 1) == Fails;
    if |s| <= |t| {
      SameAttempts(l, now, answers, s, t);
      assert Reached(t[|s| - 1], now);
    } else {
      SameAttempts(l, now, answers, t, s);
      assert AnswerAt(answers, |t| - 1).Wrote?;
    }
  }

  lemma {:induction false} FlatOfSome(queue: seq<Chunk>)
    requires queue != [] && queue[0].data != []
    ensures Flat(queue) != []
  {
  }

  // ----- runs -----

  /** The bytes that the reads of a run delivered, with their times. */
  function Delivered(events: seq<Event>): seq<Stamped> {
    if events == [] then []
    else
      var n := |events| - 1;
      Delivered(events[..n]) +
      match events[n] {
        case ReadAt(now, Data(first, others)) => Stamps([first] + others, now)
        case _ => []
      }
  }

  ghost predicate Ran(run: seq<LaneState>, events: seq<Event>) {
    IsRun(Next, run, events) && Init(run[0])
  }

  lemma {:induction false} RanValid(run: seq<LaneState>, events: seq<Event>, k: nat)
    requires Ran(run, events) && k <= |events|
    ensures Valid(run[k])
  {
    forall s, e, t | Valid(s) && Next(s, e, t) ensures Valid(t) {
      StepKeepsValid(s, e, t);
    }
    Invariant(Next, Valid, run, events, k);
  }

  /** What a lane has received is what the reads delivered, nothing more and nothing less. */
  lemma {:induction false} ReceivedIsDelivered(run: seq<LaneState>, events: seq<Event>, k: nat)
    requires Ran(run, events) && k <= |events|
    ensures run[k].received == Delivered(events[..k])
  {
    if k > 0 {
      ReceivedIsDelivered(run, events, k - 1);
      var e := events[k - 1];
      assert Next(run[k - 1], e, run[k]);
      assert events[..k][..k - 1] == events[..k - 1];
      if e.WriteAt? {
        RanValid(run, events, k - 1);
        WriteKeepsReceived(run[k - 1], e.now, e.answers);
      }
    }
  }

  lemma {:induction false} WriteKeepsReceived(l: LaneState, now: real, answers: seq<Answer>)
    requires Valid(l) && l.clock <= now
    ensures var m := Write(l, now, answers); m.received == l.received && m.sourceOpen == l.sourceOpen
  {
    if l.sinkOpen {
      var s := WriteAttempts(l, now, answers);
      AttemptsSend(l, now, answers, s, |s| - 1);
    }
  }

  /**
  The bytes that were written are the first ones that the reads delivered; while the sink is open
  the others are queued, each due exactly its delay after it was read.
  */
  lemma {:induction false} DeliveredIsSentOrQueued(run: seq<LaneState>, events: seq<Event>)
    requires Ran(run, events)
    ensures var l, d := run[|events|], Delivered(events);
            && |l.sent| <= |d| && Values(l.sent) == Values(d)[..|l.sent|]
            && (l.sinkOpen ==>
                  && |Flat(l.queue)| == |d| - |l.sent|
                  && forall i :: |l.sent| <= i < |d| ==>
                       Flat(l.queue)[i - |l.sent|] == Stamped(d[i].value, d[i].at + l.delay))
  {
    var n := |events|;
    ReceivedIsDelivered(run, events, n);
    assert events[..n] == events;
    RanValid(run, events, n);
    SentIsPrefix(run[n]);
    var l := run[n];
    if l.sinkOpen {
      forall i | |l.sent| <= i < |l.received|
        ensures Flat(l.queue)[i - |l.sent|] == Stamped(l.received[i].value, l.received[i].at + l.delay)
      {
        assert Delays(Flat(l.queue)[i - |l.sent|], l.received[|l.sent| + (i - |l.sent|)], l.delay);
      }
    }
  }

  /** Before step `k` no `write` of the run has reached an `os.write` that failed. */
  ghost predicate NeverFailed(run: seq<LaneState>, events: seq<Event>, k: nat)
    requires k <= |events| == |run| - 1
  {
    forall i :: 0 <= i < k && events[i].WriteAt? && run[i].sinkOpen ==> !FailsIn(run[i], events[i].now, events[i].answers)
  }

  /** A lane whose sink never failed closes only when the source has ended and every byte of it was written. */
  lemma {:induction false} ClosedMeansDelivered(run: seq<LaneState>, events: seq<Event>, k: nat)
    requires Ran(run, events) && k <= |events| && NeverFailed(run, events, k) && !run[k].sinkOpen
    ensures !run[k].sourceOpen && Values(run[k].sent) == Values(Delivered(events[..k]))
  {
    ReceivedIsDelivered(run, events, k);
    RanValid(run, events, k);
    SentIsPrefix(run[k]);
    AllSent(run, events, k);
  }

  lemma {:induction false} AllSent(run: seq<LaneState>, events: seq<Event>, k: nat)
    requires Ran(run, events) && k <= |events| && NeverFailed(run, events, k) && !run[k].sinkOpen
    ensures !run[k].sourceOpen && |run[k].sent| == |run[k].received|
  {
    assert k > 0;
    var l, e := run[k - 1], events[k - 1];
    assert Next(l, e, run[k]);
    RanValid(run, events, k - 1);
    if !l.sinkOpen {
      AllSent(run, events, k - 1);
    } else {
      ClosesExactly(l, e.now, e.answers);
      WriteKeepsReceived(l, e.now, e.answers);
    }
  }

  /** The queue holds less than 8 MiB and one read more. */
  lemma {:induction false} QueueIsBounded(run: seq<LaneState>, events: seq<Event>, k: nat)
    requires Ran(run, events) && k <= |events|
    ensures 0 <= run[k].queued < 8 * 1024 * 1024 + 65536
  {
    RanValid(run, events, k);
    if k > 0 {
      QueueIsBounded(run, events, k - 1);
      var l, e := run[k - 1], events[k - 1];
      assert Next(l, e, run[k]);
      RanValid(run, events, k - 1);
      if e.WriteAt? {
        WriteShrinks(l, e.now, e.answers);
      }
    }
  }

  lemma {:induction false} WriteShrinks(l: LaneState, now: real, answers: seq<Answer>)
    requires Valid(l) && l.clock <= now
    ensures Write(l, now, answers).queued <= l.queued
  {
    WriteKeepsValid(l, now, answers);
    var m := Write(l, now, answers);
    if l.sinkOpen && m.sinkOpen {
      var s := WriteAttempts(l, now, answers);
      AttemptsSend(l, now, answers, s, |s| - 1);
    }
  }
}
