/**
The lane of the proxy as the object that it is, and one turn of the select loop
(bench/rtt_proxy.py).
*/
module ProxyLane {
  import opened Wrappers
  import opened Link
  import opened LinkWrites

  class Lane {
    const delay: real
    const rate: Option<Rate>
    var queue: seq<Chunk>
    var queued: int
    var tokens: real
    var refilled: real
    var sourceOpen: bool
    var sinkOpen: bool
    var blocked: bool
    var bytes: nat
    ghost var clock: real
    ghost var received: seq<Stamped>
    ghost var sent: seq<Stamped>

    ghost function View(): LaneState
      reads this
    {
      LaneState(delay, rate, queue, queued, tokens, refilled, sourceOpen, sinkOpen, blocked, bytes, clock, received, sent)
    }

    predicate Reading()
      reads this
      ensures Reading() == Reads(View())
    {
      sourceOpen && sinkOpen && queued < QUEUE_MAX
    }

    predicate Writing()
      reads this
      ensures Writing() == Link.Writes(View())
    {
      blocked && sinkOpen
    }

    constructor (delay: real, rate: Option<Rate>, now: real)
      ensures View() == Opened(delay, rate, now)
      ensures sourceOpen && sinkOpen && !blocked && queue == [] && bytes == 0 && tokens == 65536.0 && refilled == now
    {
      this.delay, this.rate := delay, rate;
      queue, queued, tokens, refilled := [], 0, BURST, now;
      sourceOpen, sinkOpen, blocked, bytes := true, true, false, 0;
      clock, received, sent := now, [], [];
    }

    method Read(now: real, input: Input)
      modifies this
      ensures View() == Link.Read(old(View()), now, input)
    {
      clock := now;
      match input {
        case NothingYet =>
        case Ended => sourceOpen := false;
        case Data(first, others) =>
          var data := [first] + others;
          queue := queue + [Chunk(now + delay, data)];
          queued := queued + |data|;
          received := received + Stamps(data, now);
      }
    }

    method Refill(now: real)
      modifies this`tokens, this`refilled
      ensures View() == Link.Refill(old(View()), now)
    {
      if rate.Some? {
        tokens := MinReal(BURST, tokens + (now - refilled) * rate.value);
      }
      refilled := now;
    }

    method NextWrite(now: real) returns (wake: Option<real>)
      modifies this
      ensures View() == Asked(old(View()), now)
      ensures wake == Link.NextWrite(old(View()), now)
    {
      clock := now;
      if queue == [] || blocked || !sinkOpen {
        return None;
      }
      var due, data := queue[0].due, queue[0].data;
      if rate == None {
        return Some(due);
      }
      Refill(now);
      wake := Some(MaxReal(due, now + MaxReal(0.0, MinInt(|data|, MIN_WRITE) as real - tokens) / rate.value));
    }

    method Write(now: real, answers: seq<Answer>)
      modifies this
      ensures View() == Link.Write(old(View()), now, answers)
    {
      clock := now;
      var turn := 0;
      while queue != [] && sinkOpen
        invariant 0 <= turn <= |answers|
        invariant WriteLoop(View(), now, answers[turn..]) == Link.Write(old(View()), now, answers)
        decreases |answers| - turn
      {
        var more := Pass(now, if turn == |answers| then Blocks else answers[turn]);
        if !more {
          return;
        }
        assert answers[turn..][1..] == answers[turn + 1..];
        turn := turn + 1;
      }
      if !sourceOpen && queue == [] {
        Shut();
      }
    }

    /** One pass of the loop; `answer` is what `os.write` says if it is reached. */
    method Pass(now: real, answer: Answer) returns (more: bool)
      requires queue != [] && sinkOpen
      modifies this
      ensures Passed(View(), more) == Link.Pass(old(View()), now, answer)
      ensures more ==> answer.Wrote?
    {
      var allowed := Offer(now);
      if allowed == None {
        return false;
      }
      match answer {
        case Blocks =>
          blocked := true;
          return false;
        case Fails =>
          Shut();
          return false;
        case Wrote(count) =>
          Take(now, Taken(count, allowed.value));
          return true;
      }
    }

    /** How much of the first chunk `write` offers to `os.write` now, if any. */
    method Offer(now: real) returns (allowed: Option<int>)
      requires queue != [] && sinkOpen
      modifies this`tokens, this`refilled
      ensures View() == Prepared(old(View()), now)
      ensures allowed == if Attempts(old(View()), now) then Some(Allowed(View(), queue[0].data)) else None
    {
      var due, data := queue[0].due, queue[0].data;
      if now < due {
        return None;
      }
      var size := |data|;
      if rate.Some? {
        Refill(now);
        size := MinInt(size, tokens.Floor);
        if size < MinInt(|data|, MIN_WRITE) {
          return None;
        }
      }
      return Some(size);
    }

    /** The bookkeeping after `os.write` took `wrote` bytes of the first chunk. */
    method Take(now: real, wrote: nat)
      requires queue != [] && wrote <= |queue[0].data|
      modifies this
      ensures View() == Took(old(View()), now, wrote)
    {
      var due, data := queue[0].due, queue[0].data;
      blocked := false;
      bytes := bytes + wrote;
      queued := queued - wrote;
      sent := sent + Stamps(data[..wrote], now);
      if rate.Some? {
        tokens := tokens - wrote as real;
      }
      if wrote == |data| {
        queue := queue[1..];
      } else {
        queue := [Chunk(due, data[wrote..])] + queue[1..];
      }
    }

    method Shut()
      modifies this`sinkOpen, this`queue, this`queued
      ensures View() == Link.Shut(old(View()))
    {
      sinkOpen := false;
      queue := [];
      queued := 0;
    }
  }

  /** What a lane tells the loop: its wake, and whether it has a reader, a writer or a wake at all. */
  ghost predicate Told(l: LaneState, now: real, wake: Option<real>) {
    && Valid(l) && l.clock == now && wake == Link.NextWrite(l, now)
    && (Finished(l) <==> !Reads(l) && !Writes(l) && wake == None)
    && (wake.Some? ==> now < wake.value)
  }

  /** `write` on a lane of the loop closes an open sink exactly if the sink failed or everything was sent. */
  method WriteOut(lane: Lane, now: real, answers: seq<Answer>)
    requires Valid(lane.View()) && lane.clock <= now
    modifies lane
    ensures lane.View() == Link.Write(old(lane.View()), now, answers)
    ensures old(lane.sinkOpen) ==>
              (!lane.sinkOpen <==>
                 || FailsIn(old(lane.View()), now, answers)
                 || (!lane.sourceOpen && |lane.sent| == |old(lane.sent)| + |Flat(old(lane.queue))|))
  {
    ghost var l := lane.View();
    lane.Write(now, answers);
    if l.sinkOpen {
      ClosesExactly(l, now, answers);
      WriteKeepsReceived(l, now, answers);
    }
  }

  /** A lane's part of one turn of the loop up to `select`. */
  method WriteAndAsk(lane: Lane, now: real, answers: seq<Answer>) returns (wake: Option<real>)
    requires Valid(lane.View()) && lane.clock <= now
    modifies lane
    ensures Told(lane.View(), now, wake)
  {
    UnfinishedLanesGiveWork(lane.View(), now, answers);
    WriteOut(lane, now, answers);
    AskingKeepsWork(lane.View(), now);
    wake := lane.NextWrite(now);
  }

  method AskBoth(up: Lane, down: Lane, now: real, upAnswers: seq<Answer>, downAnswers: seq<Answer>)
    returns (upWake: Option<real>, downWake: Option<real>)
    requires up != down && Valid(up.View()) && Valid(down.View()) && up.clock <= now && down.clock <= now
    modifies up, down
    ensures Told(up.View(), now, upWake) && Told(down.View(), now, downWake)
  {
    upWake := WriteAndAsk(up, now, upAnswers);
    downWake := WriteAndAsk(down, now, downAnswers);
  }

  /**
  One turn of the loop up to `select`: what it would wait for, and whether it stops instead. `stats`
  is the time at which the byte counts are due to be saved, if they changed.
  */
  method Turn(up: Lane, down: Lane, now: real, upAnswers: seq<Answer>, downAnswers: seq<Answer>, stats: Option<real>)
    returns (readers: seq<Lane>, writers: seq<Lane>, wakes: seq<real>, stop: bool)
    requires up != down && Valid(up.View()) && Valid(down.View()) && up.clock <= now && down.clock <= now
    modifies up, down
    ensures Valid(up.View()) && Valid(down.View()) && up.clock == down.clock == now
    ensures stop ==> Finished(up.View()) && Finished(down.View())
    ensures stats == None && Finished(up.View()) && Finished(down.View()) ==> stop
    ensures up in readers <==> up.sourceOpen && up.sinkOpen && up.queued < 8 * 1024 * 1024
    ensures down in readers <==> down.sourceOpen && down.sinkOpen && down.queued < 8 * 1024 * 1024
    ensures readers == (if Reads(up.View()) then [up] else []) + (if Reads(down.View()) then [down] else [])
    ensures writers == (if Writes(up.View()) then [up] else []) + (if Writes(down.View()) then [down] else [])
    ensures wakes == Present(Link.NextWrite(up.View(), now)) + Present(Link.NextWrite(down.View(), now)) + Present(stats)
    ensures stats == None ==> forall w :: w in wakes ==> now < w
  {
    var upWake, downWake := AskBoth(up, down, now, upAnswers, downAnswers);
    wakes := Present(upWake) + Present(downWake) + Present(stats);
    readers := (if up.Reading() then [up] else []) + (if down.Reading() then [down] else []);
    writers := (if up.Writing() then [up] else []) + (if down.Writing() then [down] else []);
    stop := readers == [] && writers == [] && wakes == [];
  }

  function Present(wake: Option<real>): seq<real> {
    if wake.Some? then [wake.value] else []
  }
}
