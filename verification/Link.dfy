/**
One direction of the delayed and rate-limited link, as functions on values, and what holds in every
run of it (bench/rtt_proxy.py). Times and tokens are real numbers.
*/
module Link {
  import opened Wrappers
  import opened Runs

  const BURST: real := 65536.0
  const QUEUE_MAX: int := 0x80_0000
  const MIN_WRITE: int := 4096
  const READ_MAX: int := 65536

  type Rate = r: real | r > 0.0 witness 1.0

  /** A queued read and the time before which it must not leave. */
  datatype Chunk = Chunk(due: real, data: seq<bv8>)

  /** A byte and the time at which it was read or written. */
  datatype Stamped = Stamped(value: bv8, at: real)

  /**
  The fields of a lane. History: the latest time the lane has seen, and every byte read from the
  source and written to the sink.
  */
  datatype LaneState = LaneState(delay: real, rate: Option<Rate>, queue: seq<Chunk>, queued: int, tokens: real, refilled: real,
                       sourceOpen: bool, sinkOpen: bool, blocked: bool, bytes: nat,
                       clock: real, received: seq<Stamped>, sent: seq<Stamped>)

  /** What `os.read` answers: BlockingIOError, the end or an error, or at least one byte. */
  datatype Input = NothingYet | Ended | Data(first: bv8, others: seq<bv8>)

  /** What `os.write` answers. */
  datatype Answer = Wrote(count: nat) | Blocks | Fails

  function MinInt(a: int, b: int): int {
    if a <= b then a else b
  }

  function MinReal(a: real, b: real): real {
    if a <= b then a else b
  }

  function MaxReal(a: real, b: real): real {
    if a >= b then a else b
  }

  function Stamps(data: seq<bv8>, at: real): (r: seq<Stamped>)
    ensures |r| == |data|
    ensures forall i :: 0 <= i < |data| ==> r[i] == Stamped(data[i], at)
  {
    seq(|data|, i requires 0 <= i < |data| => Stamped(data[i], at))
  }

  // ----- the operations -----

  function Opened(delay: real, rate: Option<Rate>, now: real): LaneState {
    LaneState(delay, rate, [], 0, BURST, now, true, true, false, 0, now, [], [])
  }

  predicate Finished(l: LaneState) {
    !l.sinkOpen
  }

  predicate Reads(l: LaneState) {
    l.sourceOpen && l.sinkOpen && l.queued < QUEUE_MAX
  }

  predicate Writes(l: LaneState) {
    l.blocked && l.sinkOpen
  }

  function Read(l: LaneState, now: real, input: Input): LaneState {
    var m := l.(clock := now);
    match input
    case NothingYet => m
    case Ended => m.(sourceOpen := false)
    case Data(first, others) =>
      var data := [first] + others;
      m.(queue := l.queue + [Chunk(now + l.delay, data)], queued := l.queued + |data|, received := l.received + Stamps(data, now))
  }

  /** The tokens at time `now`. */
  function TokensAt(l: LaneState, now: real): real {
    if l.rate.Some? then Filled(l.tokens, l.rate.value, l.refilled, now) else l.tokens
  }

  /** A bucket that fills between two times. */
  function Filled(tokens: real, rate: real, from: real, to: real): real {
    MinReal(BURST, tokens + (to - from) * rate)
  }

  function Refill(l: LaneState, now: real): LaneState {
    l.(tokens := TokensAt(l, now), refilled := now)
  }

  predicate Waits(l: LaneState) {
    l.queue == [] || l.blocked || !l.sinkOpen
  }

  /** When to call `write` again; asking refills the tokens. */
  function NextWrite(l: LaneState, now: real): Option<real>
  {
    if Waits(l) then None
    else
      var Chunk(due, data) := l.queue[0];
      match l.rate
      case None => Some(due)
      case Some(rate) =>
        Some(MaxReal(due, now + MaxReal(0.0, MinInt(|data|, MIN_WRITE) as real - TokensAt(l, now)) / rate))
  }

  function Asked(l: LaneState, now: real): LaneState {
    if Waits(l) || l.rate == None then l.(clock := now) else Refill(l, now).(clock := now)
  }

  /** How much of `data` may leave now. */
  function Allowed(l: LaneState, data: seq<bv8>): int {
    if l.rate == None then |data| else MinInt(|data|, l.tokens.Floor)
  }

  function Shut(l: LaneState): LaneState {
    l.(sinkOpen := false, queue := [], queued := 0)
  }

  /** Whether `write` at `now` reaches `os.write`. */
  predicate Attempts(l: LaneState, now: real) {
    && l.queue != [] && l.sinkOpen && l.queue[0].due <= now
    && (l.rate.Some? ==>
          Allowed(Refill(l, now), l.queue[0].data) >= MinInt(|l.queue[0].data|, MIN_WRITE))
  }

  /** The refill that `write` does before it looks at the first chunk. */
  function Prepared(l: LaneState, now: real): LaneState {
    if l.queue != [] && l.sinkOpen && l.queue[0].due <= now && l.rate.Some? then Refill(l, now) else l
  }

  /** `os.write` took `n` bytes of the first chunk. */
  function Took(l: LaneState, now: real, n: nat): LaneState
    requires l.queue != [] && n <= |l.queue[0].data|
  {
    var Chunk(due, data) := l.queue[0];
    l.(blocked := false, bytes := l.bytes + n, queued := l.queued - n,
       tokens := if l.rate.Some? then l.tokens - n as real else l.tokens,
       queue := if n == |data| then l.queue[1..] else [Chunk(due, data[n..])] + l.queue[1..],
       sent := l.sent + Stamps(data[..n], now))
  }

  /** How many bytes a successful `os.write` takes of `allowed` that are offered. */
  function Taken(count: nat, allowed: int): int {
    if allowed < 1 then 0 else if count < 1 then 1 else MinInt(count, allowed)
  }

  /** The lane after one pass of the loop of `write`, and whether the loop goes on. */
  datatype Passed = Passed(lane: LaneState, more: bool)

  function Pass(l: LaneState, now: real, answer: Answer): Passed
    requires l.queue != [] && l.sinkOpen
  {
    var m := Prepared(l, now);
    if !Attempts(l, now) then Passed(m, false)
    else
      match answer
      case Blocks => Passed(m.(blocked := true), false)
      case Fails => Passed(Shut(m), false)
      case Wrote(count) => Passed(Took(m, now, Taken(count, Allowed(m, m.queue[0].data))), true)
  }

  /** The loop of `write`: the sink gives `answers` in turn, and blocks after them. */
  function WriteLoop(l: LaneState, now: real, answers: seq<Answer>): LaneState
    decreases |answers|
  {
    if l.queue == [] || !l.sinkOpen then
      if !l.sourceOpen && l.queue == [] then Shut(l) else l
    else
      var p := Pass(l, now, if answers == [] then Blocks else answers[0]);
      if p.more then WriteLoop(p.lane, now, answers[1..]) else p.lane
  }

  function Write(l: LaneState, now: real, answers: seq<Answer>): LaneState {
    WriteLoop(l.(clock := now), now, answers)
  }

  // ----- runs -----

  datatype Event = ReadAt(now: real, input: Input) | AskAt(now: real) | WriteAt(now: real, answers: seq<Answer>) | SinkReady

  /** The clock does not run backwards. */
  ghost predicate Next(l: LaneState, e: Event, m: LaneState) {
    match e
    case ReadAt(now, input) =>
      l.clock <= now && Reads(l) && (input.Data? ==> |input.others| < READ_MAX) && m == Read(l, now, input)
    case AskAt(now) => l.clock <= now && m == Asked(l, now)
    case WriteAt(now, answers) => l.clock <= now && m == Write(l, now, answers)
    case SinkReady => m == l.(blocked := false)
  }

  ghost predicate Reachable(l: LaneState) {
    exists run: seq<LaneState>, events: seq<Event> :: IsRun(Next, run, events) && Init(run[0]) && run[|events|] == l
  }

  ghost predicate Init(l: LaneState) {
    l == Opened(l.delay, l.rate, l.clock)
  }

  // ----- the invariant -----

  /** The queued bytes, each with the time at which it may leave. */
  function Flat(queue: seq<Chunk>): seq<Stamped> {
    if queue == [] then [] else Stamps(queue[0].data, queue[0].due) + Flat(queue[1..])
  }

  predicate NonEmpty(queue: seq<Chunk>) {
    forall i :: 0 <= i < |queue| ==> queue[i].data != []
  }

  /** The byte `b` was read, and may leave at the time of `q`. */
  predicate Delays(q: Stamped, b: Stamped, delay: real) {
    q.value == b.value && q.at == b.at + delay
  }

  /** Read equals written plus queued; every queued byte is due its delay after it was read. */
  predicate Conserved(l: LaneState) {
    && |l.sent| <= |l.received|
    && l.bytes == |l.sent|
    && NonEmpty(l.queue)
    && (if l.sinkOpen
        then l.queued == |Flat(l.queue)| == |l.received| - |l.sent|
             && forall i :: 0 <= i < |Flat(l.queue)| ==> Delays(Flat(l.queue)[i], l.received[|l.sent| + i], l.delay)
        else l.queue == [] && l.queued == 0)
    && (l.blocked && l.sinkOpen ==> l.queue != [])
  }

  /** The written bytes are the first read bytes, and none left before its delay. */
  predicate Ordered(l: LaneState) {
    && |l.sent| <= |l.received|
    && forall i :: 0 <= i < |l.sent| ==>
         l.sent[i].value == l.received[i].value && l.received[i].at + l.delay <= l.sent[i].at
  }

  /** What the token bucket allows between two times. */
  function Quota(rate: real, from: real, to: real): real {
    BURST + rate * (to - from)
  }

  predicate Bucket(l: LaneState) {
    0.0 <= l.tokens <= BURST && l.refilled <= l.clock
  }

  /** The bytes sent since any byte, and the tokens left, are within the quota of that time. */
  predicate Bounded(l: LaneState) {
    l.rate.Some? ==>
      && (forall i :: 0 <= i < |l.sent| ==>
            l.sent[i].at <= l.refilled && (|l.sent| - i) as real + l.tokens <= Quota(l.rate.value, l.sent[i].at, l.refilled))
      && (forall i, j :: 0 <= i <= j < |l.sent| ==>
            l.sent[i].at <= l.sent[j].at && (j + 1 - i) as real <= Quota(l.rate.value, l.sent[i].at, l.sent[j].at))
  }

  ghost predicate Valid(l: LaneState) {
    Conserved(l) && Ordered(l) && Bucket(l) && Bounded(l)
  }

  lemma {:induction false} FlatAppends(queue: seq<Chunk>, c: Chunk)
    ensures Flat(queue + [c]) == Flat(queue) + Stamps(c.data, c.due)
  {
    if queue == [] {
      assert queue + [c] == [c];
      assert Flat([c]) == Stamps(c.data, c.due) + Flat([]);
    } else {
      FlatAppends(queue[1..], c);
      assert (queue + [c])[1..] == queue[1..] + [c];
    }
  }

  lemma {:induction false} ReadKeepsValid(l: LaneState, now: real, input: Input)
    requires Valid(l) && l.clock <= now && Reads(l)
    ensures Valid(Read(l, now, input))
  {
    if input.Data? {
      ReadKeepsConserved(l, now, input.first, input.others);
    }
  }

  lemma {:induction false} ReadKeepsConserved(l: LaneState, now: real, first: bv8, others: seq<bv8>)
    requires Conserved(l) && l.sinkOpen
    ensures Conserved(Read(l, now, Data(first, others)))
  {
    FlatAppends(l.queue, Chunk(now + l.delay, [first] + others));
  }

  lemma {:induction false} FilledIs(tokens: real, rate: real, from: real, to: real)
    requires 0.0 <= tokens <= BURST && rate > 0.0 && from <= to
    ensures tokens <= Filled(tokens, rate, from, to) <= BURST && Filled(tokens, rate, from, to) <= tokens + (to - from) * rate
  {
    assert (to - from) * rate >= 0.0;
  }

  lemma {:induction false} RefillKeepsBucket(l: LaneState, now: real)
    requires Bucket(l) && Bounded(l) && l.clock <= now && l.rate.Some?
    ensures var m := Refill(l, now).(clock := now); Bucket(m) && Bounded(m)
  {
    var m := Refill(l, now);
    var rate := l.rate.value;
    FilledIs(l.tokens, rate, l.refilled, now);
    forall i | 0 <= i < |l.sent|
      ensures (|l.sent| - i) as real + m.tokens <= Quota(rate, l.sent[i].at, now) && l.sent[i].at <= now
    {
      QuotaAdds(rate, l.sent[i].at, l.refilled, now);
    }
  }

  lemma {:induction false} QuotaAdds(rate: real, a: real, b: real, c: real)
    ensures Quota(rate, a, c) == Quota(rate, a, b) + (c - b) * rate
  {
  }

  /** Taking bytes from the queue's head takes them from the flat queue. */
  lemma {:induction false} TookFlat(l: LaneState, now: real, n: nat)
    requires l.queue != [] && n <= |l.queue[0].data|
    ensures Flat(Took(l, now, n).queue) == Flat(l.queue)[n..]
  {
    var Chunk(due, data) := l.queue[0];
    if n < |data| {
      var rest := [Chunk(due, data[n..])] + l.queue[1..];
      assert rest[1..] == l.queue[1..];
      assert Stamps(data, due)[n..] == Stamps(data[n..], due);
      assert Flat(rest) == Stamps(data[n..], due) + Flat(l.queue[1..]);
      DropsWithin(Stamps(data, due), Flat(l.queue[1..]), n);
    } else {
      DropsWithin(Stamps(data, due), Flat(l.queue[1..]), n);
      assert Stamps(data, due)[n..] == [];
    }
  }

  lemma {:induction false} DropsWithin<T>(a: seq<T>, b: seq<T>, n: nat)
    requires n <= |a|
    ensures (a + b)[n..] == a[n..] + b
  {
  }

  lemma {:induction false} TookKeepsConserved(l: LaneState, now: real, n: nat)
    requires Conserved(l) && l.sinkOpen && l.queue != [] && 0 < n <= |l.queue[0].data|
    ensures Conserved(Took(l, now, n))
  {
    TookFlat(l, now, n);
  }

  lemma {:induction false} TookKeepsOrder(l: LaneState, now: real, n: nat)
    requires Conserved(l) && Ordered(l) && l.sinkOpen && l.queue != [] && 0 < n <= |l.queue[0].data| && l.queue[0].due <= now
    ensures Ordered(Took(l, now, n))
  {
    var m := Took(l, now, n);
    forall i | |l.sent| <= i < |m.sent|
      ensures m.sent[i].value == m.received[i].value && m.received[i].at + m.delay <= m.sent[i].at
    {
      var k := i - |l.sent|;
      assert Flat(l.queue)[k] == Stamped(l.queue[0].data[k], l.queue[0].due);
      assert Delays(Flat(l.queue)[k], l.received[|l.sent| + k], l.delay);
    }
  }

  lemma {:induction false} TookKeepsBounds(l: LaneState, now: real, n: nat)
    requires Bucket(l) && Bounded(l) && l.queue != [] && 0 < n <= |l.queue[0].data|
    requires l.rate.Some? ==> l.refilled == now && n as real <= l.tokens
    ensures Bucket(Took(l, now, n)) && Bounded(Took(l, now, n))
  {
    var m := Took(l, now, n);
    if l.rate.Some? {
      var rate := l.rate.value;
      assert Quota(rate, now, now) == BURST;
      forall i, j | 0 <= i <= j < |m.sent| && |l.sent| <= j
        ensures m.sent[i].at <= m.sent[j].at && (j + 1 - i) as real <= Quota(rate, m.sent[i].at, m.sent[j].at)
      {
      }
    }
  }

  lemma {:induction false} PreparedKeepsValid(l: LaneState, now: real)
    requires Valid(l) && l.clock == now
    ensures Valid(Prepared(l, now)) && Prepared(l, now).clock == now
  {
    if Prepared(l, now) != l {
      RefillKeepsBucket(l, now);
    }
  }

  lemma {:induction false} PassKeepsValid(l: LaneState, now: real, answer: Answer)
    requires Valid(l) && l.clock == now && l.queue != [] && l.sinkOpen
    ensures var p := Pass(l, now, answer); Valid(p.lane) && p.lane.clock == now
  {
    PreparedKeepsValid(l, now);
    var m := Prepared(l, now);
    if Attempts(l, now) {
      match answer
      case Blocks =>
      case Fails => ShutKeepsValid(m);
      case Wrote(count) =>
        PreparedAllows(l, now, count);
        TookKeepsValid(m, now, Taken(count, Allowed(m, m.queue[0].data)));
    }
  }

  /** What `os.write` takes is in the first chunk, and there are tokens for it. */
  lemma {:induction false} PreparedAllows(l: LaneState, now: real, count: nat)
    requires Conserved(l) && Bucket(l) && l.queue != [] && l.sinkOpen && Attempts(l, now)
    ensures var m := Prepared(l, now);
            var n := Taken(count, Allowed(m, m.queue[0].data));
            && 0 < n <= |m.queue[0].data| && m.queue[0].due <= now
            && (m.rate.Some? ==> m.refilled == now && n as real <= m.tokens)
  {
    assert |l.queue[0].data| > 0;
  }

  lemma {:induction false} TookKeepsValid(l: LaneState, now: real, n: nat)
    requires Valid(l) && l.sinkOpen && l.queue != [] && 0 < n <= |l.queue[0].data| && l.queue[0].due <= now
    requires l.rate.Some? ==> l.refilled == now && n as real <= l.tokens
    ensures Valid(Took(l, now, n))
  {
    TookKeepsConserved(l, now, n);
    TookKeepsOrder(l, now, n);
    TookKeepsBounds(l, now, n);
  }

  lemma {:induction false} ShutKeepsValid(l: LaneState)
    requires Valid(l)
    ensures Valid(Shut(l))
  {
  }

  lemma {:induction false} WriteLoopKeepsValid(l: LaneState, now: real, answers: seq<Answer>)
    requires Valid(l) && l.clock == now
    ensures Valid(WriteLoop(l, now, answers)) && WriteLoop(l, now, answers).clock == now
    decreases |answers|
  {
    if l.queue != [] && l.sinkOpen {
      var answer := if answers == [] then Blocks else answers[0];
      PassKeepsValid(l, now, answer);
      if Pass(l, now, answer).more {
        WriteLoopKeepsValid(Pass(l, now, answer).lane, now, answers[1..]);
      }
    }
  }

  lemma {:induction false} AskKeepsValid(l: LaneState, now: real)
    requires Valid(l) && l.clock <= now
    ensures Valid(Asked(l, now))
  {
    if l.rate.Some? && !Waits(l) {
      RefillKeepsBucket(l, now);
    }
  }

  lemma {:induction false} TickKeepsValid(l: LaneState, now: real)
    requires Valid(l) && l.clock <= now
    ensures Valid(l.(clock := now))
  {
  }

  lemma {:induction false} WriteKeepsValid(l: LaneState, now: real, answers: seq<Answer>)
    requires Valid(l) && l.clock <= now
    ensures Valid(Write(l, now, answers))
  {
    TickKeepsValid(l, now);
    WriteLoopKeepsValid(l.(clock := now), now, answers);
  }

  lemma {:induction false} StepKeepsValid(l: LaneState, e: Event, m: LaneState)
    requires Valid(l) && Next(l, e, m)
    ensures Valid(m)
  {
    match e
    case ReadAt(now, input) => ReadKeepsValid(l, now, input);
    case AskAt(now) => AskKeepsValid(l, now);
    case WriteAt(now, answers) => WriteKeepsValid(l, now, answers);
    case SinkReady =>
  }

  lemma {:induction false} ReachableValid(l: LaneState)
    requires Reachable(l)
    ensures Valid(l)
  {
    var run: seq<LaneState>, events: seq<Event> :| IsRun(Next, run, events) && Init(run[0]) && run[|events|] == l;
    forall s, e, t | Valid(s) && Next(s, e, t) ensures Valid(t) {
      StepKeepsValid(s, e, t);
    }
    Invariant(Next, Valid, run, events, |events|);
  }

  // ----- what holds in every run -----

  function Values(s: seq<Stamped>): seq<bv8> {
    seq(|s|, i requires 0 <= i < |s| => s[i].value)
  }

  /** The bytes written are a prefix of the bytes read, and while the sink is open the rest is queued. */
  lemma {:induction false} BytesAreConserved(l: LaneState)
    requires Reachable(l)
    ensures |l.sent| <= |l.received| && Values(l.sent) == Values(l.received)[..|l.sent|]
    ensures l.bytes == |l.sent|
    ensures l.sinkOpen ==> |l.received| == l.bytes + l.queued
    ensures l.sinkOpen ==> Values(Flat(l.queue)) == Values(l.received)[|l.sent|..]
  {
    ReachableValid(l);
    SentIsPrefix(l);
    if l.sinkOpen {
      QueueIsRest(l);
    }
  }

  lemma {:induction false} SentIsPrefix(l: LaneState)
    requires Ordered(l)
    ensures Values(l.sent) == Values(l.received)[..|l.sent|]
  {
  }

  lemma {:induction false} QueueIsRest(l: LaneState)
    requires Conserved(l) && l.sinkOpen
    ensures Values(Flat(l.queue)) == Values(l.received)[|l.sent|..]
  {
    forall i | 0 <= i < |Flat(l.queue)| ensures Values(Flat(l.queue))[i] == Values(l.received)[|l.sent| + i] {
      assert Delays(Flat(l.queue)[i], l.received[|l.sent| + i], l.delay);
    }
  }

  /** No byte leaves before its delay has passed since it was read. */
  lemma {:induction false} NoByteIsEarly(l: LaneState, i: nat)
    requires Reachable(l) && i < |l.sent|
    ensures i < |l.received| && l.sent[i].at >= l.received[i].at + l.delay
  {
    ReachableValid(l);
  }

  function SentWithin(sent: seq<Stamped>, from: real, to: real): nat {
    if sent == [] then 0
    else
      var last := sent[|sent| - 1].at;
      SentWithin(sent[..|sent| - 1], from, to) + (if from <= last <= to then 1 else 0)
  }

  /** The bytes of an interval lie between a first and a last one. */
  lemma {:induction false} SentSpan(sent: seq<Stamped>, from: real, to: real)
    returns (i: nat, j: nat)
    requires SentWithin(sent, from, to) > 0
    ensures i <= j < |sent| && from <= sent[i].at && sent[j].at <= to && SentWithin(sent, from, to) <= j + 1 - i
    ensures forall k :: 0 <= k < |sent| && from <= sent[k].at <= to ==> i <= k <= j
  {
    var n := |sent| - 1;
    var last := sent[n].at;
    var before := sent[..n];
    if SentWithin(before, from, to) == 0 {
      NoneWithin(before, from, to);
      i, j := n, n;
    } else {
      i, j := SentSpan(before, from, to);
      if from <= last <= to { j := n; }
    }
    assert forall k :: 0 <= k < n ==> sent[k] == before[k];
  }

  lemma {:induction false} NoneWithin(sent: seq<Stamped>, from: real, to: real)
    requires SentWithin(sent, from, to) == 0
    ensures forall k :: 0 <= k < |sent| ==> !(from <= sent[k].at <= to)
  {
    if sent != [] {
      var before := sent[..|sent| - 1];
      NoneWithin(before, from, to);
      assert forall k :: 0 <= k < |before| ==> sent[k] == before[k];
    }
  }

  lemma {:induction false} SpanIsBounded(l: LaneState, i: nat, j: nat)
    requires Reachable(l) && l.rate.Some? && i <= j < |l.sent|
    ensures (j + 1 - i) as real <= Quota(l.rate.value, l.sent[i].at, l.sent[j].at)
  {
    ReachableValid(l);
  }

  /** With a rate, the bytes written in any interval are at most the burst plus the rate times its length. */
  lemma {:induction false} RateIsBounded(l: LaneState, from: real, to: real)
    requires Reachable(l) && l.rate.Some? && from <= to
    ensures SentWithin(l.sent, from, to) as real <= Quota(l.rate.value, from, to)
  {
    if SentWithin(l.sent, from, to) > 0 {
      var i, j := SentSpan(l.sent, from, to);
      SpanIsBounded(l, i, j);
      QuotaGrows(l.rate.value, from, l.sent[i].at, l.sent[j].at, to);
    } else {
      QuotaGrows(l.rate.value, from, from, from, to);
    }
  }

  lemma {:induction false} TokensStayInBucket(l: LaneState)
    requires Reachable(l)
    ensures 0.0 <= l.tokens <= BURST
  {
    ReachableValid(l);
  }

  lemma {:induction false} QuotaGrows(rate: real, from: real, a: real, b: real, to: real)
    requires rate > 0.0 && from <= a && b <= to
    ensures Quota(rate, a, b) <= Quota(rate, from, to) && BURST <= Quota(rate, a, a)
  {
    assert rate * (to - from) - rate * (b - a) == rate * ((to - b) + (a - from));
    assert rate * ((to - b) + (a - from)) >= 0.0;
    assert a - a == 0.0;
  }

  // ----- waking up -----

  /**
  `next_write` is exact: an unblocked lane that nobody touches reaches `os.write` at a time from
  `now` on exactly from the time that `next_write` names, whether or not asking refilled the tokens.
  */
  lemma {:induction false} NextWriteIsExact(l: LaneState, now: real, t: real)
    requires Reachable(l) && l.clock <= now <= t && !l.blocked
    ensures NextWrite(l, now) == None ==> !Attempts(l, t)
    ensures NextWrite(l, now).Some? ==> (Attempts(l, t) <==> NextWrite(l, now).value <= t)
    ensures Attempts(Asked(l, now), t) <==> Attempts(l, t)
  {
    ReachableValid(l);
    if !Waits(l) {
      NextWriteOfValid(l, now, t);
      AskingChangesNothing(l, now, t);
    }
  }

  lemma {:induction false} NextWriteOfValid(l: LaneState, now: real, t: real)
    requires Bucket(l) && l.clock <= now <= t && !Waits(l)
    ensures Attempts(l, t) <==> NextWrite(l, now).value <= t
  {
    if l.rate.Some? {
      var size := MinInt(|l.queue[0].data|, MIN_WRITE);
      EnoughTokens(l, now, t, size);
      FloorReaches(TokensAt(l, t), size);
    }
  }

  /** Whether so many tokens are enough for a chunk of `n` bytes. */
  predicate Enough(tokens: real, n: nat) {
    MinInt(n, tokens.Floor) >= MinInt(n, MIN_WRITE)
  }

  lemma {:induction false} AttemptsIs(l: LaneState, t: real)
    ensures Attempts(l, t) <==>
              && l.queue != [] && l.sinkOpen && l.queue[0].due <= t
              && (l.rate.Some? ==> Enough(TokensAt(l, t), |l.queue[0].data|))
  {
  }

  lemma {:induction false} ClockIsNotCounted(l: LaneState, now: real, t: real)
    ensures Attempts(l.(clock := now), t) <==> Attempts(l, t)
  {
    var a := l.(clock := now);
    AttemptsIs(l, t);
    AttemptsIs(a, t);
    assert TokensAt(a, t) == TokensAt(l, t);
  }

  lemma {:induction false} RefillingChangesNothing(l: LaneState, now: real, t: real)
    requires Bucket(l) && l.clock <= now <= t && l.rate.Some?
    ensures Attempts(Refill(l, now), t) <==> Attempts(l, t)
  {
    AttemptsIs(l, t);
    AttemptsIs(Refill(l, now), t);
    RefillTwice(l, now, t);
  }

  lemma {:induction false} AskingChangesNothing(l: LaneState, now: real, t: real)
    requires Bucket(l) && l.clock <= now <= t
    ensures Attempts(Asked(l, now), t) <==> Attempts(l, t)
  {
    if Waits(l) || l.rate == None {
      ClockIsNotCounted(l, now, t);
    } else {
      RefillingChangesNothing(l, now, t);
      ClockIsNotCounted(Refill(l, now), now, t);
    }
  }

  /** An integer that a real number reaches, its floor reaches. */
  lemma {:induction false} FloorReaches(x: real, n: int)
    ensures x.Floor >= n <==> x >= n as real
  {
  }

  lemma {:induction false} SpanSplits(a: real, b: real, c: real, rate: real)
    requires a <= b <= c && rate > 0.0
    ensures (c - a) * rate == (b - a) * rate + (c - b) * rate && (c - b) * rate >= 0.0
  {
    var x, y := b - a, c - b;
    assert (x + y) * rate == x * rate + y * rate;
  }

  /** Capping once more on the way changes nothing. */
  lemma {:induction false} CapTwice(cap: real, a: real, b: real)
    requires b >= 0.0
    ensures MinReal(cap, MinReal(cap, a) + b) == MinReal(cap, a + b)
  {
  }

  lemma {:induction false} RefillTwice(l: LaneState, now: real, t: real)
    requires Bucket(l) && l.rate.Some? && l.refilled <= now <= t
    ensures TokensAt(Refill(l, now), t) == TokensAt(l, t)
  {
    var rate := l.rate.value;
    SpanSplits(l.refilled, now, t, rate);
    CapTwice(BURST, l.tokens + (now - l.refilled) * rate, (t - now) * rate);
  }

  /** When the bucket holds `size` tokens. */
  lemma {:induction false} EnoughTokens(l: LaneState, now: real, t: real, size: int)
    requires Bucket(l) && l.rate.Some? && l.refilled <= now <= t && 0 <= size <= MIN_WRITE
    ensures TokensAt(l, t) >= size as real <==>
              now + MaxReal(0.0, size as real - TokensAt(l, now)) / l.rate.value <= t
  {
    var rate := l.rate.value;
    var lack := size as real - TokensAt(l, now);
    RefillTwice(l, now, t);
    assert (t - now) * rate >= 0.0;
    if lack > 0.0 {
      DividedBy(lack, rate, t - now);
    }
  }

  lemma {:induction false} DividedBy(a: real, rate: real, b: real)
    requires rate > 0.0
    ensures a / rate <= b <==> a <= b * rate
  {
    var q := a / rate;
    assert q * rate == a;
    if q <= b {
      assert (b - q) * rate >= 0.0;
    } else {
      assert (q - b) * rate > 0.0;
    }
  }

  // ----- the loop -----

  /** What the loop waits for on behalf of a lane. */
  predicate GivesWork(l: LaneState, now: real)
  {
    Reads(l) || (l.blocked && l.sinkOpen) || NextWrite(l, now).Some?
  }

  /** A pass that ends the loop leaves nothing that could be sent at that time. */
  lemma {:induction false} PassExhausts(l: LaneState, now: real, answer: Answer)
    requires Bucket(l) && l.clock == now && l.queue != [] && l.sinkOpen
    ensures var p := Pass(l, now, answer);
            !p.more ==> Finished(p.lane) || (p.lane.queue != [] && (p.lane.blocked || !Attempts(p.lane, now)))
  {
    if l.rate.Some? {
      RefillTwice(l, now, now);
    }
  }

  lemma {:induction false} WriteExhausts(l: LaneState, now: real, answers: seq<Answer>)
    requires Valid(l) && l.clock == now
    ensures var m := WriteLoop(l, now, answers);
            Finished(m) || (if m.queue == [] then m.sourceOpen else m.blocked || !Attempts(m, now))
    decreases |answers|
  {
    if l.queue != [] && l.sinkOpen {
      var answer := if answers == [] then Blocks else answers[0];
      PassKeepsValid(l, now, answer);
      PassExhausts(l, now, answer);
      if Pass(l, now, answer).more {
        WriteExhausts(Pass(l, now, answer).lane, now, answers[1..]);
      }
    }
  }

  /** What `write` leaves behind gives the loop work, and a wake in the future. */
  lemma {:induction false} ExhaustedGivesWork(m: LaneState, now: real)
    requires Valid(m) && m.clock == now
    requires Finished(m) || (if m.queue == [] then m.sourceOpen else m.blocked || !Attempts(m, now))
    ensures !Finished(m) ==> GivesWork(m, now)
    ensures NextWrite(m, now).Some? ==> now < NextWrite(m, now).value
  {
    if !Waits(m) {
      NextWriteOfValid(m, now, now);
    }
  }

  /**
  After `write`, an unfinished lane gives the loop a reader, a writer or a wake, and a wake always
  lies in the future: the loop neither stops early nor spins.
  */
  lemma {:induction false} UnfinishedLanesGiveWork(l: LaneState, now: real, answers: seq<Answer>)
    requires Valid(l) && l.clock <= now
    ensures var m := Write(l, now, answers);
            && Valid(m) && m.clock == now
            && (!Finished(m) ==> GivesWork(m, now))
            && (NextWrite(m, now).Some? ==> now < NextWrite(m, now).value)
  {
    var c := l.(clock := now);
    TickKeepsValid(l, now);
    WriteLoopKeepsValid(c, now, answers);
    WriteExhausts(c, now, answers);
    ExhaustedGivesWork(WriteLoop(c, now, answers), now);
  }

  /** Asking for the wake keeps everything that the loop looks at. */
  lemma {:induction false} AskingKeepsWork(l: LaneState, now: real)
    requires Valid(l) && l.clock == now
    ensures var a := Asked(l, now);
            && Valid(a) && a.clock == now && NextWrite(a, now) == NextWrite(l, now)
            && Reads(a) == Reads(l) && Finished(a) == Finished(l) && a.blocked == l.blocked
  {
    StepKeepsValid(l, AskAt(now), Asked(l, now));
    if l.rate.Some? {
      RefillTwice(l, now, now);
    }
  }

  /** A lane without a reader, a writer or a wake is finished, and a finished lane has none. */
  lemma {:induction false} NoWorkMeansFinished(l: LaneState, now: real, answers: seq<Answer>)
    requires Reachable(l) && l.clock <= now
    ensures var m := Write(l, now, answers); Finished(m) <==> !GivesWork(m, now)
  {
    ReachableValid(l);
    UnfinishedLanesGiveWork(l, now, answers);
  }
}
