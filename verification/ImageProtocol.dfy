/**
The workers that complete pending image frames (app/App/PaneImages.swift): walks over the pending
frames, one job for each new frame, retries, and the stop that fences attachments.

One step is one body of `state.withLock`, or one use of the `attaching` lock. Jobs carry numbers, so
that nothing but the program keeps two of them from having one key.
*/
module ImageProtocol {
  import opened Wrappers
  import opened Runs

  datatype Key = Key(screen: nat, image: nat, frame: nat, generation: nat)

  /** The lock-protected fields that decide who fetches what. */
  datatype Cells = Cells(seen: nat, known: set<Key>, rescan: bool, attempts: map<Key, nat>, gone: set<Key>,
                         stopped: bool, gaveUp: bool)

  /**
  Where a job is in `run`: `Fresh` before it is enqueued, `Applying` to `Attaching` inside `apply`,
  `Missing` before the frame joins `gone`, and `Settling` before the last section.
  */
  datatype Phase = Fresh | Queued | Running | Applying | Locked | Attaching | Missing | Settling(transient: bool) | Delayed

  /** `tries` counts the calls of `obtain` since the key joined `known`. */
  datatype Job = Job(key: Key, phase: Phase, tries: nat)

  datatype Holder = Free | Stopper | Worker(id: nat)

  /**
  `walks` counts the walks that were decided on and have not entered their section, `tails` the jobs
  that have settled and not looked at `rescan`. History: the keys of the last walk, the keys offered
  to `apply` since then, the keys given up since the last retry, and the attachments ever issued.
  */
  datatype State = State(retries: nat, cells: Cells, jobs: map<nat, Job>, next: nat, walks: nat, tails: nat, lock: Holder,
                         last: set<Key>, offered: set<Key>, failed: set<Key>, attached: nat)

  datatype Outcome = Success | NotFound | Transient

  datatype Label =
    | SurfaceChanged(generation: nat)
    | Retry
    | Walk(keys: seq<Key>)
    | Enqueue(id: nat)
    | Start(id: nat)
    | Obtain(id: nat, outcome: Outcome)
    | Lock(id: nat)
    | Check(id: nat)
    | Attach(id: nat)
    | MarkGone(id: nat)
    | Settle(id: nat)
    | Rescan
    | StopLock
    | StopSet
    | StopUnlock

  const NO_CELLS := Cells(0, {}, false, map[], {}, false, false)

  ghost predicate Init(s: State) {
    && s.cells == NO_CELLS && s.jobs == map[] && s.walks == 0 && s.tails == 0 && s.lock == Free
    && s.last == {} && s.offered == {} && s.failed == {} && s.attached == 0
  }

  // ----- the sections -----

  function KeySet(keys: seq<Key>): set<Key> {
    set k | k in keys
  }

  /** The keys that a walk finds neither in `gone` nor in `known`, once each, in their order. */
  function NewKeys(keys: seq<Key>, known: set<Key>, gone: set<Key>): seq<Key> {
    if keys == [] then []
    else
      var before := NewKeys(keys[..|keys| - 1], known, gone);
      var k := keys[|keys| - 1];
      if k in gone || k in known || k in before then before else before + [k]
  }

  /** Whether a walk meets a key outside `gone` that is already known by then. */
  predicate MeetsKnown(keys: seq<Key>, known: set<Key>, gone: set<Key>) {
    keys != [] &&
    var before := keys[..|keys| - 1];
    var k := keys[|keys| - 1];
    MeetsKnown(before, known, gone) || (k !in gone && (k in known || k in NewKeys(before, known, gone)))
  }

  function WalkCells(c: Cells, keys: seq<Key>): Cells {
    var gone := c.gone * KeySet(keys);
    c.(gone := gone, known := c.known + KeySet(NewKeys(keys, c.known, gone)),
       rescan := c.rescan || MeetsKnown(keys, c.known, gone))
  }

  function Attempts(c: Cells, k: Key): nat {
    if k in c.attempts then c.attempts[k] else 0
  }

  predicate TriesAgain(c: Cells, k: Key, transient: bool, retries: nat) {
    transient && !c.stopped && Attempts(c, k) < retries
  }

  function SettleCells(c: Cells, k: Key, transient: bool, retries: nat): Cells {
    if TriesAgain(c, k, transient, retries) then c.(attempts := c.attempts[k := Attempts(c, k) + 1])
    else c.(gaveUp := c.gaveUp || transient, known := c.known - {k}, attempts := c.attempts - {k})
  }

  // ----- the steps -----

  predicate InPhase(s: State, id: nat, p: Phase) {
    id in s.jobs && s.jobs[id].phase == p
  }

  predicate Enabled(s: State, l: Label) {
    match l
    case Walk(_) => s.walks > 0
    case Enqueue(id) => InPhase(s, id, Fresh) || InPhase(s, id, Delayed)
    case Start(id) => InPhase(s, id, Queued)
    case Obtain(id, _) => InPhase(s, id, Running)
    case Lock(id) => InPhase(s, id, Applying) && s.lock == Free
    case Check(id) => InPhase(s, id, Locked)
    case Attach(id) => InPhase(s, id, Attaching)
    case MarkGone(id) => InPhase(s, id, Missing)
    case Settle(id) => id in s.jobs && s.jobs[id].phase.Settling?
    case Rescan => s.tails > 0
    case StopLock => s.lock == Free
    case StopSet => s.lock == Stopper
    case StopUnlock => s.lock == Stopper && s.cells.stopped
    case _ => true
  }

  function To(s: State, id: nat, p: Phase): State
    requires id in s.jobs
  {
    s.(jobs := s.jobs[id := s.jobs[id].(phase := p)])
  }

  function Step(s: State, l: Label): State
    requires Enabled(s, l)
  {
    match l
    case SurfaceChanged(g) =>
      var walks := if s.cells.seen != g && !s.cells.stopped then s.walks + 1 else s.walks;
      s.(cells := s.cells.(seen := g), walks := walks)
    case Retry =>
      s.(cells := s.cells.(gaveUp := false), failed := {},
         walks := if s.cells.gaveUp && !s.cells.stopped then s.walks + 1 else s.walks)
    case Walk(keys) => WalkStep(s, keys)
    case Enqueue(id) => To(s, id, Queued)
    case Start(id) => if s.cells.stopped then s.(jobs := s.jobs - {id}) else To(s, id, Running)
    case Obtain(id, o) =>
      var p := match o case Success => Applying case NotFound => Missing case Transient => Settling(true);
      s.(jobs := s.jobs[id := Job(s.jobs[id].key, p, s.jobs[id].tries + 1)])
    case Lock(id) => To(s, id, Locked).(lock := Worker(id))
    case Check(id) => if s.cells.stopped then To(s, id, Settling(false)).(lock := Free) else To(s, id, Attaching)
    case Attach(id) =>
      To(s, id, Settling(false)).(lock := Free, offered := s.offered + {s.jobs[id].key}, attached := s.attached + 1)
    case MarkGone(id) => To(s, id, Settling(false)).(cells := s.cells.(gone := s.cells.gone + {s.jobs[id].key}))
    case Settle(id) =>
      var j := s.jobs[id];
      var t := s.(cells := SettleCells(s.cells, j.key, j.phase.transient, s.retries));
      if TriesAgain(s.cells, j.key, j.phase.transient, s.retries) then To(t, id, Delayed)
      else t.(jobs := s.jobs - {id}, tails := s.tails + 1, failed := if j.phase.transient then s.failed + {j.key} else s.failed)
    case Rescan =>
      s.(cells := s.cells.(rescan := false), tails := s.tails - 1,
         walks := if s.cells.rescan && !s.cells.stopped then s.walks + 1 else s.walks)
    case StopLock => s.(lock := Stopper)
    case StopSet => s.(cells := s.cells.(stopped := true))
    case StopUnlock => s.(lock := Free)
  }

  /** The walk's section, and the jobs that it goes on to enqueue. */
  function WalkStep(s: State, keys: seq<Key>): State
    requires s.walks > 0
  {
    var added := NewKeys(keys, s.cells.known, s.cells.gone * KeySet(keys));
    s.(cells := WalkCells(s.cells, keys), walks := s.walks - 1,
       jobs := s.jobs + NewJobs(added, s.next),
       next := s.next + |added|, last := KeySet(keys), offered := {})
  }

  function NewJobs(keys: seq<Key>, next: nat): (jobs: map<nat, Job>)
    ensures forall id :: id in jobs <==> next <= id < next + |keys|
    ensures forall id :: id in jobs ==> jobs[id] == Job(keys[id - next], Fresh, 0)
  {
    if keys == [] then map[]
    else NewJobs(keys[..|keys| - 1], next)[next + |keys| - 1 := Job(keys[|keys| - 1], Fresh, 0)]
  }

  /**
  What a step does to the cells, whatever the jobs and the lock are doing: `walk` says whether it
  decides on a walk.
  */
  ghost predicate Takes(before: Cells, l: Label, after: Cells, walk: bool) {
    forall s: State :: s.cells == before && Enabled(s, l) ==>
      Step(s, l).cells == after && Step(s, l).walks == s.walks + (if walk then 1 else 0)
  }

  ghost predicate Next(s: State, l: Label, t: State) {
    Enabled(s, l) && t == Step(s, l)
  }

  ghost predicate Reachable(s: State) {
    exists run, labels :: IsRun(Next, run, labels) && Init(run[0]) && run[|labels|] == s
  }

  // ----- the walk's section -----

  lemma {:induction false} NewKeysAre(keys: seq<Key>, known: set<Key>, gone: set<Key>)
    ensures var added := NewKeys(keys, known, gone);
            && (forall k :: k in added <==> k in keys && k !in known && k !in gone)
            && (forall i, j :: 0 <= i < j < |added| ==> added[i] != added[j] && OccursBefore(keys, added[i], added[j]))
  {
    if keys != [] {
      var before, k := keys[..|keys| - 1], keys[|keys| - 1];
      NewKeysAre(before, known, gone);
      assert keys == before + [k];
      var early, added := NewKeys(before, known, gone), NewKeys(keys, known, gone);
      forall i, j | 0 <= i < j < |added| ensures added[i] != added[j] && OccursBefore(keys, added[i], added[j]) {
        assert added[i] == early[i];
        if j < |early| {
          assert added[j] == early[j];
          OccursLonger(before, k, early[i], early[j]);
        } else {
          assert early[i] in before && k !in before;
          var p :| 0 <= p < |before| && before[p] == early[i];
          assert keys[p] == early[i] && keys[..p + 1] == before[..p + 1];
        }
      }
    }
  }

  /** Some place of `a` comes before every place of `b`. */
  ghost predicate OccursBefore(keys: seq<Key>, a: Key, b: Key) {
    exists p :: 0 <= p < |keys| && keys[p] == a && b !in keys[..p + 1]
  }

  lemma {:induction false} OccursLonger(keys: seq<Key>, k: Key, a: Key, b: Key)
    requires OccursBefore(keys, a, b)
    ensures OccursBefore(keys + [k], a, b)
  {
    var p :| 0 <= p < |keys| && keys[p] == a && b !in keys[..p + 1];
    assert (keys + [k])[p] == a && (keys + [k])[..p + 1] == keys[..p + 1];
  }

  /** Some key outside `gone` was known before the walk, or stands in the list for the second time. */
  ghost predicate HasKnown(keys: seq<Key>, known: set<Key>, gone: set<Key>) {
    exists i :: 0 <= i < |keys| && keys[i] !in gone && (keys[i] in known || keys[i] in keys[..i])
  }

  lemma {:induction false} MeetsKnownIs(keys: seq<Key>, known: set<Key>, gone: set<Key>)
    ensures MeetsKnown(keys, known, gone) <==> HasKnown(keys, known, gone)
  {
    if keys != [] {
      var n := |keys| - 1;
      var before, k := keys[..n], keys[n];
      MeetsKnownIs(before, known, gone);
      NewKeysAre(before, known, gone);
      if HasKnown(before, known, gone) {
        var i :| 0 <= i < n && before[i] !in gone && (before[i] in known || before[i] in before[..i]);
        assert keys[i] == before[i] && keys[..i] == before[..i];
      }
      if HasKnown(keys, known, gone) && !(k !in gone && (k in known || k in before)) {
        var i :| 0 <= i < |keys| && keys[i] !in gone && (keys[i] in known || keys[i] in keys[..i]);
        assert i < n;
        assert before[i] == keys[i] && before[..i] == keys[..i];
      }
    }
  }

  // ----- the invariant -----

  ghost predicate HasJob(s: State, k: Key) {
    exists id :: id in s.jobs && s.jobs[id].key == k
  }

  /** Two jobs never share a key; every job's key is known, and before `stop` every known key has a job. */
  ghost predicate Single(s: State) {
    && (forall id :: id in s.jobs ==> id < s.next && s.jobs[id].key in s.cells.known)
    && (forall i, j :: i in s.jobs && j in s.jobs && i != j ==> s.jobs[i].key != s.jobs[j].key)
    && (!s.cells.stopped ==> forall k :: k in s.cells.known ==> HasJob(s, k))
    && s.cells.attempts.Keys <= s.cells.known
  }

  predicate Obtained(p: Phase) {
    p.Applying? || p.Locked? || p.Attaching? || p.Missing? || p.Settling?
  }

  /** A job's tries are its failed attempts, and one more while it holds an answer. */
  predicate Counted(s: State) {
    && (forall k :: k in s.cells.attempts ==> s.cells.attempts[k] <= s.retries)
    && forall id :: id in s.jobs ==>
         s.jobs[id].tries == Attempts(s.cells, s.jobs[id].key) + (if Obtained(s.jobs[id].phase) then 1 else 0)
  }

  /** The `attaching` lock: a job that is about to attach holds it, and `stop` has not begun. */
  predicate Fenced(s: State) {
    forall id :: id in s.jobs ==> InFence(s, id)
  }

  predicate InFence(s: State, id: nat)
    requires id in s.jobs
  {
    && (s.jobs[id].phase.Locked? || s.jobs[id].phase.Attaching? ==> s.lock == Worker(id))
    && (s.jobs[id].phase.Attaching? ==> !s.cells.stopped)
  }

  predicate Awaited(s: State) {
    s.cells.rescan && !s.cells.stopped ==> s.jobs != map[] || s.tails > 0
  }

  /** A job that will still offer its frame, find it gone, retry it or give up. */
  ghost predicate Pending(s: State, k: Key) {
    exists id :: id in s.jobs && s.jobs[id].key == k && s.jobs[id].phase != Settling(false)
  }

  ghost predicate Covered(s: State, k: Key) {
    || k in s.cells.gone || k in s.offered || k in s.failed
    || s.cells.rescan || s.walks > 0 || Pending(s, k)
  }

  ghost predicate AllCovered(s: State) {
    && (s.failed != {} ==> s.cells.gaveUp)
    && (!s.cells.stopped ==> forall k :: k in s.last ==> Covered(s, k))
  }

  ghost predicate Inv(s: State) {
    Single(s) && Counted(s) && Fenced(s) && Awaited(s) && AllCovered(s)
  }

  /** The keys of a walk's new jobs. */
  function Added(s: State, keys: seq<Key>): seq<Key> {
    NewKeys(keys, s.cells.known, s.cells.gone * KeySet(keys))
  }

  lemma {:induction false} AddedAreNew(s: State, keys: seq<Key>, i: nat)
    requires i < |Added(s, keys)|
    ensures Added(s, keys)[i] in KeySet(keys) - s.cells.known
  {
    NewKeysAre(keys, s.cells.known, s.cells.gone * KeySet(keys));
    assert Added(s, keys)[i] in Added(s, keys);
  }

  /** The jobs after a walk: the old ones, and one for each new key. */
  lemma {:induction false} WalkAddsJobs(s: State, keys: seq<Key>, id: nat)
    requires s.walks > 0 && Single(s)
    ensures var t, added := WalkStep(s, keys), Added(s, keys);
            && (id in t.jobs <==> id in s.jobs || s.next <= id < s.next + |added|)
            && (id in s.jobs ==> id < s.next && t.jobs[id] == s.jobs[id] && t.jobs[id].key in s.cells.known)
            && (s.next <= id < s.next + |added| ==>
                  t.jobs[id] == Job(added[id - s.next], Fresh, 0) && t.jobs[id].key in KeySet(keys) - s.cells.known)
  {
    if s.next <= id < s.next + |Added(s, keys)| {
      AddedAreNew(s, keys, id - s.next);
    }
  }

  lemma {:induction false} UniqueAfterWalk(s: State, keys: seq<Key>, i: nat, j: nat)
    requires s.walks > 0 && Single(s)
    ensures var t := WalkStep(s, keys); i in t.jobs && j in t.jobs && i != j ==> t.jobs[i].key != t.jobs[j].key
  {
    NewKeysAre(keys, s.cells.known, s.cells.gone * KeySet(keys));
    WalkAddsJobs(s, keys, i);
    WalkAddsJobs(s, keys, j);
  }

  lemma {:induction false} JobAfterWalk(s: State, keys: seq<Key>, k: Key)
    requires s.walks > 0 && Single(s) && !s.cells.stopped
    ensures var t := WalkStep(s, keys); k in t.cells.known ==> HasJob(t, k)
  {
    var added := Added(s, keys);
    var t := WalkStep(s, keys);
    if k in s.cells.known {
      var id :| id in s.jobs && s.jobs[id].key == k;
      WalkAddsJobs(s, keys, id);
    } else if k in added {
      var i :| 0 <= i < |added| && added[i] == k;
      WalkAddsJobs(s, keys, s.next + i);
    }
  }

  lemma {:induction false} SingleKeptByWalk(s: State, keys: seq<Key>)
    requires s.walks > 0 && Single(s)
    ensures Single(WalkStep(s, keys))
  {
    var t := WalkStep(s, keys);
    forall id | id in t.jobs ensures id < t.next && t.jobs[id].key in t.cells.known {
      WalkAddsJobs(s, keys, id);
    }
    forall i, j | i in t.jobs && j in t.jobs && i != j ensures t.jobs[i].key != t.jobs[j].key {
      UniqueAfterWalk(s, keys, i, j);
    }
    forall k | !t.cells.stopped && k in t.cells.known ensures HasJob(t, k) {
      JobAfterWalk(s, keys, k);
    }
  }

  lemma {:induction false} JobAfterStep(s: State, l: Label, k: Key)
    requires Enabled(s, l) && !l.Walk? && Single(s)
    ensures var t := Step(s, l); !t.cells.stopped && k in t.cells.known ==> HasJob(t, k)
  {
    var t := Step(s, l);
    if !t.cells.stopped && k in t.cells.known {
      var id :| id in s.jobs && s.jobs[id].key == k;
      assert id in t.jobs && t.jobs[id].key == k;
    }
  }

  lemma {:induction false} JobsKeptKnown(s: State, l: Label, id: nat)
    requires Enabled(s, l) && !l.Walk? && Single(s)
    ensures var t := Step(s, l);
            id in t.jobs ==>
              id in s.jobs && id < t.next && t.jobs[id].key == s.jobs[id].key && t.jobs[id].key in t.cells.known
  {
  }

  lemma {:induction false} AttemptsKnown(s: State, l: Label)
    requires Enabled(s, l) && s.cells.attempts.Keys <= s.cells.known && Single(s)
    ensures var t := Step(s, l); t.cells.attempts.Keys <= t.cells.known
  {
  }

  lemma {:induction false} SingleKept(s: State, l: Label)
    requires Enabled(s, l) && Single(s)
    ensures Single(Step(s, l))
  {
    if l.Walk? {
      SingleKeptByWalk(s, l.keys);
    } else {
      var t := Step(s, l);
      AttemptsKnown(s, l);
      forall id | id in t.jobs
        ensures id in s.jobs && id < t.next && t.jobs[id].key == s.jobs[id].key && t.jobs[id].key in t.cells.known
      {
        JobsKeptKnown(s, l, id);
      }
      forall k | !t.cells.stopped && k in t.cells.known ensures HasJob(t, k) {
        JobAfterStep(s, l, k);
      }
    }
  }

  lemma {:induction false} CountedKeptByWalk(s: State, keys: seq<Key>)
    requires s.walks > 0 && Single(s) && Counted(s)
    ensures Counted(WalkStep(s, keys))
  {
    var t := WalkStep(s, keys);
    forall id | id in t.jobs
      ensures t.jobs[id].tries == Attempts(t.cells, t.jobs[id].key) + (if Obtained(t.jobs[id].phase) then 1 else 0)
    {
      WalkAddsJobs(s, keys, id);
    }
  }

  /** A job's account, as `Counted` keeps it. */
  predicate Fair(s: State, id: nat)
    requires id in s.jobs
  {
    s.jobs[id].tries == Attempts(s.cells, s.jobs[id].key) + (if Obtained(s.jobs[id].phase) then 1 else 0)
  }

  lemma {:induction false} FairAfterSettle(s: State, id: nat, j: nat)
    requires Enabled(s, Settle(id)) && Single(s) && j in s.jobs && Fair(s, j)
    ensures var t := Step(s, Settle(id)); j in t.jobs ==> Fair(t, j)
  {
    assert j != id ==> s.jobs[j].key != s.jobs[id].key;
  }

  lemma {:induction false} FairAfterStep(s: State, l: Label, j: nat)
    requires Enabled(s, l) && !l.Walk? && !l.Settle? && j in s.jobs && Fair(s, j)
    ensures var t := Step(s, l); j in t.jobs ==> Fair(t, j)
  {
  }

  lemma {:induction false} AttemptsKept(s: State, l: Label)
    requires Enabled(s, l) && forall k :: k in s.cells.attempts ==> s.cells.attempts[k] <= s.retries
    ensures var t := Step(s, l); t.retries == s.retries && forall k :: k in t.cells.attempts ==> t.cells.attempts[k] <= t.retries
  {
  }

  lemma {:induction false} CountedKept(s: State, l: Label)
    requires Enabled(s, l) && Single(s) && Counted(s)
    ensures Counted(Step(s, l))
  {
    if l.Walk? {
      CountedKeptByWalk(s, l.keys);
    } else {
      var t := Step(s, l);
      AttemptsKept(s, l);
      forall j | j in t.jobs ensures Fair(t, j) {
        assert j in s.jobs && Fair(s, j);
        if l.Settle? { FairAfterSettle(s, l.id, j); } else { FairAfterStep(s, l, j); }
      }
    }
  }

  lemma {:induction false} FenceHolds(s: State, l: Label, id: nat)
    requires Enabled(s, l) && Fenced(s)
    ensures var t := Step(s, l); id in t.jobs ==> InFence(t, id)
  {
  }

  lemma {:induction false} FencedKept(s: State, l: Label)
    requires Enabled(s, l) && Single(s) && Fenced(s)
    ensures Fenced(Step(s, l))
  {
    forall id | id in Step(s, l).jobs ensures InFence(Step(s, l), id) {
      FenceHolds(s, l, id);
    }
  }

  lemma {:induction false} AwaitedKept(s: State, l: Label)
    requires Enabled(s, l) && Single(s) && Awaited(s)
    ensures Awaited(Step(s, l))
  {
    var t := Step(s, l);
    if l.Walk? {
      var gone := s.cells.gone * KeySet(l.keys);
      NewKeysAre(l.keys, s.cells.known, gone);
      MeetsKnownIs(l.keys, s.cells.known, gone);
      if MeetsKnown(l.keys, s.cells.known, gone) && !s.cells.stopped {
        var i :| 0 <= i < |l.keys| && l.keys[i] !in gone && (l.keys[i] in s.cells.known || l.keys[i] in l.keys[..i]);
        var k := l.keys[i];
        assert k in l.keys;
        assert k in NewKeys(l.keys, s.cells.known, gone) ==> s.next in t.jobs;
      }
    }
  }

  lemma {:induction false} CoveredAfterWalk(s: State, keys: seq<Key>, k: Key)
    requires s.walks > 0 && Single(s) && k in keys
    ensures Covered(WalkStep(s, keys), k)
  {
    var gone := s.cells.gone * KeySet(keys);
    NewKeysAre(keys, s.cells.known, gone);
    if k in Added(s, keys) {
      AddedIsPending(s, keys, k);
    } else if k !in gone {
      MeetsKnownIs(keys, s.cells.known, gone);
      var i :| 0 <= i < |keys| && keys[i] == k;
      assert keys[i] !in gone && keys[i] in s.cells.known;
    }
  }

  lemma {:induction false} AddedIsPending(s: State, keys: seq<Key>, k: Key)
    requires s.walks > 0 && Single(s) && k in Added(s, keys)
    ensures Pending(WalkStep(s, keys), k)
  {
    var added := Added(s, keys);
    var i :| 0 <= i < |added| && added[i] == k;
    WalkAddsJobs(s, keys, s.next + i);
  }

  lemma {:induction false} CoveredKeptByWalk(s: State, keys: seq<Key>)
    requires s.walks > 0 && Single(s) && AllCovered(s)
    ensures AllCovered(WalkStep(s, keys))
  {
    forall k | k in KeySet(keys) ensures Covered(WalkStep(s, keys), k) {
      CoveredAfterWalk(s, keys, k);
    }
  }

  lemma {:induction false} CoveredAfterStep(s: State, l: Label, k: Key)
    requires Enabled(s, l) && !l.Walk? && AllCovered(s) && Covered(s, k)
    ensures var t := Step(s, l); !t.cells.stopped ==> Covered(t, k)
  {
    var t := Step(s, l);
    if Pending(s, k) {
      var id :| id in s.jobs && s.jobs[id].key == k && s.jobs[id].phase != Settling(false);
      assert id in t.jobs && t.jobs[id].phase != Settling(false) ==> t.jobs[id].key == k;
    }
  }

  lemma {:induction false} CoveredKept(s: State, l: Label)
    requires Enabled(s, l) && Single(s) && AllCovered(s)
    ensures AllCovered(Step(s, l))
  {
    if l.Walk? {
      CoveredKeptByWalk(s, l.keys);
    } else {
      var t := Step(s, l);
      forall k | !t.cells.stopped && k in t.last ensures Covered(t, k) {
        CoveredAfterStep(s, l, k);
      }
    }
  }

  lemma {:induction false} StepKeepsInv(s: State, l: Label)
    requires Enabled(s, l) && Inv(s)
    ensures Inv(Step(s, l))
  {
    SingleKept(s, l);
    CountedKept(s, l);
    FencedKept(s, l);
    AwaitedKept(s, l);
    CoveredKept(s, l);
  }

  lemma {:induction false} ReachableInv(s: State)
    requires Reachable(s)
    ensures Inv(s)
  {
    var run, labels :| IsRun(Next, run, labels) && Init(run[0]) && run[|labels|] == s;
    forall s, l, t | Inv(s) && Next(s, l, t) ensures Inv(t) {
      StepKeepsInv(s, l);
    }
    Invariant(Next, Inv, run, labels, |labels|);
  }

  // ----- what holds in every run -----

  /** Before `stop`, `known` is exactly the set of keys with one outstanding job. */
  lemma {:induction false} KnownKeysHaveOneJob(s: State, k: Key)
    requires Reachable(s) && !s.cells.stopped
    ensures k in s.cells.known <==> exists id :: id in s.jobs && s.jobs[id].key == k
    ensures forall i, j :: i in s.jobs && j in s.jobs && s.jobs[i].key == s.jobs[j].key == k ==> i == j
  {
    ReachableInv(s);
    assert k in s.cells.known ==> HasJob(s, k);
  }

  /** A key is fetched at most once more than there are retry delays, for each stay in `known`. */
  lemma {:induction false} TriesAreBounded(s: State, id: nat)
    requires Reachable(s) && id in s.jobs
    ensures s.jobs[id].tries <= s.retries + 1
    ensures s.jobs[id].phase == Running ==> s.jobs[id].tries <= s.retries
  {
    ReachableInv(s);
  }

  predicate Quiet(s: State) {
    s.jobs == map[] && s.tails == 0 && s.walks == 0
  }

  /**
  When no job is outstanding, every frame of the last walk was fetched and offered to `apply`, is
  gone, or was given up and left `gaveUp` set; then the next `retry` walks again. Nothing is known or counted any more.
  */
  lemma {:induction false} LastWalkIsServed(s: State, k: Key)
    requires Reachable(s) && !s.cells.stopped && Quiet(s)
    ensures s.cells.known == {} && s.cells.attempts == map[] && !s.cells.rescan
    ensures k in s.last ==> k in s.offered || k in s.cells.gone || (k in s.failed && s.cells.gaveUp)
    ensures s.cells.gaveUp ==> Step(s, Retry).walks == 1
  {
    ReachableInv(s);
    assert forall x :: x in s.cells.known ==> HasJob(s, x);
    assert k in s.last ==> Covered(s, k);
  }

  /** Once `stop` has set its flag, no frame is ever attached. */
  lemma {:induction false} StopFencesAttachments(run: seq<State>, labels: seq<Label>, n: nat)
    requires IsRun(Next, run, labels) && n <= |labels| && Reachable(run[0]) && run[0].cells.stopped
    ensures run[n].cells.stopped && run[n].attached == run[0].attached
  {
    ReachableInv(run[0]);
    var inv := (s: State) => Inv(s) && s.cells.stopped && s.attached == run[0].attached;
    forall s, l, t | inv(s) && Next(s, l, t) ensures inv(t) {
      StepKeepsInv(s, l);
    }
    Invariant(Next, inv, run, labels, n);
  }

  lemma {:induction false} StoppedStepFetchesNothing(s: State, l: Label, id: nat)
    requires Enabled(s, l) && s.cells.stopped
    ensures var t := Step(s, l);
            && t.cells.stopped && t.walks <= s.walks
            && (InPhase(t, id, Running) ==> InPhase(s, id, Running) && t.jobs[id].key == s.jobs[id].key)
  {
  }

  /** Once `stop` has set its flag, no walk is decided on and no fetch begins: those that run are those that ran. */
  lemma {:induction false} StopEndsFetches(run: seq<State>, labels: seq<Label>, n: nat, id: nat)
    requires IsRun(Next, run, labels) && n <= |labels| && run[0].cells.stopped
    ensures run[n].cells.stopped && run[n].walks <= run[0].walks
    ensures InPhase(run[n], id, Running) ==> InPhase(run[0], id, Running) && run[n].jobs[id].key == run[0].jobs[id].key
  {
    if n > 0 {
      StopEndsFetches(run, labels, n - 1, id);
      assert Next(run[n - 1], labels[n - 1], run[n]);
      StoppedStepFetchesNothing(run[n - 1], labels[n - 1], id);
    }
  }

  /** `stop` returns only after no attachment can be under way. */
  lemma {:induction false} StopReturnsAfterAttachments(s: State, id: nat)
    requires Reachable(s) && Enabled(s, StopUnlock) && id in s.jobs
    ensures !s.jobs[id].phase.Locked? && !s.jobs[id].phase.Attaching?
  {
    ReachableInv(s);
  }
}
