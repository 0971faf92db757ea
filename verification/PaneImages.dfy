/**
The lock-protected sections of PaneImages as a class, and its byte-budgeted cache of bodies
(app/App/PaneImages.swift).
*/
module PaneImages {
  import opened Wrappers
  import opened ImageProtocol

  type Data = seq<bv8>

  /** What a fetch brings: an image in one of two forms, NotFound, or another error. */
  datatype Answer = Body(data: Data) | Shared(name: string, length: int) | Missing | Failed

  const BODY_BUDGET: nat := 0x100_0000

  // ----- the cache on values -----

  datatype Cache = Cache(bodies: map<Key, Data>, order: seq<Key>, bytes: int)

  function Size(c: Cache, k: Key): nat {
    if k in c.bodies then |c.bodies[k]| else 0
  }

  /** The bytes of the bodies that `order` lists. */
  function Total(order: seq<Key>, bodies: map<Key, Data>): nat {
    if order == [] then 0 else (if order[0] in bodies then |bodies[order[0]]| else 0) + Total(order[1..], bodies)
  }

  ghost predicate NoRepeats(order: seq<Key>) {
    forall i, j :: 0 <= i < j < |order| ==> order[i] != order[j]
  }

  /** `order` lists exactly the cached keys, once each. */
  ghost predicate Coherent(c: Cache) {
    NoRepeats(c.order) && KeySet(c.order) == c.bodies.Keys
  }

  /** What holds at each unlock until `stop`. */
  ghost predicate Balanced(c: Cache) {
    Coherent(c) && c.bytes == Total(c.order, c.bodies) && c.bytes <= BODY_BUDGET
  }

  function Without(order: seq<Key>, k: Key): seq<Key> {
    if order == [] then []
    else if order[0] == k then Without(order[1..], k)
    else [order[0]] + Without(order[1..], k)
  }

  function Dropped(c: Cache): Cache
    requires c.order != []
  {
    Cache(c.bodies - {c.order[0]}, c.order[1..], c.bytes - Size(c, c.order[0]))
  }

  /** Evicts the oldest bodies until the budget holds or none is left. */
  function Trimmed(c: Cache): Cache
    decreases |c.order|
  {
    if c.bytes > BODY_BUDGET && c.order != [] then Trimmed(Dropped(c)) else c
  }

  function Forgotten(c: Cache, k: Key): Cache {
    if k in c.bodies then Cache(c.bodies - {k}, Without(c.order, k), c.bytes - |c.bodies[k]|) else c
  }

  function Appended(c: Cache, k: Key, data: Data): Cache {
    Cache(c.bodies[k := data], c.order + [k], c.bytes + |data|)
  }

  function Remembered(c: Cache, k: Key, data: Data): Cache {
    if |data| > BODY_BUDGET then c else Trimmed(Appended(Forgotten(c, k), k, data))
  }

  // ----- the class -----

  class PaneImages {
    const retries: nat
    var seen: nat
    var known: set<Key>
    var rescan: bool
    var attempts: map<Key, nat>
    var gone: set<Key>
    var stopped: bool
    var bodies: map<Key, Data>
    var order: seq<Key>
    var bodyBytes: int
    var gaveUp: bool

    function View(): Cells
      reads this
    {
      Cells(seen, known, rescan, attempts, gone, stopped, gaveUp)
    }

    function Bodies(): Cache
      reads this
    {
      Cache(bodies, order, bodyBytes)
    }

    constructor (retries: nat)
      ensures this.retries == retries && View() == NO_CELLS && Bodies() == Cache(map[], [], 0)
    {
      this.retries := retries;
      seen, known, rescan, attempts := 0, {}, false, map[];
      gone, stopped, gaveUp := {}, false, false;
      bodies, order, bodyBytes := map[], [], 0;
    }

    method SurfaceChanged(generation: nat) returns (walk: bool)
      modifies this`seen
      ensures View() == old(View()).(seen := generation)
      ensures walk == (old(seen) != generation && !stopped)
      ensures Takes(old(View()), Label.SurfaceChanged(generation), View(), walk)
    {
      walk := seen != generation && !stopped;
      seen := generation;
    }

    method Retry() returns (walk: bool)
      modifies this`gaveUp
      ensures View() == old(View()).(gaveUp := false)
      ensures walk == (old(gaveUp) && !stopped)
      ensures Takes(old(View()), Label.Retry, View(), walk)
    {
      walk := gaveUp && !stopped;
      gaveUp := false;
    }

    method Stop()
      modifies this`stopped, this`bodies, this`order
      ensures View() == old(View()).(stopped := true)
      ensures Takes(old(View()), StopSet, View(), false)
      ensures Bodies() == Cache(map[], [], old(bodyBytes))
    {
      stopped, bodies, order := true, map[], [];
    }

    /** The section of `walk`: the keys to enqueue. */
    method Walk(keys: seq<Key>) returns (added: seq<Key>)
      modifies this`gone, this`known, this`rescan
      ensures View() == WalkCells(old(View()), keys)
      ensures added == NewKeys(keys, old(known), old(gone) * KeySet(keys))
      ensures forall k :: k in gone <==> k in old(gone) && k in keys
      ensures forall k :: k in added <==> k in keys && k !in old(known) && k !in gone
      ensures forall i, j :: 0 <= i < j < |added| ==> added[i] != added[j] && OccursBefore(keys, added[i], added[j])
      ensures forall k :: k in known <==> k in old(known) || k in added
      ensures rescan <==> old(rescan) || HasKnown(keys, old(known), gone)
    {
      gone := gone * KeySet(keys);
      added := [];
      for i := 0 to |keys|
        invariant gone == old(gone) * KeySet(keys)
        invariant added == NewKeys(keys[..i], old(known), gone)
        invariant known == old(known) + KeySet(added)
        invariant rescan == (old(rescan) || MeetsKnown(keys[..i], old(known), gone))
      {
        var key := keys[i];
        assert keys[..i + 1][..i] == keys[..i];
        if key !in gone {
          if key !in known {
            known := known + {key};
            added := added + [key];
          } else {
            rescan := true;
          }
        }
      }
      assert keys[..|keys|] == keys;
      NewKeysAre(keys, old(known), gone);
      MeetsKnownIs(keys, old(known), gone);
    }

    /** The last section of `run`: the delay to wait for, when the key is tried again. */
    method Settle(key: Key, transient: bool) returns (retry: Option<nat>)
      modifies this`attempts, this`gaveUp, this`known
      ensures View() == SettleCells(old(View()), key, transient, retries)
      ensures retry == if TriesAgain(old(View()), key, transient, retries) then Some(Attempts(old(View()), key)) else None
      ensures var tried := if key in old(attempts) then old(attempts[key]) else 0;
              && (retry.Some? <==> transient && !stopped && tried < retries)
              && (retry.Some? ==>
                    && retry.value == tried && attempts == old(attempts)[key := tried + 1]
                    && known == old(known) && gaveUp == old(gaveUp))
              && (retry == None ==>
                    && known == old(known) - {key} && attempts == old(attempts) - {key}
                    && (gaveUp <==> old(gaveUp) || transient))
    {
      var attempt := if key in attempts then attempts[key] else 0;
      if transient && !stopped && attempt < retries {
        attempts := attempts[key := attempt + 1];
        return Some(attempt);
      }
      if transient {
        gaveUp := true;
      }
      known := known - {key};
      attempts := attempts - {key};
      return None;
    }

    /** `obtain`: a remote body that is remembered is not fetched again; `answer` is what the fetch says otherwise. */
    method Obtain(key: Key, local: bool, answer: Answer) returns (r: Answer, asked: bool)
      modifies this`bodies, this`order, this`bodyBytes
      ensures asked <==> local || key !in old(bodies)
      ensures r == if asked then answer else Body(old(bodies)[key])
      ensures !asked || local || !answer.Body? || |answer.data| > 16 * 1024 * 1024 ==> Bodies() == old(Bodies())
      ensures asked && !local && answer.Body? ==> Bodies() == Remembered(old(Bodies()), key, answer.data)
    {
      if !local && key in bodies {
        return Body(bodies[key]), false;
      }
      if !local && answer.Body? {
        Remember(key, answer.data);
      }
      return answer, true;
    }

    /** `run` when no other section comes between: what the answer to the fetch does to the frame. */
    method Run(key: Key, local: bool, answer: Answer) returns (offered: Option<Answer>, retry: Option<nat>, walk: bool)
      modifies this
      ensures old(stopped) ==> View() == old(View()) && Bodies() == old(Bodies()) && (offered, retry, walk) == (None, None, false)
      ensures seen == old(seen) && stopped == old(stopped)
      ensures !old(stopped) ==>
                var r := if !local && key in old(bodies) then Body(old(bodies)[key]) else answer;
                var tried := if key in old(attempts) then old(attempts[key]) else 0;
                && (offered == if r.Body? || r.Shared? then Some(r) else None)
                && (gone == if r.Missing? then old(gone) + {key} else old(gone))
                && (retry == if r.Failed? && tried < retries then Some(tried) else None)
                && (gaveUp <==> old(gaveUp) || (r.Failed? && retry == None))
                && (known == if retry.Some? then old(known) else old(known) - {key})
                && (walk <==> retry == None && old(rescan))
                && (rescan <==> retry.Some? && old(rescan))
    {
      if stopped {
        return None, None, false;
      }
      var r, _ := Obtain(key, local, answer);
      var transient := false;
      match r {
        case Body(_) => offered := Some(r);
        case Shared(_, _) => offered := Some(r);
        case Missing() =>
          offered := None;
          MarkGone(key);
        case Failed =>
          offered, transient := None, true;
      }
      retry := Settle(key, transient);
      if retry.Some? {
        return offered, retry, false;
      }
      walk := TakeRescan();
    }

    method MarkGone(key: Key)
      modifies this`gone
      ensures View() == old(View()).(gone := old(gone) + {key})
    {
      gone := gone + {key};
    }

    method TakeRescan() returns (walk: bool)
      modifies this`rescan
      ensures View() == old(View()).(rescan := false)
      ensures walk == (old(rescan) && !stopped)
      ensures Takes(old(View()), Rescan, View(), walk)
    {
      walk := rescan && !stopped;
      rescan := false;
    }

    method Remember(key: Key, data: Data)
      modifies this`bodies, this`order, this`bodyBytes
      ensures Bodies() == Remembered(old(Bodies()), key, data)
    {
      if |data| > BODY_BUDGET {
        return;
      }
      if key in bodies {
        bodyBytes := bodyBytes - |bodies[key]|;
        bodies := bodies - {key};
        order := Without(order, key);
      }
      bodies := bodies[key := data];
      order := order + [key];
      bodyBytes := bodyBytes + |data|;
      Trim();
    }

    /** The oldest bodies go until the rest fits. */
    method Trim()
      modifies this`bodies, this`order, this`bodyBytes
      ensures Bodies() == Trimmed(old(Bodies()))
    {
      while bodyBytes > BODY_BUDGET && order != []
        invariant Trimmed(Bodies()) == Trimmed(old(Bodies()))
        decreases |order|
      {
        var oldest := order[0];
        order := order[1..];
        bodyBytes := bodyBytes - (if oldest in bodies then |bodies[oldest]| else 0);
        bodies := bodies - {oldest};
      }
    }
  }

  // ----- what the cache keeps -----

  lemma {:induction false} TotalAppends(order: seq<Key>, k: Key, bodies: map<Key, Data>)
    ensures Total(order + [k], bodies) == Total(order, bodies) + Total([k], bodies)
  {
    if order == [] {
      assert order + [k] == [k];
    } else {
      TotalAppends(order[1..], k, bodies);
      assert (order + [k])[1..] == order[1..] + [k];
    }
  }

  /** The total reads only the bodies that the order lists. */
  lemma {:induction false} TotalDependsOnOrder(order: seq<Key>, a: map<Key, Data>, b: map<Key, Data>)
    requires forall k :: k in order ==> k in a && k in b && a[k] == b[k]
    ensures Total(order, a) == Total(order, b)
  {
    if order != [] {
      TotalDependsOnOrder(order[1..], a, b);
    }
  }

  lemma {:induction false} WithoutIs(order: seq<Key>, k: Key)
    ensures forall x :: x in Without(order, k) <==> x in order && x != k
    ensures NoRepeats(order) ==> NoRepeats(Without(order, k))
  {
    if order != [] {
      WithoutIs(order[1..], k);
      assert order == [order[0]] + order[1..];
      assert NoRepeats(order) ==> NoRepeats(order[1..]) && order[0] !in order[1..];
      var rest := Without(order[1..], k);
      assert order[0] !in order[1..] ==> order[0] !in rest;
      assert Without(order, k) == if order[0] == k then rest else [order[0]] + rest;
    }
  }

  lemma {:induction false} WithoutTotal(order: seq<Key>, k: Key, bodies: map<Key, Data>)
    requires NoRepeats(order)
    ensures Total(Without(order, k), bodies) == Total(order, bodies) - (if k in order && k in bodies then |bodies[k]| else 0)
  {
    if order != [] {
      WithoutTotal(order[1..], k, bodies);
      assert order[0] !in order[1..];
      assert order == [order[0]] + order[1..];
      if order[0] != k {
        assert ([order[0]] + Without(order[1..], k))[1..] == Without(order[1..], k);
      }
    }
  }

  lemma {:induction false} ForgottenIs(c: Cache, k: Key)
    requires Coherent(c) && c.bytes == Total(c.order, c.bodies)
    ensures var f := Forgotten(c, k); Coherent(f) && f.bytes == Total(f.order, f.bodies) && k !in f.bodies
  {
    if k in c.bodies {
      var f := Forgotten(c, k);
      WithoutIs(c.order, k);
      WithoutTotal(c.order, k, c.bodies);
      assert k in KeySet(c.order);
      TotalDependsOnOrder(f.order, c.bodies, f.bodies);
    }
  }

  lemma {:induction false} AppendedIs(c: Cache, k: Key, data: Data)
    requires Coherent(c) && c.bytes == Total(c.order, c.bodies) && k !in c.bodies
    ensures var a := Appended(c, k, data); Coherent(a) && a.bytes == Total(a.order, a.bodies)
  {
    var a := Appended(c, k, data);
    assert forall x :: x in c.order ==> x in KeySet(c.order);
    TotalDependsOnOrder(c.order, c.bodies, a.bodies);
    TotalAppends(c.order, k, a.bodies);
    assert Total([k], a.bodies) == |data| + Total([], a.bodies);
  }

  lemma {:induction false} DroppedCoheres(c: Cache)
    requires Coherent(c) && c.order != []
    ensures Coherent(Dropped(c)) && Dropped(c).order == c.order[1..] && c.order[0] in c.bodies
    ensures forall x :: x in c.order[1..] ==> x in c.bodies && x != c.order[0]
  {
    assert c.order == [c.order[0]] + c.order[1..];
    assert c.order[0] in KeySet(c.order);
    assert forall x :: x in c.order[1..] ==> x in KeySet(c.order) && x != c.order[0];
  }

  lemma {:induction false} DroppedIs(c: Cache)
    requires Coherent(c) && c.bytes == Total(c.order, c.bodies) && c.order != []
    ensures var d := Dropped(c); Coherent(d) && d.bytes == Total(d.order, d.bodies)
  {
    DroppedCoheres(c);
    TotalDependsOnOrder(c.order[1..], c.bodies, Dropped(c).bodies);
  }

  /** `late` is what is left of `early` after evicting its `n` oldest bodies. */
  ghost predicate Evicts(early: Cache, late: Cache, n: nat) {
    && n <= |early.order| && late.order == early.order[n..]
    && forall k :: k in late.bodies ==> k in early.bodies && late.bodies[k] == early.bodies[k]
  }

  /** The bodies behind the first count the same without it. */
  lemma {:induction false} DroppedTotal(c: Cache, m: nat)
    requires Coherent(c) && c.order != [] && m <= |c.order[1..]|
    ensures Total(c.order[1..][m..], Dropped(c).bodies) == Total(c.order[m + 1..], c.bodies)
  {
    DroppedCoheres(c);
    assert c.order[1..][m..] == c.order[m + 1..];
    assert forall x :: x in c.order[m + 1..] ==> x in c.order[1..];
    TotalDependsOnOrder(c.order[m + 1..], c.bodies, Dropped(c).bodies);
  }

  /** Trimming evicts the oldest bodies, no more of them than the budget asks for, and keeps the books. */
  lemma {:induction false} TrimmedIs(c: Cache)
    returns (n: nat)
    requires Coherent(c) && c.bytes == Total(c.order, c.bodies)
    ensures Balanced(Trimmed(c)) && Evicts(c, Trimmed(c), n)
    ensures n > 0 ==> Total(c.order[n - 1..], c.bodies) > BODY_BUDGET
    decreases |c.order|
  {
    if c.bytes > BODY_BUDGET && c.order != [] {
      DroppedIs(c);
      var d := Dropped(c);
      var m := TrimmedIs(d);
      n := m + 1;
      assert d.order[m..] == c.order[n..];
      if m > 0 {
        DroppedTotal(c, m - 1);
      }
    } else {
      n := 0;
    }
  }

  /**
  Remembering keeps the books within the budget. The body just remembered survives, the others are
  kept newest first: evicting one body fewer would exceed the budget.
  */
  lemma {:induction false} RememberKeepsBalance(c: Cache, k: Key, data: Data)
    returns (n: nat)
    requires Balanced(c) && |data| <= BODY_BUDGET
    ensures var full, r := Appended(Forgotten(c, k), k, data), Remembered(c, k, data);
            && Balanced(r)
            && k in r.bodies && r.bodies[k] == data
            && r.order != [] && r.order[|r.order| - 1] == k
            && Evicts(full, r, n)
            && (n > 0 ==> Total(full.order[n - 1..], full.bodies) > BODY_BUDGET)
  {
    ForgottenIs(c, k);
    var f := Forgotten(c, k);
    AppendedIs(f, k, data);
    var full := Appended(f, k, data);
    n := TrimmedIs(full);
    NewestSurvives(full, Trimmed(full), n, k);
  }

  lemma {:induction false} WithoutSplits(a: seq<Key>, k: Key, b: seq<Key>)
    requires k !in a && k !in b
    ensures Without(a + [k] + b, k) == a + b
  {
    if a == [] {
      assert (a + [k] + b)[1..] == b && a + b == b;
      WithoutNone(b, k);
    } else {
      assert (a + [k] + b)[1..] == a[1..] + [k] + b;
      WithoutSplits(a[1..], k, b);
      assert a + b == [a[0]] + (a[1..] + b);
    }
  }

  lemma {:induction false} WithoutNone(order: seq<Key>, k: Key)
    requires k !in order
    ensures Without(order, k) == order
  {
    if order != [] {
      WithoutNone(order[1..], k);
    }
  }

  /** The keys of a coherent cache around `k`, or all of them if `k` is not in it. */
  ghost predicate Around(c: Cache, a: seq<Key>, k: Key, b: seq<Key>) {
    if k in c.bodies then c.order == a + [k] + b else c.order == a && b == []
  }

  lemma {:induction false} ForgottenOrder(c: Cache, a: seq<Key>, k: Key, b: seq<Key>)
    requires Coherent(c) && Around(c, a, k, b)
    ensures Forgotten(c, k).order == a + b
  {
    if k in c.bodies {
      assert c.order[|a|] == k;
      forall i | 0 <= i < |c.order| && i != |a| ensures c.order[i] != k {
      }
      assert forall i :: 0 <= i < |a| ==> a[i] == c.order[i];
      assert forall i :: 0 <= i < |b| ==> b[i] == c.order[|a| + 1 + i];
      WithoutSplits(a, k, b);
    }
  }

  /**
  What remembering leaves: the body itself last, before it the newest of the others in their order and
  with their bytes, as many as fit beside it in 16 MiB.
  */
  lemma {:induction false} RememberedIs(c: Cache, a: seq<Key>, k: Key, b: seq<Key>, data: Data)
    returns (n: nat)
    requires Balanced(c) && |data| <= 16 * 1024 * 1024 && Around(c, a, k, b)
    ensures n <= |a + b|
    ensures var r, kept := Remembered(c, k, data), (a + b)[n..];
            && r.order == kept + [k]
            && r.bodies.Keys == KeySet(r.order)
            && k in r.bodies && r.bodies[k] == data
            && (forall x :: x in kept ==> x in c.bodies && x in r.bodies && r.bodies[x] == c.bodies[x])
            && r.bytes == Total(kept, c.bodies) + |data| <= 16 * 1024 * 1024
    ensures n > 0 ==> Total((a + b)[n - 1..], c.bodies) + |data| > 16 * 1024 * 1024
  {
    var f, r := Forgotten(c, k), Remembered(c, k, data);
    ForgottenIs(c, k);
    ForgottenOrder(c, a, k, b);
    ForgottenBodies(c, k);
    n := RememberKeepsBalance(c, k, data);
    KeptOrder(f.order, k, n, r.order);
    KeptBodies(f, k, data, c.bodies, r, n);
  }

  lemma {:induction false} KeptOrder(order: seq<Key>, k: Key, n: nat, left: seq<Key>)
    requires n <= |order| + 1 && left == (order + [k])[n..] && left != []
    ensures n <= |order| && left == order[n..] + [k]
  {
  }

  lemma {:induction false} ForgottenBodies(c: Cache, k: Key)
    requires Coherent(c)
    ensures var f := Forgotten(c, k);
            forall x :: x in f.order ==> x in f.bodies && x in c.bodies && f.bodies[x] == c.bodies[x] && x != k
  {
    if k in c.bodies {
      WithoutIs(c.order, k);
    } else {
      assert forall x :: x in c.order ==> x in KeySet(c.order);
    }
    assert forall x :: x in Forgotten(c, k).order ==> x in KeySet(c.order);
  }

  lemma {:induction false} KeptBodies(f: Cache, k: Key, data: Data, bodies: map<Key, Data>, r: Cache, n: nat)
    requires forall x :: x in f.order ==> x in f.bodies && x in bodies && f.bodies[x] == bodies[x] && x != k
    requires n <= |f.order| && r.order == f.order[n..] + [k] && KeySet(r.order) == r.bodies.Keys
    requires forall x :: x in r.bodies ==> x in f.bodies[k := data] && r.bodies[x] == f.bodies[k := data][x]
    requires n > 0 ==> Total((f.order + [k])[n - 1..], f.bodies[k := data]) > BODY_BUDGET
    ensures forall x :: x in f.order[n..] ==> x in bodies && x in r.bodies && r.bodies[x] == bodies[x]
    ensures Total(r.order, r.bodies) == Total(f.order[n..], bodies) + |data|
    ensures n > 0 ==> Total(f.order[n - 1..], bodies) + |data| > BODY_BUDGET
  {
    assert forall x :: x in f.order[n..] ==> x in f.order && x in r.order;
    assert forall x :: x in r.order ==> x in KeySet(r.order);
    TotalOfAppended(f.order[n..], k, data, f.bodies, bodies);
    TotalDependsOnOrder(r.order, f.bodies[k := data], r.bodies);
    if n > 0 {
      assert (f.order + [k])[n - 1..] == f.order[n - 1..] + [k];
      assert forall x :: x in f.order[n - 1..] ==> x in f.order;
      TotalOfAppended(f.order[n - 1..], k, data, f.bodies, bodies);
    }
  }

  lemma {:induction false} TotalOfAppended(order: seq<Key>, k: Key, data: Data, f: map<Key, Data>, c: map<Key, Data>)
    requires forall x :: x in order ==> x in f && x in c && f[x] == c[x] && x != k
    ensures Total(order + [k], f[k := data]) == Total(order, c) + |data|
  {
    TotalAppends(order, k, f[k := data]);
    TotalDependsOnOrder(order, f[k := data], c);
    assert Total([k], f[k := data]) == |data| + Total([], f[k := data]);
  }

  /** A body that fits alone is not the one that the budget evicts when it is the newest. */
  lemma {:induction false} NewestSurvives(full: Cache, late: Cache, n: nat, k: Key)
    requires full.order != [] && full.order[|full.order| - 1] == k && k in full.bodies && |full.bodies[k]| <= BODY_BUDGET
    requires Evicts(full, late, n) && KeySet(late.order) == late.bodies.Keys
    requires n > 0 ==> Total(full.order[n - 1..], full.bodies) > BODY_BUDGET
    ensures late.order != [] && late.order[|late.order| - 1] == k && k in late.bodies && late.bodies[k] == full.bodies[k]
  {
    assert full.order[|full.order| - 1..] == [k];
    assert Total([k], full.bodies) == |full.bodies[k]| + Total([], full.bodies);
    assert n < |full.order|;
    assert k in KeySet(late.order);
  }

  /**
  `stop` empties the cache and leaves the byte count as it is, so a fetch that ends after `stop` is
  remembered exactly if its body still fits beside the bytes counted before.
  */
  lemma {:induction false} RememberAfterStop(bytes: nat, k: Key, data: Data)
    requires |data| <= BODY_BUDGET
    ensures var r := Remembered(Cache(map[], [], bytes), k, data);
            && (k in r.bodies <==> bytes + |data| <= BODY_BUDGET)
            && r.bytes == (if k in r.bodies then bytes + |data| else bytes)
  {
    var full := Appended(Cache(map[], [], bytes), k, data);
    assert full.order == [k];
    if full.bytes > BODY_BUDGET {
      assert Dropped(full).order == [];
      assert Trimmed(full) == Trimmed(Dropped(full));
    }
  }
}
