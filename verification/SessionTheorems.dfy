/** What holds of the window views in every run, and what an eviction leaves. */
module SessionTheorems {
  import opened SessionViews
  import opened Wrappers

  // ----- the invariant -----

  predicate Apart(s: Views) {
    s.windows.Keys !! s.others.Keys
  }

  predicate Distinct(ids: seq<WindowID>) {
    forall i, j :: 0 <= i < j < |ids| ==> ids[i] != ids[j]
  }

  predicate Known(s: Views) {
    forall id :: id in s.recent ==> s.Holds(id)
  }

  ghost predicate HotIsRecent(s: Views) {
    forall id: WindowID :: s.Panes(id) > 0 ==> id in s.recent
  }

  predicate OthersAreHot(s: Views) {
    forall id :: id in s.others ==> s.others[id].panes > 0
  }

  ghost predicate OneUnhidden(s: Views) {
    forall a: WindowID, b: WindowID :: s.Unhidden(a) && s.Unhidden(b) ==> a == b
  }

  ghost predicate UnhiddenIsFirst(s: Views) {
    forall id: WindowID :: s.Unhidden(id) && s.Panes(id) > 0 ==> s.recent != [] && s.recent[0] == id
  }

  ghost predicate Inv(s: Views) {
    && Apart(s) && Distinct(s.recent) && Known(s) && HotIsRecent(s)
    && OthersAreHot(s) && OneUnhidden(s) && UnhiddenIsFirst(s)
  }

  // ----- the order -----

  lemma {:induction false} FilterIs(ids: seq<WindowID>, keep: set<WindowID>)
    ensures forall x :: x in Filter(ids, keep) <==> x in ids && x in keep
    ensures Distinct(ids) ==> Distinct(Filter(ids, keep))
    ensures ids != [] && ids[0] in keep ==> Filter(ids, keep) != [] && Filter(ids, keep)[0] == ids[0]
  {
    if ids != [] {
      FilterIs(ids[1..], keep);
      assert Distinct(ids) ==> ids[0] !in ids[1..];
      assert ids == [ids[0]] + ids[1..];
    }
  }

  /** One list holds ids of another in the same order. */
  ghost predicate SameOrder(late: seq<WindowID>, early: seq<WindowID>) {
    forall i, j :: 0 <= i < j < |late| ==> Before(early, late[i], late[j])
  }

  ghost predicate Before(ids: seq<WindowID>, a: WindowID, b: WindowID) {
    exists i, j :: 0 <= i < j < |ids| && ids[i] == a && ids[j] == b
  }

  lemma {:induction false} FilterKeepsOrder(ids: seq<WindowID>, keep: set<WindowID>)
    ensures SameOrder(Filter(ids, keep), ids)
  {
    if ids != [] {
      var rest, late := Filter(ids[1..], keep), Filter(ids, keep);
      FilterKeepsOrder(ids[1..], keep);
      FilterIs(ids[1..], keep);
      forall i, j | 0 <= i < j < |late| ensures Before(ids, late[i], late[j]) {
        if ids[0] in keep && i == 0 {
          assert late[j] == rest[j - 1] && rest[j - 1] in ids[1..];
          var k :| 0 <= k < |ids[1..]| && ids[1..][k] == late[j];
          assert ids[0] == late[0] && ids[k + 1] == late[j];
        } else {
          var d := if ids[0] in keep then 1 else 0;
          assert Before(ids[1..], rest[i - d], rest[j - d]);
          var x, y :| 0 <= x < y < |ids[1..]| && ids[1..][x] == late[i] && ids[1..][y] == late[j];
          assert ids[x + 1] == late[i] && ids[y + 1] == late[j];
        }
      }
    }
  }

  // ----- updates -----

  /** The entry at a place is one of a window's; `others` come first where both hold it. */
  predicate IsAt(listing: seq<Listed>, i: nat, id: WindowID) {
    i < |listing| && listing[i].id == id
  }

  function ViewBefore(s: Views, id: WindowID): WindowView {
    if id in s.others then s.others[id] else if id in s.windows then s.windows[id] else WindowView(0, true)
  }

  /** The list gives each of its windows its view as it was, unless that is laid out again. */
  lemma {:induction false} ListIs(s: Views, listing: seq<Listed>, id: WindowID)
    ensures id in List(s, listing) <==> exists i: nat :: IsAt(listing, i, id)
    ensures var view := ViewBefore(s, id);
            && id in List(s, listing)
            && (view.panes == 0 || view.hidden || forall i: nat :: IsAt(listing, i, id) ==> !listing[i].changed) ==>
              List(s, listing)[id] == view
  {
    if listing != [] {
      var n := |listing| - 1;
      var before := listing[..n];
      ListIs(s, before, id);
      forall i: nat ensures IsAt(before, i, id) <==> IsAt(listing, i, id) && i < n {
        assert i < n ==> before[i] == listing[i];
      }
      if id == listing[n].id {
        assert IsAt(listing, n, id);
      }
    }
  }

  /** A hot view that is not hidden is laid out again by the one entry of its window that has changed. */
  lemma {:induction false} ListRelays(s: Views, listing: seq<Listed>, i: nat)
    requires i < |listing| && forall j: nat :: IsAt(listing, j, listing[i].id) ==> j == i
    ensures var w, view := listing[i], ViewBefore(s, listing[i].id);
            w.id in List(s, listing)
            && (view.panes > 0 && !view.hidden && w.changed ==> List(s, listing)[w.id] == WindowView(w.panes, false))
  {
    var n := |listing| - 1;
    var before := listing[..n];
    var id := listing[i].id;
    if i < n {
      forall j: nat | IsAt(before, j, id) ensures j == i {
        assert IsAt(listing, j, id);
      }
      ListRelays(s, before, i);
      assert listing[n].id == id ==> IsAt(listing, n, id);
    } else {
      ListIs(s, before, id);
      if k: nat :| IsAt(before, k, id) {
        assert IsAt(listing, k, id);
      }
    }
  }

  /**
  What an update leaves of one window. A listed window has exactly the view it had, or a new one,
  unless that view is hot, not hidden and its layout changed. A window that is not listed stays, as one of
  another session and as it is, exactly if its view is hot and the server still has it. The order keeps
  the windows that still have a view.
  */
  lemma {:induction false} UpdateIsExact(s: Views, listing: seq<Listed>, alive: set<WindowID>, id: WindowID)
    ensures var t, view, listed := Updated(s, listing, alive), ViewBefore(s, id), exists i: nat :: IsAt(listing, i, id);
            && (id in t.windows <==> listed)
            && (listed && (view.panes == 0 || view.hidden || forall i: nat :: IsAt(listing, i, id) ==> !listing[i].changed) ==>
                  t.windows[id] == view)
            && (id in t.others <==> !listed && (id in s.windows || id in s.others) && view.panes > 0 && id in alive)
            && (id in t.others ==> t.others[id] == view)
            && (id in t.recent <==> id in s.recent && (id in t.windows || id in t.others))
            && SameOrder(t.recent, s.recent)
  {
    var t := Updated(s, listing, alive);
    ListIs(s, listing, id);
    FilterIs(s.recent, t.windows.Keys + t.others.Keys);
    FilterKeepsOrder(s.recent, t.windows.Keys + t.others.Keys);
  }

  lemma {:induction false} ListKeeps(s: Views, listing: seq<Listed>, id: WindowID)
    requires id in List(s, listing)
    ensures var view := List(s, listing)[id];
            view.hidden == Source(s, id).hidden && (view.panes > 0 ==> Source(s, id).panes > 0)
  {
    var rest, w := listing[..|listing| - 1], listing[|listing| - 1];
    if id in List(s, rest) {
      ListKeeps(s, rest, id);
    }
  }

  /** A view that is hot or unhidden after an update was so before it. */
  lemma {:induction false} UpdateAdds(s: Views, listing: seq<Listed>, alive: set<WindowID>, id: WindowID)
    requires Apart(s)
    ensures var t := Updated(s, listing, alive);
            && (t.Panes(id) > 0 ==> s.Panes(id) > 0)
            && (t.Unhidden(id) ==> s.Unhidden(id))
  {
    if id in List(s, listing) {
      ListKeeps(s, listing, id);
    }
  }

  lemma {:induction false} UpdateKeepsOrder(s: Views, listing: seq<Listed>, alive: set<WindowID>)
    requires Inv(s)
    ensures var t := Updated(s, listing, alive); Apart(t) && Distinct(t.recent) && Known(t) && OthersAreHot(t)
  {
    FilterIs(s.recent, List(s, listing).Keys + Kept(s, List(s, listing), alive).Keys);
  }

  lemma {:induction false} UpdateKeepsHot(s: Views, listing: seq<Listed>, alive: set<WindowID>)
    requires Inv(s)
    ensures var t := Updated(s, listing, alive); HotIsRecent(t) && UnhiddenIsFirst(t) && OneUnhidden(t)
  {
    var t := Updated(s, listing, alive);
    FilterIs(s.recent, t.windows.Keys + t.others.Keys);
    forall id: WindowID ensures (t.Panes(id) > 0 ==> s.Panes(id) > 0) && (t.Unhidden(id) ==> s.Unhidden(id)) {
      UpdateAdds(s, listing, alive, id);
    }
  }

  // ----- showing -----

  /**
  What showing a window leaves: no other view is unhidden, every view keeps its surfaces but the one that
  is newly shown, and that one is first in the order, the others behind it as they were.
  */
  lemma {:induction false} ShowIsExact(s: Views, window: Option<WindowID>, panes: nat, id: WindowID)
    requires Distinct(s.recent)
    ensures var t := Shown(s, window, panes);
            var newly := window.Some? && window.value in s.windows && s.windows[window.value].hidden;
            && t.windows.Keys == s.windows.Keys && t.others.Keys == s.others.Keys
            && (id in t.windows ==> t.windows[id].hidden == (window != Some(id)))
            && (id in t.windows ==> t.windows[id].panes == if newly && window == Some(id) then panes else s.windows[id].panes)
            && (id in t.others ==> t.others[id] == s.others[id].(hidden := true))
            && (if !newly then t.recent == s.recent
                else
                  && t.recent != [] && t.recent[0] == window.value
                  && (id in t.recent[1..] <==> id in s.recent && id != window.value)
                  && Distinct(t.recent) && SameOrder(t.recent[1..], s.recent))
  {
    if window.Some? && window.value in s.windows && s.windows[window.value].hidden {
      var keep := (set x | x in s.recent) - {window.value};
      FilterIs(s.recent, keep);
      FilterKeepsOrder(s.recent, keep);
      assert Shown(s, window, panes).recent[1..] == Filter(s.recent, keep);
    }
  }

  lemma {:induction false} ShowKeepsInv(s: Views, window: Option<WindowID>, panes: nat)
    requires Inv(s)
    ensures Inv(Shown(s, window, panes))
  {
    if window.Some? && window.value in s.windows && !s.Shows(window.value) {
      FilterIs(s.recent, (set x | x in s.recent) - {window.value});
    }
  }

  // ----- evictions -----

  /** What the eviction loop may do: take all surfaces of a view, and forget a view of another session. */
  ghost predicate Shrunk(s: Views, t: Views) {
    && t.recent == s.recent && t.windows.Keys == s.windows.Keys && t.others.Keys <= s.others.Keys
    && (forall id :: id in s.windows ==> t.windows[id] == s.windows[id] || t.windows[id] == s.windows[id].(panes := 0))
    && (forall id :: id in t.others ==> t.others[id] == s.others[id])
    && (forall id :: s.Shows(id) ==> t.windows[id] == s.windows[id])
  }

  lemma {:induction false} EvictShrinks(s: Views, ids: seq<WindowID>, hot: nat)
    ensures Shrunk(s, EvictFrom(s, ids, hot))
    decreases |ids|
  {
    if ids != [] && HotSurfaces(s) > BUDGET {
      var id, rest := ids[0], ids[1..];
      if s.Panes(id) == 0 {
        EvictShrinks(s, rest, hot);
      } else if hot + s.Panes(id) > BUDGET && !s.Shows(id) {
        EvictShrinks(Drop(s, id), rest, hot);
      } else {
        EvictShrinks(s, rest, hot + s.Panes(id));
      }
    }
  }

  /** A view that is hot or unhidden after an eviction was so before it. */
  lemma {:induction false} EvictAdds(s: Views, id: WindowID)
    requires Apart(s)
    ensures (Evicted(s).Panes(id) > 0 ==> s.Panes(id) > 0) && (Evicted(s).Unhidden(id) ==> s.Unhidden(id))
    ensures Apart(Evicted(s))
  {
    EvictShrinks(s, s.recent, 0);
  }

  lemma {:induction false} EvictKeepsOrder(s: Views)
    requires Inv(s)
    ensures var t := Evicted(s); Distinct(t.recent) && Known(t) && OthersAreHot(t) && HotIsRecent(t)
  {
    var t := EvictFrom(s, s.recent, 0);
    EvictShrinks(s, s.recent, 0);
    FilterIs(s.recent, HotKeys(t.windows) + t.others.Keys);
  }

  lemma {:induction false} EvictKeepsInv(s: Views)
    requires Inv(s)
    ensures Inv(Evicted(s))
  {
    var t := Evicted(s);
    EvictKeepsOrder(s);
    forall id: WindowID
      ensures Apart(t) && (t.Panes(id) > 0 ==> s.Panes(id) > 0) && (t.Unhidden(id) ==> s.Unhidden(id))
    {
      EvictAdds(s, id);
    }
    var after := EvictFrom(s, s.recent, 0);
    EvictShrinks(s, s.recent, 0);
    FilterIs(s.recent, HotKeys(after.windows) + after.others.Keys);
    forall id: WindowID | t.Unhidden(id) && t.Panes(id) > 0 ensures t.recent != [] && t.recent[0] == id {
      assert s.Unhidden(id) && s.Panes(id) > 0;
      assert id in HotKeys(after.windows) + after.others.Keys;
    }
  }

  /** An eviction leaves the shown window as it is, and first in the order. */
  lemma {:induction false} EvictSparesShown(s: Views, id: WindowID)
    requires Inv(s) && s.Shows(id)
    ensures Evicted(s).Shows(id) && Evicted(s).windows[id] == s.windows[id]
    ensures s.Panes(id) > 0 ==> Evicted(s).recent != [] && Evicted(s).recent[0] == id
  {
    var t := EvictFrom(s, s.recent, 0);
    EvictShrinks(s, s.recent, 0);
    FilterIs(s.recent, HotKeys(t.windows) + t.others.Keys);
  }

  // ----- counting along the order -----

  function Sum(s: Views, ids: seq<WindowID>): nat {
    if ids == [] then 0 else s.Panes(ids[0]) + Sum(s, ids[1..])
  }

  lemma {:induction false} SumIs(s: Views, t: Views, ids: seq<WindowID>)
    requires forall id :: id in ids ==> s.Panes(id) == t.Panes(id)
    ensures Sum(s, ids) == Sum(t, ids)
  {
    if ids != [] {
      SumIs(s, t, ids[1..]);
    }
  }

  lemma {:induction false} AllCold(views: map<WindowID, WindowView>)
    requires forall id :: id in views ==> views[id].panes == 0
    ensures Total(views) == 0
    decreases |views|
  {
    if views != map[] {
      var id :| id in views && Total(views) == views[id].panes + Total(views - {id});
      assert views.Keys == (views - {id}).Keys + {id};
      AllCold(views - {id});
    }
  }

  function Without(s: Views, id: WindowID): Views {
    s.(windows := s.windows - {id}, others := s.others - {id})
  }

  lemma {:induction false} HotWithout(s: Views, id: WindowID)
    requires Apart(s)
    ensures HotSurfaces(s) == s.Panes(id) + HotSurfaces(Without(s, id)) && Apart(Without(s, id))
  {
    if id in s.windows {
      TotalWithout(s.windows, id);
      assert s.others - {id} == s.others;
    } else {
      assert s.windows - {id} == s.windows;
      if id in s.others {
        TotalWithout(s.others, id);
      } else {
        assert s.others - {id} == s.others;
      }
    }
  }

  /** If every hot window is in the order, the surfaces can be counted along it. */
  lemma {:induction false} HotIsSum(s: Views, ids: seq<WindowID>)
    requires Apart(s) && Distinct(ids) && forall id: WindowID :: s.Panes(id) > 0 ==> id in ids
    ensures HotSurfaces(s) == Sum(s, ids)
    decreases |ids|
  {
    if ids == [] {
      assert forall id :: id in s.windows ==> s.Panes(id) == s.windows[id].panes;
      assert forall id :: id in s.others ==> s.Panes(id) == s.others[id].panes;
      AllCold(s.windows);
      AllCold(s.others);
    } else {
      var t := Without(s, ids[0]);
      HotWithout(s, ids[0]);
      assert ids == [ids[0]] + ids[1..];
      HotIsSum(t, ids[1..]);
      SumIs(s, t, ids[1..]);
    }
  }

  lemma {:induction false} DropFrees(s: Views, id: WindowID)
    requires Apart(s) && s.Holds(id)
    ensures var t := Drop(s, id);
            && Apart(t) && t.Panes(id) == 0 && HotSurfaces(t) == HotSurfaces(s) - s.Panes(id)
            && (forall x: WindowID :: x != id ==> t.Panes(x) == s.Panes(x) && t.Shows(x) == s.Shows(x))
  {
    var t := Drop(s, id);
    HotWithout(s, id);
    HotWithout(t, id);
    assert Without(t, id).windows == Without(s, id).windows && Without(t, id).others == Without(s, id).others;
  }

  // ----- what an eviction leaves -----

  /** The loop's accounts: `hot` surfaces kept before this position, and the rest still to come. */
  ghost predicate Counted(s: Views, ids: seq<WindowID>, hot: nat) {
    Apart(s) && Distinct(ids) && HotSurfaces(s) == hot + Sum(s, ids)
  }

  lemma {:induction false} DropCounted(s: Views, ids: seq<WindowID>, hot: nat)
    requires ids != [] && Counted(s, ids, hot) && s.Panes(ids[0]) > 0
    ensures Counted(Drop(s, ids[0]), ids[1..], hot)
  {
    DropFrees(s, ids[0]);
    assert ids == [ids[0]] + ids[1..];
    SumIs(s, Drop(s, ids[0]), ids[1..]);
  }

  lemma {:induction false} LoopKeepsBudget(s: Views, ids: seq<WindowID>, hot: nat, limit: nat)
    requires Counted(s, ids, hot) && hot <= limit && BUDGET <= limit
    requires forall id :: id in ids && s.Panes(id) > 0 ==> !s.Shows(id)
    ensures HotSurfaces(EvictFrom(s, ids, hot)) <= limit
    decreases |ids|
  {
    if ids != [] && HotSurfaces(s) > BUDGET {
      var id, rest := ids[0], ids[1..];
      assert ids == [id] + rest;
      if s.Panes(id) == 0 {
        LoopKeepsBudget(s, rest, hot, limit);
      } else if hot + s.Panes(id) > BUDGET {
        DropCounted(s, ids, hot);
        DropFrees(s, id);
        LoopKeepsBudget(Drop(s, id), rest, hot, limit);
      } else {
        LoopKeepsBudget(s, rest, hot + s.Panes(id), limit);
      }
    }
  }

  /** The loop over the whole order: the first window may be the shown one, and no other hot one is. */
  lemma {:induction false} LoopBound(s: Views, limit: nat)
    requires Inv(s) && BUDGET <= limit && forall id: WindowID :: s.Shows(id) ==> s.Panes(id) <= limit
    ensures HotSurfaces(EvictFrom(s, s.recent, 0)) <= limit
  {
    var ids := s.recent;
    HotIsSum(s, ids);
    if ids != [] && s.Shows(ids[0]) && s.Panes(ids[0]) > 0 {
      assert ids == [ids[0]] + ids[1..];
      LoopKeepsBudget(s, ids[1..], s.Panes(ids[0]), limit);
    } else {
      LoopKeepsBudget(s, ids, 0, limit);
    }
  }

  /** After an eviction no more than 32 surfaces are hot, or as many as the shown window has, if those are more. */
  lemma {:induction false} EvictLeavesBudget(s: Views, limit: nat)
    requires Inv(s) && BUDGET <= limit && forall id: WindowID :: s.Shows(id) ==> s.Panes(id) <= limit
    ensures HotSurfaces(Evicted(s)) <= limit
  {
    LoopBound(s, limit);
  }

  /** What the loop has passed it leaves alone. */
  lemma {:induction false} LoopLeaves(s: Views, ids: seq<WindowID>, hot: nat, id: WindowID)
    requires Apart(s) && id !in ids
    ensures EvictFrom(s, ids, hot).Panes(id) == s.Panes(id)
    decreases |ids|
  {
    if ids != [] && HotSurfaces(s) > BUDGET {
      var first, rest := ids[0], ids[1..];
      if s.Panes(first) == 0 {
        LoopLeaves(s, rest, hot, id);
      } else if hot + s.Panes(first) > BUDGET && !s.Shows(first) {
        DropFrees(s, first);
        LoopLeaves(Drop(s, first), rest, hot, id);
      } else {
        LoopLeaves(s, rest, hot + s.Panes(first), id);
      }
    }
  }

  /**
  The most recent windows that fit the budget together keep their surfaces: the window at position
  `k` and all before it do, if the surfaces up to it are no more than 32.
  */
  lemma {:induction false} RecentSurvive(s: Views, ids: seq<WindowID>, hot: nat, k: nat)
    requires Apart(s) && Distinct(ids) && k < |ids| && hot + Sum(s, ids[..k + 1]) <= BUDGET
    ensures EvictFrom(s, ids, hot).Panes(ids[k]) == s.Panes(ids[k])
    decreases |ids|
  {
    if HotSurfaces(s) > BUDGET {
      var id, rest := ids[0], ids[1..];
      assert ids[..k + 1][1..] == ids[1..][..k];
      assert ids == [id] + rest;
      if k == 0 {
        assert id !in rest;
        LoopLeaves(s, rest, if s.Panes(id) == 0 then hot else hot + s.Panes(id), id);
      } else {
        RecentSurvive(s, rest, if s.Panes(id) == 0 then hot else hot + s.Panes(id), k - 1);
      }
    }
  }

  /** How many surfaces of the first windows an eviction has taken. */
  function Lost(s: Views, t: Views, ids: seq<WindowID>): int {
    Sum(s, ids) - Sum(t, ids)
  }

  lemma {:induction false} SumOfFirst(s: Views, ids: seq<WindowID>, k: nat)
    requires 0 < k <= |ids|
    ensures Sum(s, ids[..k]) == s.Panes(ids[0]) + Sum(s, ids[1..][..k - 1])
  {
    assert ids[..k][1..] == ids[1..][..k - 1] && ids[..k][0] == ids[0];
  }

  /** The loop has come to a hot window that it must take: too much is hot, this window goes over the budget, and is not shown. */
  predicate MustGo(s: Views, id: WindowID, kept: int, hot: int) {
    s.Panes(id) > 0 && !s.Shows(id) && kept + s.Panes(id) > 32 && hot > 32
  }

  /**
  A window loses its surfaces exactly if it is hot and not shown, those kept of the windows shown after it
  and its own are more than 32, and more than 32 are hot without those that windows shown after it have lost.
  */
  lemma {:induction false} LostExactly(s: Views, ids: seq<WindowID>, hot: nat, k: nat)
    requires Apart(s) && Distinct(ids) && k < |ids|
    ensures var t, id := EvictFrom(s, ids, hot), ids[k];
            t.Panes(id) == if MustGo(s, id, hot + Sum(t, ids[..k]), HotSurfaces(s) - Lost(s, t, ids[..k])) then 0 else s.Panes(id)
    decreases |ids|, 1
  {
    if HotSurfaces(s) > BUDGET {
      var id, rest := ids[0], ids[1..];
      assert ids == [id] + rest && id !in rest;
      if s.Panes(id) > 0 && hot + s.Panes(id) > BUDGET && !s.Shows(id) {
        DropFrees(s, id);
        LostLater(s, Drop(s, id), ids, hot, k);
      } else {
        LostLater(s, s, ids, hot + s.Panes(id), k);
      }
    }
  }

  /** The first window of the order has been dealt with, and `next` is what is left. */
  lemma {:induction false} LostLater(s: Views, next: Views, ids: seq<WindowID>, hot: nat, k: nat)
    requires Apart(next) && Distinct(ids) && k < |ids|
    requires forall x: WindowID :: x != ids[0] ==> next.Panes(x) == s.Panes(x) && next.Shows(x) == s.Shows(x)
    ensures var t, id := EvictFrom(next, ids[1..], hot), ids[k];
            && t.Panes(ids[0]) == next.Panes(ids[0])
            && (k > 0 ==>
                  var kept := Sum(t, ids[..k]) - next.Panes(ids[0]);
                  var left := HotSurfaces(next) - (Sum(s, ids[..k]) - s.Panes(ids[0]) - kept);
                  t.Panes(id) == if MustGo(s, id, hot + kept, left) then 0 else s.Panes(id))
    decreases |ids|, 0
  {
    var rest := ids[1..];
    assert ids == [ids[0]] + rest && ids[0] !in rest;
    LoopLeaves(next, rest, hot, ids[0]);
    if k > 0 {
      var t := EvictFrom(next, rest, hot);
      LostExactly(next, rest, hot, k - 1);
      SumOfFirst(s, ids, k);
      SumOfFirst(t, ids, k);
      SumIs(s, next, rest[..k - 1]);
    }
  }

  /** An eviction takes the surfaces of such windows, and the order keeps those that are hot or of other sessions. */
  lemma {:induction false} EvictIsExact(s: Views, k: nat)
    requires Inv(s) && k < |s.recent|
    ensures var t, id := Evicted(s), s.recent[k];
            && t.Panes(id) == (if MustGo(s, id, Sum(t, s.recent[..k]), HotSurfaces(s) - Lost(s, t, s.recent[..k])) then 0
                               else s.Panes(id))
            && (id in t.recent <==> t.Panes(id) > 0)
            && SameOrder(t.recent, s.recent)
  {
    var after := EvictFrom(s, s.recent, 0);
    LostExactly(s, s.recent, 0, k);
    EvictShrinks(s, s.recent, 0);
    var keep := HotKeys(after.windows) + after.others.Keys;
    FilterIs(s.recent, keep);
    FilterKeepsOrder(s.recent, keep);
    SumIs(after, Evicted(s), s.recent[..k]);
  }

  // ----- runs -----

  datatype Op =
    | Update(listing: seq<Listed>, alive: set<WindowID>)
    | Show(window: Option<WindowID>, panes: nat)
    | Evict
    | Close

  ghost function Step(s: Views, op: Op): Views {
    match op
    case Update(listing, alive) => Updated(s, listing, alive)
    case Show(window, panes) => Shown(s, window, panes)
    case Evict => Evicted(s)
    case Close => Views(map[], map[], [])
  }

  ghost function Run(ops: seq<Op>): Views {
    if ops == [] then Views(map[], map[], []) else Step(Run(ops[..|ops| - 1]), ops[|ops| - 1])
  }

  /** After any updates, shows, evictions and closes every hot window is in the order, and the shown one is first in it. */
  lemma {:induction false} RunsKeepInv(ops: seq<Op>)
    ensures Inv(Run(ops))
  {
    if ops != [] {
      var s := Run(ops[..|ops| - 1]);
      RunsKeepInv(ops[..|ops| - 1]);
      match ops[|ops| - 1]
      case Update(listing, alive) =>
        UpdateKeepsOrder(s, listing, alive);
        UpdateKeepsHot(s, listing, alive);
      case Show(window, panes) => ShowKeepsInv(s, window, panes);
      case Evict => EvictKeepsInv(s);
      case Close =>
    }
  }

  /** In every run, an eviction leaves at most 32 hot surfaces or those of the shown window, whose own it spares. */
  lemma {:induction false} EveryEvictionBounds(ops: seq<Op>, limit: nat)
    requires BUDGET <= limit && forall id: WindowID :: Run(ops).Shows(id) ==> Run(ops).Panes(id) <= limit
    ensures HotSurfaces(Run(ops + [Evict])) <= limit
    ensures forall id: WindowID :: Run(ops).Shows(id) ==> Run(ops + [Evict]).Panes(id) == Run(ops).Panes(id)
  {
    RunsKeepInv(ops);
    assert (ops + [Evict])[..|ops|] == ops;
    EvictLeavesBudget(Run(ops), limit);
    forall id: WindowID | Run(ops).Shows(id) ensures Evicted(Run(ops)).Panes(id) == Run(ops).Panes(id) {
      EvictSparesShown(Run(ops), id);
    }
  }
}
