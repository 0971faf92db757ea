/**
The window views of a client (app/App/SessionView.swift): those of its session, hot ones of other
sessions, and the order in which they were last shown. A view is hot while it holds pane surfaces.
*/
module SessionViews {
  import opened Wrappers

  type WindowID = nat

  const BUDGET: nat := 32

  datatype WindowView = WindowView(panes: nat, hidden: bool)

  /**
  One window of a listing: whether its layout changed, and the number of panes that its view has
  after it has been laid out again.
  */
  datatype Listed = Listed(id: WindowID, changed: bool, panes: nat)

  datatype Views = Views(windows: map<WindowID, WindowView>, others: map<WindowID, WindowView>, recent: seq<WindowID>) {
    function Panes(id: WindowID): nat {
      if id in windows then windows[id].panes else if id in others then others[id].panes else 0
    }

    predicate Shows(id: WindowID) {
      id in windows && !windows[id].hidden
    }

    predicate Unhidden(id: WindowID) {
      Shows(id) || (id in others && !others[id].hidden)
    }

    predicate Holds(id: WindowID) {
      id in windows || id in others
    }
  }

  // ----- the operations -----

  /** A view is laid out again only while it is hot and not hidden. */
  function Relaid(view: WindowView, w: Listed): WindowView {
    if view.panes > 0 && w.changed && !view.hidden then view.(panes := w.panes) else view
  }

  /** The view a listed window had, or a new one. */
  function Source(s: Views, id: WindowID): WindowView {
    if id in s.others then s.others[id] else if id in s.windows then s.windows[id] else WindowView(0, true)
  }

  function List(s: Views, listing: seq<Listed>): map<WindowID, WindowView> {
    if listing == [] then map[]
    else
      var before, w := List(s, listing[..|listing| - 1]), listing[|listing| - 1];
      before[w.id := Relaid(if w.id in before && s.Holds(w.id) then before[w.id] else Source(s, w.id), w)]
  }

  function Filter(ids: seq<WindowID>, keep: set<WindowID>): seq<WindowID> {
    if ids == [] then []
    else (if ids[0] in keep then [ids[0]] else []) + Filter(ids[1..], keep)
  }

  function Kept(s: Views, windows: map<WindowID, WindowView>, alive: set<WindowID>): map<WindowID, WindowView> {
    map id | id in s.windows.Keys + s.others.Keys && id !in windows && Source(s, id).panes > 0 && id in alive :: Source(s, id)
  }

  function Updated(s: Views, listing: seq<Listed>, alive: set<WindowID>): Views {
    var windows := List(s, listing);
    var others := Kept(s, windows, alive);
    Views(windows, others, Filter(s.recent, windows.Keys + others.Keys))
  }

  function HideBut(views: map<WindowID, WindowView>, window: Option<WindowID>): map<WindowID, WindowView> {
    map id | id in views :: views[id].(hidden := window != Some(id))
  }

  function Shown(s: Views, window: Option<WindowID>, panes: nat): Views {
    var windows, others := HideBut(s.windows, window), HideBut(s.others, None);
    if window.None? || window.value !in windows || s.Shows(window.value) then s.(windows := windows, others := others)
    else
      var id := window.value;
      Views(windows[id := WindowView(panes, false)], others, [id] + Filter(s.recent, (set x | x in s.recent) - {id}))
  }

  ghost function Total(views: map<WindowID, WindowView>): nat {
    if views == map[] then 0 else var id :| id in views; views[id].panes + Total(views - {id})
  }

  ghost function HotSurfaces(s: Views): nat {
    Total(s.windows) + Total(s.others)
  }

  function Drop(s: Views, id: WindowID): Views
    requires s.Holds(id)
  {
    if id in s.others then s.(others := s.others - {id})
    else s.(windows := s.windows[id := s.windows[id].(panes := 0)])
  }

  /** The eviction loop from one position in the order, `hot` surfaces having been kept before it. */
  ghost function EvictFrom(s: Views, ids: seq<WindowID>, hot: nat): Views
    decreases |ids|
  {
    if ids == [] || HotSurfaces(s) <= BUDGET then s
    else
      var id, rest := ids[0], ids[1..];
      if s.Panes(id) == 0 then EvictFrom(s, rest, hot)
      else if hot + s.Panes(id) > BUDGET && !s.Shows(id) then EvictFrom(Drop(s, id), rest, hot)
      else EvictFrom(s, rest, hot + s.Panes(id))
  }

  function HotKeys(views: map<WindowID, WindowView>): set<WindowID> {
    set id | id in views && views[id].panes > 0
  }

  ghost function Evicted(s: Views): Views {
    var after := EvictFrom(s, s.recent, 0);
    after.(recent := Filter(after.recent, HotKeys(after.windows) + after.others.Keys))
  }

  // ----- the class -----

  class SessionView {
    var windows: map<WindowID, WindowView>
    var others: map<WindowID, WindowView>
    var recent: seq<WindowID>

    constructor ()
      ensures View() == Views(map[], map[], [])
    {
      windows, others, recent := map[], map[], [];
    }

    function View(): Views
      reads this
    {
      Views(windows, others, recent)
    }

    /** The listed windows with the views they had, or new ones. */
    method Relist(listing: seq<Listed>)
      modifies `windows
      ensures windows == List(old(View()), listing)
    {
      ghost var before := View();
      var previous := windows + others;
      windows := map[];
      for i := 0 to |listing|
        invariant windows == List(before, listing[..i])
      {
        var w := listing[i];
        var view := if w.id in previous then if w.id in windows then windows[w.id] else previous[w.id] else WindowView(0, true);
        assert w.id in previous <==> before.Holds(w.id);
        assert listing[..i + 1][..i] == listing[..i];
        windows := windows[w.id := Relaid(view, w)];
      }
      assert listing[..|listing|] == listing;
    }

    method Update(listing: seq<Listed>, alive: set<WindowID>)
      modifies this
      ensures View() == Updated(old(View()), listing, alive)
    {
      var previous := windows + others;
      Relist(listing);
      others := map id | id in previous && id !in windows && previous[id].panes > 0 && id in alive :: previous[id];
      assert others == Kept(old(View()), windows, alive);
      recent := Filter(recent, windows.Keys + others.Keys);
    }

    method Show(window: Option<WindowID>, panes: nat)
      modifies this
      ensures View() == Shown(old(View()), window, panes)
    {
      var already := window.Some? && window.value in windows && !windows[window.value].hidden;
      windows, others := HideBut(windows, window), HideBut(others, None);
      if window.None? || window.value !in windows || already {
        return;
      }
      recent := Filter(recent, (set x | x in recent) - {window.value});
      recent := [window.value] + recent;
      windows := windows[window.value := WindowView(panes, false)];
    }

    method Close()
      modifies this
      ensures View() == Views(map[], map[], [])
    {
      windows, others, recent := map[], map[], [];
    }

    method Count(views: map<WindowID, WindowView>) returns (n: nat)
      ensures n == Total(views)
    {
      n := 0;
      var left := views;
      while left != map[]
        invariant n + Total(left) == Total(views)
        decreases |left|
      {
        var id :| id in left;
        TotalWithout(left, id);
        assert left.Keys == (left - {id}).Keys + {id};
        n := n + left[id].panes;
        left := left - {id};
      }
    }

    method Evict()
      modifies this
      ensures View() == Evicted(old(View()))
    {
      ghost var before := View();
      var ids, hot, i := recent, 0, 0;
      while i < |ids|
        invariant i <= |ids| && recent == ids && hot >= 0
        invariant EvictFrom(View(), ids[i..], hot) == EvictFrom(before, ids, 0)
      {
        var here := Count(windows);
        var there := Count(others);
        if here + there <= BUDGET {
          break;
        }
        var id := ids[i];
        i := i + 1;
        var n := View().Panes(id);
        if n == 0 {
          continue;
        }
        hot := hot + n;
        if hot > BUDGET && !View().Shows(id) {
          hot := hot - n;
          if id in others {
            others := others - {id};
          } else {
            windows := windows[id := windows[id].(panes := 0)];
          }
        }
      }
      assert View() == EvictFrom(before, ids, 0);
      recent := Filter(recent, HotKeys(windows) + others.Keys);
    }
  }

  // ----- counting -----

  lemma {:induction false} TotalWithout(views: map<WindowID, WindowView>, id: WindowID)
    requires id in views
    ensures Total(views) == views[id].panes + Total(views - {id})
    decreases |views|
  {
    var x :| x in views && Total(views) == views[x].panes + Total(views - {x});
    if x != id {
      assert views.Keys == (views - {x}).Keys + {x};
      assert views.Keys == (views - {id}).Keys + {id};
      TotalWithout(views - {x}, id);
      TotalWithout(views - {id}, x);
      assert views - {x} - {id} == views - {id} - {x};
    }
  }
}
