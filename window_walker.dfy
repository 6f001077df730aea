/**
 * The window hierarchy walker (getTopIFrameWin): from a window, climb `parent`
 * links until the window whose parent is the page's top window, and give back
 * that window. A null start, a null `parent` on the way, or a `parent` that
 * cannot be read (a cross-origin access that throws) all give null, never a
 * partial result.
 */
module WindowWalker {
  import opened Base

  /** A window, by identity. */
  type WinId = nat

  /**
   * The window graph as the walker sees it.
   *   parent:      the `parent` link of each window that has one; a window
   *                without an entry has a null/undefined `parent`.
   *   crossOrigin: windows whose `parent` property throws when read.
   *   level:       each window's nesting depth. It stands for nothing the
   *                program reads: it exists only so that the climb provably
   *                ends, a parent link always going to a shallower window
   *                (see Valid).
   */
  datatype WindowGraph = WindowGraph(
    parent: map<WinId, WinId>,
    crossOrigin: set<WinId>,
    level: map<WinId, nat>)
  {
    /** Every parent link leads one or more levels up. */
    predicate Valid() {
      forall w :: w in parent ==> w in level && parent[w] in level && level[parent[w]] < level[w]
    }

    /** Reading `w.parent` neither throws nor gives null. */
    predicate HasParent(w: WinId) {
      w !in crossOrigin && w in parent
    }

    /** The walk does not stop at `w`: it has a readable parent, and that parent
        is not `top`. */
    predicate Climbs(w: WinId, top: WinId) {
      HasParent(w) && parent[w] != top
    }
  }

  /** How far the walk from `start` can still go. */
  function Height(g: WindowGraph, start: Option<WinId>): nat {
    if start.Some? && start.value in g.level then g.level[start.value] + 1 else 0
  }

  /**
   * The result of getTopIFrameWin(start, top), as a function.
   * The returned window is one whose parent is `top` and whose `parent` could
   * be read; the walk is all or nothing.
   */
  function TopIFrameWin(g: WindowGraph, start: Option<WinId>, top: WinId): (r: Option<WinId>)
    requires g.Valid()
    ensures start.None? ==> r.None?
    ensures r.Some? ==> g.HasParent(r.value) && g.parent[r.value] == top
    decreases Height(g, start)
  {
    match start
    case None => None
    case Some(w) =>
      if !g.HasParent(w) then None
      else if g.parent[w] == top then Some(w)
      else TopIFrameWin(g, Some(g.parent[w]), top)
  }

  /** The window `n` parent links above `w`, if every link on the way exists. */
  function Ancestor(g: WindowGraph, w: WinId, n: nat): Option<WinId>
    decreases n
  {
    if n == 0 then Some(w)
    else if w in g.parent then Ancestor(g, g.parent[w], n - 1)
    else None
  }

  /**
   * Walking past `n` windows that all climb is the same as starting at the
   * n-th ancestor: the walk looks at nothing but the chain.
   */
  lemma {:induction false} WalkSkipsClimbingPrefix(g: WindowGraph, w: WinId, top: WinId, n: nat)
    requires g.Valid()
    requires forall i :: 0 <= i < n ==> Ancestor(g, w, i).Some? && g.Climbs(Ancestor(g, w, i).value, top)
    ensures TopIFrameWin(g, Some(w), top) == TopIFrameWin(g, Ancestor(g, w, n), top)
    decreases n
  {
    if n > 0 {
      assert Ancestor(g, w, 0) == Some(w);
      var p := g.parent[w];
      forall i | 0 <= i < n - 1
        ensures Ancestor(g, p, i).Some? && g.Climbs(Ancestor(g, p, i).value, top)
      {
        assert Ancestor(g, w, i + 1) == Ancestor(g, p, i);
      }
      WalkSkipsClimbingPrefix(g, p, top, n - 1);
      assert Ancestor(g, w, n) == Ancestor(g, p, n - 1);
    }
  }

  /**
   * A broken chain gives null: if the walk climbs through the first `n`
   * ancestors and the n-th ancestor's `parent` is null or unreadable, the
   * result is null, not the last window reached.
   */
  lemma BrokenChainGivesNull(g: WindowGraph, w: WinId, top: WinId, n: nat)
    requires g.Valid()
    requires forall i :: 0 <= i < n ==> Ancestor(g, w, i).Some? && g.Climbs(Ancestor(g, w, i).value, top)
    requires Ancestor(g, w, n).Some? && !g.HasParent(Ancestor(g, w, n).value)
    ensures TopIFrameWin(g, Some(w), top) == None
  {
    WalkSkipsClimbingPrefix(g, w, top, n);
  }

  /**
   * An intact chain gives the window just below top: if the walk climbs
   * through the first `n` ancestors and the n-th ancestor's parent is `top`,
   * that ancestor is the result.
   */
  lemma IntactChainGivesTopIFrame(g: WindowGraph, w: WinId, top: WinId, n: nat)
    requires g.Valid()
    requires forall i :: 0 <= i < n ==> Ancestor(g, w, i).Some? && g.Climbs(Ancestor(g, w, i).value, top)
    requires Ancestor(g, w, n).Some? && g.HasParent(Ancestor(g, w, n).value)
    requires g.parent[Ancestor(g, w, n).value] == top
    ensures TopIFrameWin(g, Some(w), top) == Ancestor(g, w, n)
  {
    WalkSkipsClimbingPrefix(g, w, top, n);
  }

  /** The result is on the start window's own parent chain. */
  lemma {:induction false} ResultIsAncestor(g: WindowGraph, w: WinId, top: WinId)
    requires g.Valid()
    requires TopIFrameWin(g, Some(w), top).Some?
    ensures exists n: nat :: Ancestor(g, w, n) == TopIFrameWin(g, Some(w), top)
    decreases Height(g, Some(w))
  {
    var p := g.parent[w];
    if p == top {
      assert Ancestor(g, w, 0) == TopIFrameWin(g, Some(w), top);
    } else {
      ResultIsAncestor(g, p, top);
      var n: nat :| Ancestor(g, p, n) == TopIFrameWin(g, Some(p), top);
      assert Ancestor(g, w, n + 1) == Ancestor(g, p, n);
    }
  }

  /**
   * getTopIFrameWin as the loop the source runs: while the current window's
   * parent is not `top`, step to the parent; a null or unreadable `parent`
   * ends the walk with null.
   */
  method GetTopIFrameWin(g: WindowGraph, win: Option<WinId>, top: WinId) returns (r: Option<WinId>)
    requires g.Valid()
    ensures r == TopIFrameWin(g, win, top)
    ensures r.Some? ==> g.parent[r.value] == top
  {
    if win.None? {
      return None;
    }
    var cur := win.value;
    while g.Climbs(cur, top)
      invariant TopIFrameWin(g, Some(cur), top) == TopIFrameWin(g, win, top)
      decreases Height(g, Some(cur))
    {
      cur := g.parent[cur];
    }
    if g.HasParent(cur) {
      r := Some(cur);
    } else {
      r := None;
    }
  }
}
