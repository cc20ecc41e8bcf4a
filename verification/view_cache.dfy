/**
  The control plane's cached cluster view: two locks, a generation that every invalidation
  raises, builds shared by all who wait, and at most one rebuild in the background. The
  interleavings of any number of callers are the runs of a step system whose steps are the
  critical sections; `Engine` is the object whose methods are those sections.
*/
module ViewCache {
  import opened RaftTypes

  const MAX_AGE := 500
  const STALE_LIMIT := 2000

  /** A built view. `born` counts the invalidations that had happened when the generation was
      read, right before its build began; `made` is when it was stored; `content` is whatever
      the build returned. */
  datatype View = View(born: nat, made: nat, content: nat)

  /** What the inner lock guards. `at` is the moment the view was stored, None once it has
      been invalidated. */
  datatype Cells = Cells(have: bool, view: View, at: Option<nat>, gen: nat, refreshing: bool)

  /** Young enough at time `now`. The clock never runs backwards. */
  predicate Younger(c: Cells, now: nat, limit: nat)
  {
    c.have && c.at.Some? && now < c.at.value + limit
  }

  // ---------------------------------------------------------------------------
  // The critical sections
  // ---------------------------------------------------------------------------

  datatype Look = Serve(view: View, spawn: bool) | Wait

  /** A caller looks at the cache: serve, serve and rebuild in the background, or wait. */
  function Looked(c: Cells, now: nat): (Cells, Look)
  {
    if Younger(c, now, MAX_AGE) then (c, Serve(c.view, false))
    else if Younger(c, now, STALE_LIMIT) then (c.(refreshing := true), Serve(c.view, !c.refreshing))
    else (c, Wait)
  }

  /** Whoever gets the build lock looks again before building. */
  function Rechecked(c: Cells, now: nat): Option<View>
  {
    if Younger(c, now, MAX_AGE) then Some(c.view) else None
  }

  /** A finished build is stored, but counts as stale if the generation moved meanwhile. */
  function Stored(c: Cells, now: nat, v: View): Cells
  {
    c.(have := true, view := v, at := if c.gen == v.born then Some(now) else None)
  }

  function Invalidated(c: Cells): Cells { c.(gen := c.gen + 1, at := None) }

  // ---------------------------------------------------------------------------
  // Interleavings
  // ---------------------------------------------------------------------------

  type Tid = nat

  /** Where a caller or a background rebuild stands. `since` is the number of invalidations
      that had happened when it began, `seen` the moment it took its view, `direct` whether it
      did so without going through the build lock. */
  datatype Thread =
    | Calling(since: nat)
    | Waiting(since: nat, bg: bool)
    | Checking(since: nat, bg: bool)
    | Building(since: nat, bg: bool, gen: nat)
    | Leaving(since: nat, bg: bool, view: View, seen: nat)
    | Ending(since: nat)
    | Returned(since: nat, view: View, seen: nat, direct: bool)

  datatype System = System(cells: Cells, now: nat, lock: Option<Tid>, threads: map<Tid, Thread>)

  datatype Step =
    | Call(t: Tid)
    | CallFresh(t: Tid)
    | LookIn(t: Tid, u: Tid)
    | Acquire(t: Tid)
    | Recheck(t: Tid)
    | Store(t: Tid, content: nat)
    | Release(t: Tid)
    | Finish(t: Tid)
    | Invalidate
    | Tick(ms: nat)

  predicate Enabled(s: System, e: Step)
  {
    match e
    case Call(t) => t !in s.threads
    case CallFresh(t) => t !in s.threads
    case LookIn(t, u) => t in s.threads && s.threads[t].Calling? && u !in s.threads
    case Acquire(t) => t in s.threads && s.threads[t].Waiting? && s.lock == None
    case Recheck(t) => t in s.threads && s.threads[t].Checking?
    case Store(t, _) => t in s.threads && s.threads[t].Building?
    case Release(t) => t in s.threads && s.threads[t].Leaving?
    case Finish(t) => t in s.threads && s.threads[t].Ending?
    case Invalidate => true
    case Tick(_) => true
  }

  function Next(s: System, e: Step): System
    requires Enabled(s, e)
  {
    match e
    case Call(t) => s.(threads := s.threads[t := Calling(s.cells.gen)])
    case CallFresh(t) => s.(threads := s.threads[t := Waiting(s.cells.gen, false)])
    case LookIn(t, u) =>
      var since := s.threads[t].since;
      var (c, look) := Looked(s.cells, s.now);
      match look {
        case Serve(v, spawn) =>
          var served := s.threads[t := Returned(since, v, s.now, true)];
          s.(cells := c, threads := if spawn then served[u := Waiting(s.cells.gen, true)] else served)
        case Wait => s.(cells := c, threads := s.threads[t := Waiting(since, false)])
      }
    case Acquire(t) => s.(lock := Some(t), threads := s.threads[t := Checking(s.threads[t].since, s.threads[t].bg)])
    case Recheck(t) =>
      var (since, bg) := (s.threads[t].since, s.threads[t].bg);
      var v := Rechecked(s.cells, s.now);
      var th := if v.Some? then Leaving(since, bg, v.value, s.now) else Building(since, bg, s.cells.gen);
      s.(threads := s.threads[t := th])
    case Store(t, content) =>
      var v := View(s.threads[t].gen, s.now, content);
      var th := Leaving(s.threads[t].since, s.threads[t].bg, v, s.now);
      s.(cells := Stored(s.cells, s.now, v), threads := s.threads[t := th])
    case Release(t) =>
      var (since, bg) := (s.threads[t].since, s.threads[t].bg);
      var (view, seen) := (s.threads[t].view, s.threads[t].seen);
      s.(lock := None, threads := s.threads[t := if bg then Ending(since) else Returned(since, view, seen, false)])
    case Finish(t) => s.(cells := s.cells.(refreshing := false), threads := s.threads - {t})
    case Invalidate => s.(cells := Invalidated(s.cells))
    case Tick(ms) => s.(now := s.now + ms)
  }

  predicate Init(s: System)
  {
    !s.cells.have && s.cells.at == None && !s.cells.refreshing && s.lock == None && s.threads == map[] &&
    s.cells.view.born <= s.cells.gen
  }

  ghost predicate Moves(s: System, t: System) { exists e :: Enabled(s, e) && t == Next(s, e) }

  ghost predicate IsRun(run: seq<System>)
  {
    |run| > 0 && Init(run[0]) && forall i :: 0 <= i < |run| - 1 ==> Moves(run[i], run[i + 1])
  }

  // ---------------------------------------------------------------------------
  // What every interleaving keeps
  // ---------------------------------------------------------------------------

  predicate Holding(th: Thread) { th.Checking? || th.Building? || th.Leaving? }

  predicate Background(th: Thread)
  {
    th.Ending? || ((th.Waiting? || th.Checking? || th.Building? || th.Leaving?) && th.bg)
  }

  /** A thread has seen nothing older than its own beginning. */
  predicate Current(th: Thread, gen: nat)
  {
    th.since <= gen &&
    (th.Building? ==> th.since <= th.gen <= gen) &&
    (th.Leaving? || th.Returned? ==> th.since <= th.view.born <= gen) &&
    (th.Leaving? ==> th.seen < th.view.made + MAX_AGE) &&
    (th.Returned? ==> th.seen < th.view.made + (if th.direct then STALE_LIMIT else MAX_AGE))
  }

  /** A view counts as young exactly if it was born in the current generation. */
  predicate CellsOk(c: Cells)
  {
    c.view.born <= c.gen && (c.at.Some? <==> c.have && c.view.born == c.gen) &&
    (c.at.Some? ==> c.at.value == c.view.made)
  }

  ghost predicate LockOk(s: System)
  {
    (forall t :: t in s.threads ==> (Holding(s.threads[t]) <==> s.lock == Some(t))) &&
    (s.lock.Some? ==> s.lock.value in s.threads)
  }

  /** A background rebuild is in flight. */
  ghost predicate Rebuilding(s: System) { exists t :: t in s.threads && Background(s.threads[t]) }

  ghost predicate BackgroundOk(s: System)
  {
    (s.cells.refreshing <==> Rebuilding(s)) &&
    (forall t, u :: t in s.threads && u in s.threads && Background(s.threads[t]) && Background(s.threads[u]) ==> t == u)
  }

  ghost predicate Inv(s: System)
  {
    CellsOk(s.cells) && (forall t :: t in s.threads ==> Current(s.threads[t], s.cells.gen)) && LockOk(s) &&
    BackgroundOk(s)
  }

  /** One thread moves, perhaps taking or leaving the lock and changing the cells. */
  lemma ThreadMoves(s: System, t: Tid, th: Thread, cells: Cells, lock: Option<Tid>)
    requires Inv(s) && CellsOk(cells) && cells.gen == s.cells.gen && Current(th, cells.gen)
    requires Holding(th) <==> lock == Some(t)
    requires lock == s.lock || (lock == Some(t) && s.lock == None) || (lock == None && s.lock == Some(t))
    requires s.cells.refreshing ==> cells.refreshing
    requires Background(th) ==>
      cells.refreshing && (!s.cells.refreshing || (t in s.threads && Background(s.threads[t])))
    requires (cells.refreshing && !s.cells.refreshing) || (t in s.threads && Background(s.threads[t])) ==>
      Background(th)
    ensures Inv(s.(cells := cells, lock := lock, threads := s.threads[t := th]))
  {
    hide Background, Holding, Current, CellsOk;
    var next := s.(cells := cells, lock := lock, threads := s.threads[t := th]);
    if Background(th) { assert Background(next.threads[t]); }
    if s.cells.refreshing {
      var w :| w in s.threads && Background(s.threads[w]);
      assert w in next.threads && Background(next.threads[w]);
    }
  }

  lemma LookKeeps(s: System, t: Tid, u: Tid)
    requires Inv(s) && Enabled(s, LookIn(t, u))
    ensures Inv(Next(s, LookIn(t, u)))
  {
    var since := s.threads[t].since;
    var (c, look) := Looked(s.cells, s.now);
    match look
    case Serve(v, spawn) =>
      var th := Returned(since, v, s.now, true);
      if spawn {
        ThreadMoves(s, t, th, s.cells, s.lock);
        ThreadMoves(s.(threads := s.threads[t := th]), u, Waiting(s.cells.gen, true), c, s.lock);
      } else {
        ThreadMoves(s, t, th, c, s.lock);
      }
    case Wait => ThreadMoves(s, t, Waiting(since, false), s.cells, s.lock);
  }

  lemma FinishKeeps(s: System, t: Tid)
    requires Inv(s) && Enabled(s, Finish(t))
    ensures Inv(Next(s, Finish(t)))
  {
  }

  lemma InvalidateKeeps(s: System)
    requires Inv(s)
    ensures Inv(Next(s, Invalidate))
  {
  }

  lemma StepKeeps(s: System, e: Step)
    requires Inv(s) && Enabled(s, e)
    ensures Inv(Next(s, e))
  {
    var next := Next(s, e);
    match e
    case Call(t) => ThreadMoves(s, t, next.threads[t], s.cells, s.lock);
    case CallFresh(t) => ThreadMoves(s, t, next.threads[t], s.cells, s.lock);
    case LookIn(t, u) => LookKeeps(s, t, u);
    case Acquire(t) => ThreadMoves(s, t, next.threads[t], s.cells, next.lock);
    case Recheck(t) => ThreadMoves(s, t, next.threads[t], s.cells, s.lock);
    case Store(t, _) => ThreadMoves(s, t, next.threads[t], next.cells, s.lock);
    case Release(t) => ThreadMoves(s, t, next.threads[t], s.cells, next.lock);
    case Finish(t) => FinishKeeps(s, t);
    case Invalidate => InvalidateKeeps(s);
    case Tick(_) =>
  }

  lemma {:induction false} RunKeeps(run: seq<System>, i: nat)
    requires IsRun(run) && i < |run|
    ensures Inv(run[i])
  {
    hide Inv, Next;
    if i == 0 {
      Starts(run[0]);
    } else {
      RunKeeps(run, i - 1);
      assert Moves(run[i - 1], run[i]);
      var e :| Enabled(run[i - 1], e) && run[i] == Next(run[i - 1], e);
      StepKeeps(run[i - 1], e);
    }
  }

  lemma Starts(s: System)
    requires Init(s)
    ensures Inv(s)
  {
  }

  /** Freshness: whatever a call returns was built after every invalidation that preceded the
      call. */
  lemma Fresh(run: seq<System>, i: nat, t: Tid)
    requires IsRun(run) && i < |run| && t in run[i].threads && run[i].threads[t].Returned?
    ensures run[i].threads[t].view.born >= run[i].threads[t].since
  {
    hide IsRun;
    RunKeeps(run, i);
  }

  /** The generation only grows, so `since` and `born` order builds and invalidations in time. */
  lemma {:induction false} GenGrows(run: seq<System>, i: nat, j: nat)
    requires IsRun(run) && i <= j < |run|
    ensures run[i].cells.gen <= run[j].cells.gen
    decreases j
  {
    if i < j {
      GenGrows(run, i, j - 1);
      assert Moves(run[j - 1], run[j]);
    }
  }

  // ---------------------------------------------------------------------------
  // Where a view comes from
  // ---------------------------------------------------------------------------

  /** Thread `u` reads the generation in state `b` and is building from then on, up to state `s`. */
  ghost predicate BuildsFrom(run: seq<System>, b: nat, s: nat, u: Tid)
  {
    b < s < |run| && u in run[b].threads && run[b].threads[u].Checking? &&
    forall x :: b < x <= s ==> BuildingAt(run[x], u, run[b].cells.gen)
  }

  ghost predicate BuildingAt(s: System, u: Tid, gen: nat)
  {
    u in s.threads && s.threads[u].Building? && s.threads[u].gen == gen
  }

  /** The view that thread `u` builds from state `b` on and stores in the step after state `s`. */
  ghost predicate BuiltBy(run: seq<System>, b: nat, s: nat, u: Tid, view: View)
  {
    BuildsFrom(run, b, s, u) && s + 1 < |run| && view == View(run[b].cells.gen, run[s].now, view.content) &&
    Enabled(run[s], Store(u, view.content)) && run[s + 1] == Next(run[s], Store(u, view.content))
  }

  /** The view was built, and stored before state `m`. */
  ghost predicate Built(run: seq<System>, m: nat, view: View)
  {
    exists b: nat, s: nat, u :: s < m && BuiltBy(run, b, s, u, view)
  }

  ghost predicate BuildingSince(run: seq<System>, m: nat, u: Tid)
  {
    exists b: nat :: BuildsFrom(run, b, m, u)
  }

  predicate Carries(th: Thread) { th.Leaving? || th.Returned? }

  /** Every view in sight was built in this run, and every build in progress began in it. */
  ghost predicate Sourced(run: seq<System>, m: nat)
    requires m < |run|
  {
    (run[m].cells.have ==> Built(run, m, run[m].cells.view)) &&
    (forall t :: t in run[m].threads && Carries(run[m].threads[t]) ==> Built(run, m, run[m].threads[t].view)) &&
    (forall t :: t in run[m].threads && run[m].threads[t].Building? ==> BuildingSince(run, m, t))
  }

  lemma BuiltLater(run: seq<System>, m: nat, view: View)
    requires Built(run, m, view)
    ensures Built(run, m + 1, view)
  {
    var b: nat, s: nat, u :| s < m && BuiltBy(run, b, s, u, view);
    assert s < m + 1 && BuiltBy(run, b, s, u, view);
  }

  lemma StillBuilding(run: seq<System>, m: nat, t: Tid)
    requires m + 1 < |run| && BuildingSince(run, m, t) && t in run[m + 1].threads && t in run[m].threads
    requires run[m].threads[t].Building? && run[m + 1].threads[t] == run[m].threads[t]
    ensures BuildingSince(run, m + 1, t)
  {
    var b: nat :| BuildsFrom(run, b, m, t);
    assert BuildingAt(run[m], t, run[b].cells.gen);
    assert BuildsFrom(run, b, m + 1, t);
  }

  /** A thread that did not move keeps its source. */
  lemma RestSourced(run: seq<System>, m: nat, t: Tid)
    requires m + 1 < |run| && Sourced(run, m) && t in run[m].threads && t in run[m + 1].threads
    requires run[m + 1].threads[t] == run[m].threads[t]
    ensures Carries(run[m + 1].threads[t]) ==> Built(run, m + 1, run[m + 1].threads[t].view)
    ensures run[m + 1].threads[t].Building? ==> BuildingSince(run, m + 1, t)
  {
    hide Built, BuildingSince;
    if Carries(run[m].threads[t]) { BuiltLater(run, m, run[m].threads[t].view); }
    if run[m].threads[t].Building? { StillBuilding(run, m, t); }
  }

  /** The thread that moved, and the cells, have theirs. */
  lemma MoverSourced(run: seq<System>, m: nat, e: Step, t: Tid)
    requires m + 1 < |run| && Sourced(run, m) && Inv(run[m]) && Enabled(run[m], e) && run[m + 1] == Next(run[m], e)
    requires t in run[m + 1].threads && (t !in run[m].threads || run[m + 1].threads[t] != run[m].threads[t])
    ensures Carries(run[m + 1].threads[t]) ==> Built(run, m + 1, run[m + 1].threads[t].view)
    ensures run[m + 1].threads[t].Building? ==> BuildingSince(run, m + 1, t)
  {
    hide Built, BuildingSince, Inv;
    match e
    case LookIn(_, _) => if run[m].cells.have { BuiltLater(run, m, run[m].cells.view); }
    case Recheck(_) =>
      if run[m + 1].threads[t].Building? {
        BeginsBuild(run, m, t);
      } else {
        BuiltLater(run, m, run[m].cells.view);
      }
    case Store(_, content) => EndsBuild(run, m, t, content);
    case Release(_) => BuiltLater(run, m, run[m].threads[t].view);
    case Call(_) =>
    case CallFresh(_) =>
    case Acquire(_) =>
    case Finish(_) =>
    case Invalidate =>
    case Tick(_) =>
  }

  lemma BeginsBuild(run: seq<System>, m: nat, t: Tid)
    requires m + 1 < |run| && Enabled(run[m], Recheck(t)) && run[m + 1] == Next(run[m], Recheck(t))
    requires t in run[m + 1].threads && run[m + 1].threads[t].Building?
    ensures BuildingSince(run, m + 1, t)
  {
    assert BuildsFrom(run, m, m + 1, t);
  }

  lemma EndsBuild(run: seq<System>, m: nat, t: Tid, content: nat)
    requires m + 1 < |run| && Enabled(run[m], Store(t, content)) && run[m + 1] == Next(run[m], Store(t, content))
    requires BuildingSince(run, m, t)
    ensures Built(run, m + 1, View(run[m].threads[t].gen, run[m].now, content))
  {
    var b: nat :| BuildsFrom(run, b, m, t);
    assert BuildingAt(run[m], t, run[b].cells.gen);
    assert BuiltBy(run, b, m, t, View(run[m].threads[t].gen, run[m].now, content));
  }

  lemma CellsSourced(run: seq<System>, m: nat, e: Step)
    requires m + 1 < |run| && Sourced(run, m) && Enabled(run[m], e) && run[m + 1] == Next(run[m], e)
    ensures run[m + 1].cells.have ==> Built(run, m + 1, run[m + 1].cells.view)
  {
    hide Built, BuildingSince;
    if e.Store? {
      EndsBuild(run, m, e.t, e.content);
    } else if run[m].cells.have {
      BuiltLater(run, m, run[m].cells.view);
    }
  }

  lemma {:induction false} RunSourced(run: seq<System>, m: nat)
    requires IsRun(run) && m < |run|
    ensures Sourced(run, m)
  {
    hide Inv, Next, Enabled, Built, BuildingSince;
    if m > 0 {
      RunSourced(run, m - 1);
      RunKeeps(run, m - 1);
      assert Moves(run[m - 1], run[m]);
      var e :| Enabled(run[m - 1], e) && run[m] == Next(run[m - 1], e);
      CellsSourced(run, m - 1, e);
      forall t | t in run[m].threads
        ensures Carries(run[m].threads[t]) ==> Built(run, m, run[m].threads[t].view)
        ensures run[m].threads[t].Building? ==> BuildingSince(run, m, t)
      {
        if t in run[m - 1].threads && run[m].threads[t] == run[m - 1].threads[t] {
          RestSourced(run, m - 1, t);
        } else {
          MoverSourced(run, m - 1, e, t);
        }
      }
    }
  }

  /** A caller, as opposed to a background rebuild. */
  predicate Caller(th: Thread)
  {
    th.Calling? || th.Returned? || ((th.Waiting? || th.Checking? || th.Building? || th.Leaving?) && !th.bg)
  }

  /** Once begun, a call stays the same call until it returns. */
  lemma {:induction false} SameCall(run: seq<System>, j: nat, m: nat, t: Tid)
    requires IsRun(run) && j <= m < |run| && t in run[j].threads && Caller(run[j].threads[t])
    ensures t in run[m].threads && Caller(run[m].threads[t]) && run[m].threads[t].since == run[j].threads[t].since
    decreases m
  {
    if j < m {
      SameCall(run, j, m - 1, t);
      assert Moves(run[m - 1], run[m]);
    }
  }

  /** In terms of the run: an invalidation in the step after state `i`, a call of `t` in the
      step after a later state `j`, and its answer in state `m`. The answer was built by some
      thread `u`, which began after the invalidation: it read the generation in state `b`. */
  lemma FreshAfterInvalidation(run: seq<System>, i: nat, j: nat, m: nat, t: Tid) returns (b: nat, s: nat, u: Tid)
    requires IsRun(run) && i < j < m < |run| && run[i + 1] == Next(run[i], Invalidate)
    requires (Enabled(run[j], Call(t)) && run[j + 1] == Next(run[j], Call(t))) ||
             (Enabled(run[j], CallFresh(t)) && run[j + 1] == Next(run[j], CallFresh(t)))
    requires t in run[m].threads && run[m].threads[t].Returned?
    ensures i < b && s < m && BuiltBy(run, b, s, u, run[m].threads[t].view)
  {
    hide Inv, Sourced, BuiltBy, BuildsFrom;
    var view := run[m].threads[t].view;
    SameCall(run, j + 1, m, t);
    Fresh(run, m, t);
    ReturnedBuilt(run, m, t);
    b, s, u :| s < m && BuiltBy(run, b, s, u, view);
    BuiltWhen(run, b, s, u, view);
    GenGrows(run, i + 1, j);
    if b <= i {
      GenGrows(run, b, i);
    }
  }

  lemma ReturnedBuilt(run: seq<System>, m: nat, t: Tid)
    requires IsRun(run) && m < |run| && t in run[m].threads && run[m].threads[t].Returned?
    ensures Built(run, m, run[m].threads[t].view)
  {
    hide IsRun, Built, BuildingSince;
    RunSourced(run, m);
  }

  lemma BuiltWhen(run: seq<System>, b: nat, s: nat, u: Tid, view: View)
    requires BuiltBy(run, b, s, u, view)
    ensures b < |run| && view.born == run[b].cells.gen
  {
  }

  /** Age: a view served straight from the cache was stored less than two seconds before, one
      handed out by a refresh less than half a second before. */
  lemma ServedYoung(run: seq<System>, i: nat, t: Tid)
    requires IsRun(run) && i < |run| && t in run[i].threads && run[i].threads[t].Returned?
    ensures var th := run[i].threads[t]; th.seen < th.view.made + (if th.direct then 2000 else 500)
  {
    hide IsRun;
    RunKeeps(run, i);
  }

  /** When a caller is served at once: exactly if there is a view whose build began after the last
      invalidation and that was stored less than two seconds ago; otherwise it queues up. And if
      the view is half a second old or older, a rebuild is in flight afterwards. */
  lemma LooksExact(run: seq<System>, i: nat, t: Tid, u: Tid)
    requires IsRun(run) && i + 1 < |run| && Enabled(run[i], LookIn(t, u)) && run[i + 1] == Next(run[i], LookIn(t, u))
    ensures var s, th := run[i], run[i + 1].threads[t];
      var view, usable := s.cells.view, s.cells.have && s.cells.view.born == s.cells.gen;
      if usable && s.now < view.made + 2000 then th == Returned(s.threads[t].since, view, s.now, true)
      else th == Waiting(s.threads[t].since, false)
    ensures run[i + 1].threads[t].Returned? && run[i].now >= run[i].cells.view.made + 500 ==>
      Rebuilding(run[i + 1])
  {
    hide IsRun;
    RunKeeps(run, i);
    RunKeeps(run, i + 1);
  }

  /** Whoever holds the build lock shares the view found there exactly if its build began after
      the last invalidation and it was stored less than half a second ago; otherwise it builds,
      in the current generation. */
  lemma RechecksExact(run: seq<System>, i: nat, t: Tid)
    requires IsRun(run) && i + 1 < |run| && Enabled(run[i], Recheck(t)) && run[i + 1] == Next(run[i], Recheck(t))
    ensures var s, old', th := run[i], run[i].threads[t], run[i + 1].threads[t];
      var view, usable := s.cells.view, s.cells.have && s.cells.view.born == s.cells.gen;
      if usable && s.now < view.made + 500 then th == Leaving(old'.since, old'.bg, view, s.now)
      else th == Building(old'.since, old'.bg, s.cells.gen)
  {
    hide IsRun;
    RunKeeps(run, i);
  }

  /** Builds never overlap, and at most one background rebuild is in flight. */
  lemma SingleFlight(run: seq<System>, i: nat, t: Tid, u: Tid)
    requires IsRun(run) && i < |run| && t in run[i].threads && u in run[i].threads
    ensures run[i].threads[t].Building? && run[i].threads[u].Building? ==> t == u
    ensures Background(run[i].threads[t]) && Background(run[i].threads[u]) ==> t == u
  {
    hide IsRun;
    RunKeeps(run, i);
  }

  // ---------------------------------------------------------------------------
  // The object
  // ---------------------------------------------------------------------------

  class Engine {
    var have: bool
    var view: View
    var at: Option<nat>
    var gen: nat
    var refreshing: bool

    ghost function Contents(): Cells
      reads this
    {
      Cells(have, view, at, gen, refreshing)
    }

    constructor (view: View)
      ensures Contents() == Cells(false, view, None, 0, false)
    {
      have, this.view, at, gen, refreshing := false, view, None, 0, false;
    }

    method LookIn(now: nat) returns (look: Look)
      modifies this
      ensures (Contents(), look) == Looked(old(Contents()), now)
      ensures look.Serve? && look.spawn ==> !old(refreshing) && refreshing
    {
      if have && at.Some? {
        if now < at.value + MAX_AGE {
          return Serve(view, false);
        }
        if now < at.value + STALE_LIMIT {
          var spawn := !refreshing;
          if spawn {
            refreshing := true;
          }
          return Serve(view, spawn);
        }
      }
      return Wait;
    }

    /** Under the build lock: a view someone else just built, or the generation to build in. */
    method Recheck(now: nat) returns (found: Option<View>, current: nat)
      ensures found == Rechecked(Contents(), now) && current == gen
    {
      current := gen;
      if have && at.Some? && now < at.value + MAX_AGE {
        return Some(view), current;
      }
      return None, current;
    }

    method StoreView(now: nat, built: nat, content: nat)
      modifies this
      ensures Contents() == Stored(old(Contents()), now, View(built, now, content))
    {
      view, have := View(built, now, content), true;
      if gen == built {
        at := Some(now);
      } else {
        at := None;
      }
    }

    method EndBackground()
      modifies this
      ensures Contents() == old(Contents()).(refreshing := false)
    {
      refreshing := false;
    }

    method Invalidate()
      modifies this
      ensures Contents() == Invalidated(old(Contents()))
      ensures forall now, limit :: !Younger(Contents(), now, limit)
    {
      gen := gen + 1;
      at := None;
    }
  }
}
