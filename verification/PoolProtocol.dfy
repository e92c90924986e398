/**
 The connection pool as a concurrent protocol: MysqlPool::acquire, the guard's
 destructor and MysqlPool::release (src/store/mysql_pool.cpp:157-182,
 src/store/mysql_pool.h:135-155), one step per mutex operation, stack
 operation, wait or notify, for any number of threads.
 */
module PoolProtocol {
  import opened Prelude

  /** Where a thread stands with respect to the pool. */
  datatype Status =
    | Out                     // outside the pool, without a connection
    | Entering                // in acquire, about to lock
    | Testing                 // owns the mutex, about to test the predicate
    | Asleep                  // waits on the condition variable
    | Woken                   // notified or spuriously woken, about to lock again
    | Popped(conn: nat)       // owns the mutex, has taken a connection
    | Holding(conn: nat)      // has its guard
    | Releasing(conn: nat)    // in the guard's destructor, about to lock
    | Pushing(conn: nat)      // owns the mutex, about to push
    | Notifying               // owns the mutex, has pushed, about to notify
    | Leaving                 // owns the mutex, about to unlock

  datatype Pool = Pool(conns: set<nat>, idle: seq<nat>, owner: Option<nat>, status: map<nat, Status>)

  datatype Move =
    | Enter
    | Lock
    | Sleep
    | Pop
    | Unlock
    | GiveBack
    | LockBack
    | Push
    | NotifyOne(waiter: Option<nat>)
    | Leave
    | WakeUp                  // spurious

  predicate AnyAsleep(p: Pool) {
    exists t :: t in p.status && p.status[t].Asleep?
  }

  predicate Can(p: Pool, t: nat, m: Move) {
    t in p.status &&
    var st := p.status[t];
    match m
    case Enter => st.Out?
    case Lock => (st.Entering? || st.Woken?) && p.owner.None?
    case Sleep => st.Testing? && p.idle == []
    case Pop => st.Testing? && p.idle != []
    case Unlock => st.Popped?
    case GiveBack => st.Holding?
    case LockBack => st.Releasing? && p.owner.None?
    case Push => st.Pushing?
    case NotifyOne(w) =>
      st.Notifying? &&
      (match w
       case Some(u) => u in p.status && p.status[u].Asleep?
       case None => !AnyAsleep(p))
    case Leave => st.Leaving?
    case WakeUp => st.Asleep?
  }

  function Go(p: Pool, t: nat, m: Move): Pool
    requires Can(p, t, m)
  {
    match m
    case Enter => p.(status := p.status[t := Entering])
    case Lock => p.(owner := Some(t), status := p.status[t := Testing])
    case Sleep => p.(owner := None, status := p.status[t := Asleep])
    case Pop =>
      var last := |p.idle| - 1;
      p.(idle := p.idle[..last], status := p.status[t := Popped(p.idle[last])])
    case Unlock => p.(owner := None, status := p.status[t := Holding(p.status[t].conn)])
    case GiveBack => p.(status := p.status[t := Releasing(p.status[t].conn)])
    case LockBack => p.(owner := Some(t), status := p.status[t := Pushing(p.status[t].conn)])
    case Push => p.(idle := p.idle + [p.status[t].conn], status := p.status[t := Notifying])
    case NotifyOne(Some(u)) => p.(status := p.status[t := Leaving][u := Woken])
    case NotifyOne(None) => p.(status := p.status[t := Leaving])
    case Leave => p.(owner := None, status := p.status[t := Out])
    case WakeUp => p.(status := p.status[t := Woken])
  }

  // ---------- Invariants ----------

  predicate InCritical(st: Status) {
    st.Testing? || st.Popped? || st.Pushing? || st.Notifying? || st.Leaving?
  }

  predicate Owns(st: Status) {
    st.Popped? || st.Holding? || st.Releasing? || st.Pushing?
  }

  /** Exactly the owner of the mutex is inside a critical section. */
  predicate MutexOk(p: Pool) {
    && (forall t :: t in p.status ==> (InCritical(p.status[t]) <==> p.owner == Some(t)))
    && (p.owner.Some? ==> p.owner.value in p.status)
  }

  predicate Held(p: Pool, c: nat) {
    exists t :: t in p.status && Owns(p.status[t]) && p.status[t].conn == c
  }

  /** No connection has two owners. */
  predicate Exclusive(p: Pool) {
    && (forall i, j :: 0 <= i < j < |p.idle| ==> p.idle[i] != p.idle[j])
    && (forall t :: t in p.status && Owns(p.status[t]) ==> p.status[t].conn !in p.idle)
    && (forall t, u :: t in p.status && u in p.status && t != u && Owns(p.status[t]) && Owns(p.status[u]) ==>
          p.status[t].conn != p.status[u].conn)
  }

  /** Idle plus held is exactly the pool's connections. */
  ghost predicate Conserved(p: Pool) {
    && Exclusive(p)
    && (forall c :: c in p.conns <==> c in p.idle || Held(p, c))
  }

  /** Threads that are bound to look at the idle stack, or to wake somebody who will. */
  function Awake(p: Pool): set<nat> {
    set t | t in p.status && (p.status[t].Woken? || p.status[t].Testing? || p.status[t].Notifying?)
  }

  ghost predicate NoLostWakeup(p: Pool) {
    AnyAsleep(p) ==> |p.idle| <= |Awake(p)|
  }

  ghost predicate PoolInv(p: Pool) {
    MutexOk(p) && Conserved(p) && NoLostWakeup(p)
  }

  lemma MutexKept(p: Pool, t: nat, m: Move)
    requires MutexOk(p) && Can(p, t, m)
    ensures MutexOk(Go(p, t, m))
  {
  }

  lemma ExclusiveKept(p: Pool, t: nat, m: Move)
    requires Exclusive(p) && Can(p, t, m)
    ensures Exclusive(Go(p, t, m))
  {
    if m.Pop? {
      var last := |p.idle| - 1;
      assert p.idle[last] in p.idle;
      assert p.idle[last] !in p.idle[..last];
    }
  }

  /** Except for the moved thread and a notified sleeper, owners keep what they own. */
  lemma ConservedKept(p: Pool, t: nat, m: Move)
    requires Conserved(p) && Can(p, t, m)
    ensures Conserved(Go(p, t, m))
  {
    var q := Go(p, t, m);
    ExclusiveKept(p, t, m);
    forall c | c in q.conns ensures c in q.idle || Held(q, c) {
      if c in p.idle {
        if c !in q.idle {
          assert m.Pop? && c == p.idle[|p.idle| - 1];
          assert q.status[t] == Popped(c);
        }
      } else {
        var u :| u in p.status && Owns(p.status[u]) && p.status[u].conn == c;
        if m.Push? && u == t {
          assert q.idle[|p.idle|] == c;
        } else {
          assert Owns(q.status[u]) && q.status[u].conn == c;
        }
      }
    }
    forall c | c in q.idle || Held(q, c) ensures c in q.conns {
      if c in q.idle {
        assert c in p.idle || (m.Push? && c == p.status[t].conn);
        assert c in p.idle || Held(p, c);
      } else {
        var u :| u in q.status && Owns(q.status[u]) && q.status[u].conn == c;
        if m.Pop? && u == t {
          assert c in p.idle;
        } else {
          assert Owns(p.status[u]) && p.status[u].conn == c;
        }
      }
    }
  }

  function AwakeAfter(p: Pool, t: nat, m: Move): set<nat> {
    if m.Lock? || m.Push? || m.WakeUp? then Awake(p) + {t}
    else if m.Pop? || m.Sleep? then Awake(p) - {t}
    else if m.NotifyOne? then Awake(p) - {t} + (if m.waiter.Some? then {m.waiter.value} else {})
    else Awake(p)
  }

  lemma AwakeChange(p: Pool, t: nat, m: Move)
    requires Can(p, t, m)
    ensures Awake(Go(p, t, m)) == AwakeAfter(p, t, m)
  {
  }

  lemma AwakeSize(p: Pool, t: nat, m: Move)
    requires Can(p, t, m) && !m.Sleep? && (m.NotifyOne? ==> m.waiter.Some?)
    ensures |AwakeAfter(p, t, m)| >= |Awake(p)| + (if m.Push? then 1 else if m.Pop? then -1 else 0)
  {
    var a := Awake(p);
    assert t in a ==> a + {t} == a;
    if m.NotifyOne? {
      assert t in a && m.waiter.value !in a;
      assert |AwakeAfter(p, t, m)| == |a - {t}| + 1;
    }
  }

  lemma SleepersAndIdle(p: Pool, t: nat, m: Move)
    requires Can(p, t, m)
    ensures !m.Sleep? && AnyAsleep(Go(p, t, m)) ==> AnyAsleep(p) && (m.NotifyOne? ==> m.waiter.Some?)
    ensures |Go(p, t, m).idle| == |p.idle| + (if m.Push? then 1 else if m.Pop? then -1 else 0)
    ensures m.Sleep? ==> p.idle == []
  {
    if !m.Sleep? && AnyAsleep(Go(p, t, m)) {
      var u :| u in Go(p, t, m).status && Go(p, t, m).status[u].Asleep?;
      assert p.status[u].Asleep?;
    }
  }

  lemma NoLostWakeupKept(p: Pool, t: nat, m: Move)
    requires NoLostWakeup(p) && Can(p, t, m)
    ensures NoLostWakeup(Go(p, t, m))
  {
    AwakeChange(p, t, m);
    if !m.Sleep? && (m.NotifyOne? ==> m.waiter.Some?) {
      AwakeSize(p, t, m);
    }
    SleepersAndIdle(p, t, m);
    hide Awake, AwakeAfter, Can, Go, AnyAsleep;
  }

  /** Every step of every thread keeps mutual exclusion, conservation and the wakeup bound. */
  lemma PoolInvKept(p: Pool, t: nat, m: Move)
    requires PoolInv(p) && Can(p, t, m)
    ensures PoolInv(Go(p, t, m))
  {
    MutexKept(p, t, m);
    ConservedKept(p, t, m);
    NoLostWakeupKept(p, t, m);
  }

  /**
    The idle connections are a stack: if nobody else took or returned one in between,
    the next thread is lent the connection returned last, and the others stay.
   */
  lemma LastReturnedFirst(p: Pool, t: nat, q: Pool, u: nat)
    requires Can(p, t, Push) && Can(q, u, Pop)
    requires q.idle == Go(p, t, Push).idle
    ensures Go(q, u, Pop).status[u] == Popped(p.status[t].conn)
    ensures Go(q, u, Pop).idle == p.idle
  {
    var idle := p.idle + [p.status[t].conn];
    assert q.idle == idle && idle[..|idle| - 1] == p.idle;
  }

  /** A pool right after init, before any thread has come. */
  ghost predicate Fresh(p: Pool) {
    && p.owner.None? && p.status == map[]
    && (forall i, j :: 0 <= i < j < |p.idle| ==> p.idle[i] != p.idle[j])
    && (forall c :: c in p.conns <==> c in p.idle)
  }

  lemma FreshInv(p: Pool)
    requires Fresh(p)
    ensures PoolInv(p)
  {
  }

  /** A new thread starts outside. */
  function Join(p: Pool, t: nat): Pool {
    p.(status := p.status[t := Out])
  }

  lemma JoinInv(p: Pool, t: nat)
    requires PoolInv(p) && t !in p.status
    ensures PoolInv(Join(p, t))
  {
    assert Awake(Join(p, t)) == Awake(p);
    JoinConserved(p, t);
  }

  lemma JoinConserved(p: Pool, t: nat)
    requires Conserved(p) && t !in p.status
    ensures Conserved(Join(p, t))
  {
    var q := Join(p, t);
    forall c ensures Held(q, c) <==> Held(p, c) {
      if Held(p, c) {
        var u :| u in p.status && Owns(p.status[u]) && p.status[u].conn == c;
        assert q.status[u] == p.status[u];
      }
    }
  }

  /** A new process: the old one's threads are gone, its connections replaced by as many new ones. */
  function Reset(p: Pool, idle: seq<nat>): Pool {
    Pool(p.conns, idle, None, map t | t in p.status :: Out)
  }

  /** The idle stack of a pool right after init. */
  predicate AllIdle(p: Pool, idle: seq<nat>) {
    && (forall i, j :: 0 <= i < j < |idle| ==> idle[i] != idle[j])
    && (forall c :: c in p.conns ==> c in idle)
    && (forall c :: c in idle ==> c in p.conns)
  }

  lemma ResetInv(p: Pool, idle: seq<nat>)
    requires AllIdle(p, idle)
    ensures PoolInv(Reset(p, idle))
  {
  }

  // ---------- Consequences ----------

  /**
   While the mutex is free, sleepers imply that idle connections are at most as
   many as woken threads that have not run yet.
   */
  lemma IdleBoundedByWoken(p: Pool)
    requires PoolInv(p) && p.owner.None? && AnyAsleep(p)
    ensures |p.idle| <= |set t | t in p.status && p.status[t].Woken?|
  {
    assert Awake(p) == set t | t in p.status && p.status[t].Woken?;
  }

  /** A thread inside the pool code that needs nobody else to take its next step. */
  predicate Runnable(p: Pool, t: nat) {
    && t in p.status
    && var st := p.status[t];
       InCritical(st) || (p.owner.None? && (st.Entering? || st.Woken? || st.Releasing?))
  }

  /** The next move of a runnable thread. */
  ghost function NextMove(p: Pool, t: nat): (m: Move)
    requires Runnable(p, t)
    ensures Can(p, t, m) && !m.WakeUp? && !m.Enter? && !m.GiveBack?
  {
    match p.status[t]
    case Testing => if p.idle == [] then Sleep else Pop
    case Popped(_) => Unlock
    case Pushing(_) => Push
    case Notifying =>
      if AnyAsleep(p) then (var u :| u in p.status && p.status[u].Asleep?; NotifyOne(Some(u))) else NotifyOne(None)
    case Leaving => Leave
    case Releasing(_) => LockBack
    case _ => Lock
  }

  /**
   An idle or returnable connection never leaves only sleepers behind: if a
   thread is inside the pool code, some thread there can move, or some thread
   holds a connection and is outside.
   */
  lemma SomeoneCanMove(p: Pool, t: nat)
    requires PoolInv(p) && p.conns != {}
    requires t in p.status && !p.status[t].Out? && !p.status[t].Holding?
    ensures exists u :: u in p.status && (Runnable(p, u) || p.status[u].Holding?)
  {
    if p.owner.Some? {
      assert Runnable(p, p.owner.value);
    } else if p.status[t].Asleep? {
      var c :| c in p.conns;
      if c in p.idle {
        assert |Awake(p)| > 0;
        var u :| u in Awake(p);
        assert Runnable(p, u);
      } else {
        var u :| u in p.status && Owns(p.status[u]) && p.status[u].conn == c;
        assert Runnable(p, u) || p.status[u].Holding?;
      }
    } else {
      assert Runnable(p, t);
    }
  }

  /** Without connections nobody ever gets one, so every acquirer ends up asleep for good. */
  lemma EmptyPoolStarves(p: Pool)
    requires PoolInv(p) && p.conns == {}
    ensures forall c :: c !in p.idle
    ensures forall t :: t in p.status ==> !Owns(p.status[t])
  {
    forall t | t in p.status ensures !Owns(p.status[t]) {
      if Owns(p.status[t]) { assert Held(p, p.status[t].conn); }
    }
  }

  // ---------- Shutdown ----------

  /** MysqlPool::shutdown. */
  function Shut(p: Pool): Pool {
    p.(idle := [], conns := {})
  }

  predicate Inside(p: Pool) {
    forall c :: c in p.idle ==> c in p.conns
  }

  /** A thread comes, or one that is there makes a move. */
  datatype PoolStep = Comes(tid: nat) | Moves(tid: nat, move: Move)

  predicate CanTake(p: Pool, e: PoolStep) {
    match e
    case Comes(t) => t !in p.status
    case Moves(t, m) => Can(p, t, m)
  }

  function Take(p: Pool, e: PoolStep): Pool
    requires CanTake(p, e)
  {
    match e
    case Comes(t) => Join(p, t)
    case Moves(t, m) => Go(p, t, m)
  }

  /** A finite run of pool steps by any threads, new ones included. */
  predicate Legal(p: Pool, run: seq<PoolStep>)
    decreases |run|
  {
    run == [] || (CanTake(p, run[0]) && Legal(Take(p, run[0]), run[1..]))
  }

  function After(p: Pool, run: seq<PoolStep>): Pool
    requires Legal(p, run)
    decreases |run|
  {
    if run == [] then p else After(Take(p, run[0]), run[1..])
  }

  lemma {:induction false} ConservedAlong(p: Pool, run: seq<PoolStep>)
    requires Conserved(p) && Legal(p, run)
    ensures Conserved(After(p, run))
    decreases |run|
  {
    if run != [] {
      match run[0] {
        case Comes(t) => JoinConserved(p, t);
        case Moves(t, m) => ConservedKept(p, t, m);
      }
      ConservedAlong(Take(p, run[0]), run[1..]);
    }
  }

  lemma Prepend(p: Pool, e: PoolStep, run: seq<PoolStep>) returns (longer: seq<PoolStep>)
    requires CanTake(p, e) && Legal(Take(p, e), run)
    ensures Legal(p, longer) && After(p, longer) == After(Take(p, e), run)
  {
    longer := [e] + run;
    assert longer[1..] == run;
  }

  /** The run in which an outstanding guard returns its connection. */
  lemma ReturnsStray(p: Pool, t: nat) returns (run: seq<PoolStep>)
    requires MutexOk(p) && p.owner.None? && t in p.status && Owns(p.status[t])
    ensures Legal(Shut(p), run) && !Inside(After(Shut(p), run))
  {
    var q := Shut(p);
    var c := p.status[t].conn;
    var q0 := if p.status[t].Holding? then Go(q, t, GiveBack) else q;
    var q1 := Go(q0, t, LockBack);
    run := [];
    assert Go(q1, t, Push).idle == [c] && c in Go(q1, t, Push).idle;
    run := Prepend(q1, Moves(t, Push), run);
    run := Prepend(q0, Moves(t, LockBack), run);
    if p.status[t].Holding? {
      run := Prepend(q, Moves(t, GiveBack), run);
    }
  }

  /** After shutdown every later release stays inside conns_ exactly when no guard is outstanding. */
  lemma ShutdownExact(p: Pool)
    requires PoolInv(p) && p.owner.None?
    ensures (forall run :: Legal(Shut(p), run) ==> Inside(After(Shut(p), run)))
            <==> (forall t :: t in p.status ==> !Owns(p.status[t]))
  {
    if t :| t in p.status && Owns(p.status[t]) {
      var run := ReturnsStray(p, t);
    } else {
      assert Conserved(Shut(p));
      forall run | Legal(Shut(p), run) ensures Inside(After(Shut(p), run)) {
        ConservedAlong(Shut(p), run);
      }
    }
  }
}
