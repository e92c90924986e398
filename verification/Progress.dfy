/**
 The server never deadlocks, and finitely many calls come to an end: some thread
 can always move unless all calls are answered, and no thread moves for ever.
 */
module Progress {
  import opened Prelude
  import opened PoolProtocol
  import opened System
  import opened SystemInv
  import opened SystemKept

  /** A step of a thread of its own accord: not the environment's, and no spurious wakeup. */
  predicate OwnStep(e: Event) {
    e.AtWork? || (e.InPool? && !e.move.WakeUp?)
  }

  /** The call is answered, or its process has ended. */
  predicate Over(s: State, t: nat) {
    Returned(s, t) || (t in s.threads && t in s.pool.status && s.threads[t].pc.Crashed? && s.pool.status[t].Out?)
  }

  /** Every call that has arrived is answered, those of ended processes apart. */
  predicate AllReturned(s: State) {
    forall t :: t in s.threads ==> Over(s, t)
  }

  /** Calls are pending and no thread can move. */
  ghost predicate Stuck(s: State) {
    !AllReturned(s) && forall e :: OwnStep(e) ==> !Enabled(s, e)
  }

  // ---------- Deadlock freedom ----------

  /** The environment's worst decision, always possible. */
  const Misfortune: Luck := Luck(false, false, 0, 0, [])

  /** The step of a thread that is outside the pool or has its guard. */
  function OwnNext(s: State, t: nat): Event
    requires t in s.threads && t in s.pool.status
  {
    var pc := s.threads[t].pc;
    if s.pool.status[t].Out? && WantsConn(pc) then InPool(t, Enter)
    else if pc.Returning? || pc.ReturningTotal? then InPool(t, GiveBack)
    else AtWork(t, Misfortune)
  }

  lemma OutsideCanMove(s: State, t: nat)
    requires t in s.threads && t in s.pool.status && ThreadOk(WorldOf(s), t, s.threads[t])
    requires Placed(s.threads[t].pc, s.pool.status[t]) && !Over(s, t)
    requires s.pool.status[t].Out? || s.pool.status[t].Holding?
    ensures OwnStep(OwnNext(s, t)) && Enabled(s, OwnNext(s, t))
  {
    hide PcOk;
  }

  /** While a call is pending, some thread can step, provided the pool has a connection. */
  lemma SomeStep(s: State, t: nat) returns (e: Event)
    requires Inv(s) && s.pool.conns != {} && t in s.threads && !Over(s, t)
    ensures OwnStep(e) && Enabled(s, e)
  {
    assert s.threads.Keys == s.pool.status.Keys;
    var u := t;
    if !s.pool.status[t].Out? && !s.pool.status[t].Holding? {
      SomeoneCanMove(s.pool, t);
      u :| u in s.pool.status && (Runnable(s.pool, u) || s.pool.status[u].Holding?);
    }
    assert u in s.threads && ThreadOk(WorldOf(s), u, s.threads[u]) && Placed(s.threads[u].pc, s.pool.status[u]);
    hide Inv, ThreadOk, PoolInv;
    if Runnable(s.pool, u) {
      e := InPool(u, NextMove(s.pool, u));
    } else {
      e := OwnNext(s, u);
      OutsideCanMove(s, u);
    }
  }

  lemma ConnsStay(s: State, e: Event)
    requires Enabled(s, e)
    ensures Step(s, e).pool.conns == s.pool.conns
  {
    hide Work, Can, LuckFits;
  }

  lemma {:induction false} RunConns(tr: seq<State>, es: seq<Event>, i: nat)
    requires Run(tr, es) && i < |tr|
    ensures tr[i].pool.conns == tr[0].pool.conns
  {
    if i > 0 {
      RunConns(tr, es, i - 1);
      RunStep(tr, es, i - 1);
      hide Run, Enabled, Step;
      ConnsStay(tr[i - 1], es[i - 1]);
    }
  }

  /** Only call 0, a GetStats, has arrived, and there is no connection. */
  predicate Doomed(s: State, pc: Pc, st: Status, owner: Option<nat>) {
    && s.threads.Keys == {0} && s.threads[0].call == Stats && s.threads[0].pc == pc
    && s.pool == Pool({}, [], owner, map[0 := st])
  }

  lemma NothingIdle(p: Pool)
    requires Fresh(p)
    ensures p.idle != [] ==> p.conns != {}
  {
    if p.idle != [] {
      assert p.idle[0] in p.conns;
    }
  }

  lemma DoomedArrives(s: State)
    requires Init(s) && s.pool.conns == {}
    ensures Enabled(s, Arrive(0, Stats)) && Doomed(Step(s, Arrive(0, Stats)), Probing, Out, None)
  {
    NothingIdle(s.pool);
  }

  lemma DoomedMisses(s: State)
    requires Doomed(s, Probing, Out, None)
    ensures Enabled(s, AtWork(0, Misfortune)) && Doomed(Step(s, AtWork(0, Misfortune)), CountingRows, Out, None)
  {
  }

  lemma DoomedEnters(s: State)
    requires Doomed(s, CountingRows, Out, None)
    ensures Enabled(s, InPool(0, Enter)) && Doomed(Step(s, InPool(0, Enter)), CountingRows, Entering, None)
  {
    hide Work;
  }

  lemma DoomedLocks(s: State)
    requires Doomed(s, CountingRows, Entering, None)
    ensures Enabled(s, InPool(0, Lock)) && Doomed(Step(s, InPool(0, Lock)), CountingRows, Testing, Some(0))
  {
    hide Work;
  }

  lemma DoomedSleeps(s: State)
    requires Doomed(s, CountingRows, Testing, Some(0))
    ensures Enabled(s, InPool(0, Sleep)) && Doomed(Step(s, InPool(0, Sleep)), CountingRows, Asleep, None)
  {
    hide Work;
  }

  lemma DoomedStuck(s: State)
    requires Doomed(s, CountingRows, Asleep, None)
    ensures Stuck(s)
  {
    assert 0 in s.threads && !Over(s, 0);
    hide Work, LuckFits;
  }

  /** With an empty pool, one GetStats that misses the cache sleeps for ever. */
  lemma EmptyPoolSticks(s: State) returns (tr: seq<State>, es: seq<Event>)
    requires Init(s) && s.pool.conns == {}
    ensures Run(tr, es) && tr[0] == s && Stuck(tr[|tr| - 1])
  {
    hide Init, Step, Enabled, Doomed, Stuck;
    es := [Arrive(0, Stats), AtWork(0, Misfortune), InPool(0, Enter), InPool(0, Lock), InPool(0, Sleep)];
    DoomedArrives(s);
    var s1 := Step(s, es[0]);
    DoomedMisses(s1);
    var s2 := Step(s1, es[1]);
    DoomedEnters(s2);
    var s3 := Step(s2, es[2]);
    DoomedLocks(s3);
    var s4 := Step(s3, es[3]);
    DoomedSleeps(s4);
    var s5 := Step(s4, es[4]);
    DoomedStuck(s5);
    tr := [s, s1, s2, s3, s4, s5];
  }

  /** A server can get stuck exactly when its pool has no connection. */
  lemma DeadlockFreeExact(s: State)
    requires Init(s)
    ensures (forall tr, es :: Run(tr, es) && tr[0] == s ==> !Stuck(tr[|tr| - 1])) <==> s.pool.conns != {}
  {
    if s.pool.conns == {} {
      var tr, es := EmptyPoolSticks(s);
    } else {
      hide Init, Run, Stuck;
      forall tr, es | Run(tr, es) && |tr| > 0 && tr[0] == s ensures !Stuck(tr[|tr| - 1]) {
        RunNotStuck(tr, es, |tr| - 1);
      }
    }
  }

  lemma RunNotStuck(tr: seq<State>, es: seq<Event>, i: nat)
    requires Run(tr, es) && i < |tr| && tr[0].pool.conns != {}
    ensures !Stuck(tr[i])
  {
    RunInv(tr, es, i);
    RunConns(tr, es, i);
    hide Run, Inv;
    if t :| t in tr[i].threads && !Over(tr[i], t) {
      var e := SomeStep(tr[i], t);
    }
  }

  /** No lost wakeup: sleepers never face more idle connections than threads already on their way to them. */
  lemma NoWakeupLost(tr: seq<State>, es: seq<Event>, i: nat)
    requires Run(tr, es) && i < |tr|
    ensures var p := tr[i].pool;
            AnyAsleep(p) ==>
              && |p.idle| <= |Awake(p)|
              && (p.owner.None? ==> |p.idle| <= |set t | t in p.status && p.status[t].Woken?|)
  {
    RunInv(tr, es, i);
    hide Run;
    if AnyAsleep(tr[i].pool) && tr[i].pool.owner.None? {
      IdleBoundedByWoken(tr[i].pool);
    }
  }

  // ---------- A measure ----------

  /** The sum of a map's values. */
  ghost function Total(m: map<nat, nat>): nat
    decreases |m|
  {
    if m == map[] then 0 else var k :| k in m; m[k] + Total(m - {k})
  }

  lemma {:induction false} TotalWithout(m: map<nat, nat>, k: nat)
    requires k in m
    ensures Total(m) == m[k] + Total(m - {k})
    decreases |m|
  {
    var j :| j in m && Total(m) == m[j] + Total(m - {j});
    if j != k {
      TotalWithout(m - {j}, k);
      TotalWithout(m - {k}, j);
      assert m - {j} - {k} == m - {k} - {j};
    }
  }

  lemma TotalUpdate(m: map<nat, nat>, k: nat, v: nat)
    requires k in m
    ensures Total(m[k := v]) == Total(m) - m[k] + v
  {
    TotalWithout(m, k);
    TotalWithout(m[k := v], k);
    assert m[k := v] - {k} == m - {k};
  }

  /** Work left: every step of a thread lowers it, except a key deleted and the way through acquire. */
  function Weight(pc: Pc, st: Status): nat {
    10 * Rank(pc) +
    match st
    case Out => if WantsConn(pc) then 5 else 0
    case Popped(_) => 4
    case Holding(_) => 3
    case Releasing(_) => 4
    case Pushing(_) => 3
    case Notifying => 2
    case Leaving => 1
    case _ => 5
  }

  /** Steps of acquire until the thread sleeps or gets a connection. */
  function Trying(pc: Pc, st: Status): nat {
    match st
    case Out => if WantsConn(pc) then 4 else 0
    case Entering => 3
    case Woken => 2
    case Testing => 1
    case _ => 0
  }

  function Weights(s: State): map<nat, nat> {
    map t | t in s.threads && t in s.pool.status :: Weight(s.threads[t].pc, s.pool.status[t])
  }

  function KeyCounts(s: State): map<nat, nat> {
    map t | t in s.threads :: Remaining(s.threads[t].pc)
  }

  function Attempts(s: State): map<nat, nat> {
    map t | t in s.threads && t in s.pool.status :: Trying(s.threads[t].pc, s.pool.status[t])
  }

  /** Lexicographically: work left, keys to delete, attempts to acquire. */
  ghost predicate Closer(s': State, s: State) {
    || Total(Weights(s')) < Total(Weights(s))
    || (Total(Weights(s')) == Total(Weights(s)) &&
        (|| Total(KeyCounts(s')) < Total(KeyCounts(s))
         || (Total(KeyCounts(s')) == Total(KeyCounts(s)) && Total(Attempts(s')) < Total(Attempts(s)))))
  }

  lemma WorkCloser(s: State, t: nat, k: Luck)
    requires CanWork(s, t)
    ensures Closer(Work(s, t, k), s)
  {
    hide Work, SessionFits, Total, Fits;
    var s' := Work(s, t, k);
    var w, r := Weight(s'.threads[t].pc, s.pool.status[t]), Remaining(s'.threads[t].pc);
    assert Weights(s') == Weights(s)[t := w];
    assert KeyCounts(s') == KeyCounts(s)[t := r];
    TotalUpdate(Weights(s), t, w);
    TotalUpdate(KeyCounts(s), t, r);
  }

  /** Moves other than the first steps of acquire bring the mover itself forward. */
  lemma MoverWeight(s: State, t: nat, m: Move)
    requires Enabled(s, InPool(t, m)) && Placed(s.threads[t].pc, s.pool.status[t]) && !m.WakeUp?
    ensures var s' := Effect(s, InPool(t, m));
            && t in s'.threads && t in s'.pool.status
            && var w, w' := Weight(s.threads[t].pc, s.pool.status[t]), Weight(s'.threads[t].pc, s'.pool.status[t]);
               if m.Enter? || m.Lock? || m.Sleep? then w' == w else w' < w
  {
    hide Work;
  }

  lemma MoveWeights(s: State, t: nat, m: Move)
    requires Enabled(s, InPool(t, m)) && !m.WakeUp?
    ensures var s' := Effect(s, InPool(t, m));
            && t in s'.threads && t in s'.pool.status
            && Weights(s') == Weights(s)[t := Weight(s'.threads[t].pc, s'.pool.status[t])]
  {
    hide Work, Rank, WantsConn;
  }

  lemma TryingMove(s: State, t: nat, m: Move)
    requires Enabled(s, InPool(t, m)) && (m.Enter? || m.Lock? || m.Sleep?)
    ensures var s' := Effect(s, InPool(t, m));
            KeyCounts(s') == KeyCounts(s) && Total(Attempts(s')) < Total(Attempts(s))
  {
    hide Work, Total;
    var s' := Effect(s, InPool(t, m));
    var a := Trying(s'.threads[t].pc, s'.pool.status[t]);
    assert Attempts(s') == Attempts(s)[t := a];
    TotalUpdate(Attempts(s), t, a);
  }

  lemma MoveCloser(s: State, t: nat, m: Move)
    requires Enabled(s, InPool(t, m)) && Placed(s.threads[t].pc, s.pool.status[t]) && !m.WakeUp?
    ensures Closer(Effect(s, InPool(t, m)), s)
  {
    MoverWeight(s, t, m);
    MoveWeights(s, t, m);
    var s' := Effect(s, InPool(t, m));
    hide Work, Effect, Total, Weight, Can;
    TotalUpdate(Weights(s), t, Weight(s'.threads[t].pc, s'.pool.status[t]));
    if m.Enter? || m.Lock? || m.Sleep? { TryingMove(s, t, m); }
  }

  /** Every step a thread takes of its own accord brings the end closer. */
  lemma OwnStepCloser(s: State, e: Event)
    requires Inv(s) && Enabled(s, e) && OwnStep(e)
    ensures Closer(Step(s, e), s)
  {
    assert ThreadsPlaced(s);
    if e.InPool? { assert Placed(s.threads[e.tid].pc, s.pool.status[e.tid]); }
    hide Inv, Work, Closer, Placed;
    match e {
      case AtWork(t, k) => WorkCloser(s, t, k);
      case InPool(t, m) => MoveCloser(s, t, m);
    }
    StampSame(Effect(s, e));
    hide Step, Effect, Enabled, Stamp;
    SameMeasure(Effect(s, e), Step(s, e), s);
  }

  lemma StampSame(s: State)
    ensures Stamp(s).threads == s.threads && Stamp(s).pool == s.pool
  {
  }

  lemma SameMeasure(s1: State, s2: State, s: State)
    requires s1.threads == s2.threads && s1.pool == s2.pool && Closer(s1, s)
    ensures Closer(s2, s)
  {
    assert Weights(s1) == Weights(s2) && KeyCounts(s1) == KeyCounts(s2) && Attempts(s1) == Attempts(s2);
  }

  // ---------- Termination ----------

  /** An endless run from a state of the invariant, with no further calls, no spurious wakeups and no restart. */
  ghost predicate Endless(run: nat -> State, ev: nat -> Event) {
    && Inv(run(0))
    && (forall i: nat :: Enabled(run(i), ev(i)) && run(i + 1) == Step(run(i), ev(i)))
    && (forall i: nat :: !ev(i).Arrive? && !ev(i).Restart? && !(ev(i).InPool? && ev(i).move.WakeUp?))
  }

  lemma {:induction false} EndlessInv(run: nat -> State, ev: nat -> Event, i: nat)
    requires Endless(run, ev)
    ensures Inv(run(i)) && run(i).pool.conns == run(0).pool.conns
  {
    if i > 0 {
      EndlessInv(run, ev, i - 1);
      assert Enabled(run(i - 1), ev(i - 1)) && run(i - 1 + 1) == Step(run(i - 1), ev(i - 1));
      hide Inv, Enabled, Step, Endless;
      StepOk(run(i - 1), ev(i - 1));
      ConnsStay(run(i - 1), ev(i - 1));
    }
  }

  /** From state i on, the environment alone acts up to state j. */
  ghost predicate Idle(ev: nat -> Event, i: nat, j: nat) {
    forall k: nat :: i <= k < j ==> !OwnStep(ev(k))
  }

  lemma EnvironmentWaits(s: State, e: Event)
    requires Enabled(s, e) && (e.Tick? || e.Evict?)
    ensures Step(s, e).threads == s.threads && Step(s, e).pool == s.pool
  {
    hide Work, Can, Go;
  }

  lemma {:induction false} IdleKeeps(run: nat -> State, ev: nat -> Event, i: nat, j: nat)
    requires Endless(run, ev) && i <= j && Idle(ev, i, j)
    ensures run(j).threads == run(i).threads && run(j).pool == run(i).pool
    decreases j - i
  {
    if i < j {
      assert Enabled(run(j - 1), ev(j - 1)) && run(j - 1 + 1) == Step(run(j - 1), ev(j - 1));
      assert !OwnStep(ev(j - 1)) && (ev(j - 1).Tick? || ev(j - 1).Evict?);
      hide Enabled, Step;
      IdleKeeps(run, ev, i, j - 1);
      EnvironmentWaits(run(j - 1), ev(j - 1));
    }
  }

  /** Some own step follows state i: the first one. */
  lemma {:induction false} FirstOwnStep(ev: nat -> Event, i: nat, j: nat) returns (k: nat)
    requires i <= j && OwnStep(ev(j))
    ensures i <= k && OwnStep(ev(k)) && Idle(ev, i, k)
    decreases j - i
  {
    if k0: nat :| i <= k0 < j && OwnStep(ev(k0)) {
      k := FirstOwnStep(ev, i, k0);
    } else {
      k := j;
    }
  }

  lemma OwnStepAt(run: nat -> State, ev: nat -> Event, i: nat, k: nat)
    requires Endless(run, ev) && i <= k && OwnStep(ev(k)) && Idle(ev, i, k)
    ensures Closer(run(k + 1), run(i))
  {
    EndlessInv(run, ev, k);
    IdleKeeps(run, ev, i, k);
    assert Enabled(run(k), ev(k)) && run(k + 1) == Step(run(k), ev(k));
    hide Inv, Enabled, Step, Endless, Idle, Total;
    OwnStepCloser(run(k), ev(k));
    assert Weights(run(i)) == Weights(run(k));
    assert KeyCounts(run(i)) == KeyCounts(run(k)) && Attempts(run(i)) == Attempts(run(k));
  }

  /** Threads take finitely many steps: from some point on only the environment acts. */
  lemma {:induction false} Settles(run: nat -> State, ev: nat -> Event, i: nat) returns (n: nat)
    requires Endless(run, ev)
    ensures i <= n && forall k: nat :: n <= k ==> !OwnStep(ev(k))
    decreases Total(Weights(run(i))), Total(KeyCounts(run(i))), Total(Attempts(run(i)))
  {
    hide Endless;
    if j: nat :| i <= j && OwnStep(ev(j)) {
      var k := FirstOwnStep(ev, i, j);
      OwnStepAt(run, ev, i, k);
      n := Settles(run, ev, k + 1);
    } else {
      n := i;
    }
  }

  /** The scheduler: whenever some thread can step, sooner or later some thread does. */
  ghost predicate Scheduled(run: nat -> State, ev: nat -> Event) {
    forall i: nat, e: Event :: Enabled(run(i), e) && OwnStep(e) ==> exists j: nat :: i <= j && OwnStep(ev(j))
  }

  lemma PendingMoves(run: nat -> State, ev: nat -> Event, k: nat) returns (j: nat)
    requires Endless(run, ev) && Scheduled(run, ev) && run(0).pool.conns != {} && !AllReturned(run(k))
    ensures k <= j && OwnStep(ev(j))
  {
    EndlessInv(run, ev, k);
    hide Endless, Inv;
    var t :| t in run(k).threads && !Over(run(k), t);
    var e := SomeStep(run(k), t);
    assert Enabled(run(k), e) && OwnStep(e);
    j :| k <= j && OwnStep(ev(j));
  }

  /** With at least one connection, every call ends: from some state on all are answered. */
  lemma EveryCallEnds(run: nat -> State, ev: nat -> Event) returns (n: nat)
    requires Endless(run, ev) && Scheduled(run, ev) && run(0).pool.conns != {}
    ensures forall k: nat :: n <= k ==> AllReturned(run(k))
  {
    hide Endless, Scheduled, AllReturned;
    n := Settles(run, ev, 0);
    forall k: nat | n <= k ensures AllReturned(run(k)) {
      if !AllReturned(run(k)) {
        var j := PendingMoves(run, ev, k);
      }
    }
  }
}
