/**
 The invariant holds initially and after every step, hence in every state of
 every run.
 */
module SystemKept {
  import opened PoolProtocol
  import opened System
  import opened SystemInv
  import opened SystemSteps
  import CacheState

  lemma InitOk(s: State)
    requires Init(s)
    ensures Inv(s)
  {
    FreshInv(s.pool);
  }

  // ---------- Pool, placement and connections ----------

  lemma StepPool(s: State, e: Event)
    requires Inv(s) && Enabled(s, e)
    ensures PoolInv(Step(s, e).pool)
  {
    hide Work, PoolInv, LedgerOk, CellsOk, SessionsOk, WritersOk, PcOk;
    if e.InPool? { PoolInvKept(s.pool, e.tid, e.move); }
    if e.Arrive? { JoinInv(s.pool, e.tid); }
    if e.Restart? { ResetInv(s.pool, e.idle); }
  }

  lemma WorkPlaced(s: State, t: nat, k: Luck)
    requires ThreadsPlaced(s) && CanWork(s, t)
    ensures ThreadsPlaced(Work(s, t, k))
  {
    hide Work, SessionFits;
  }

  /** A pool move changes the mover, and at most one notified sleeper. */
  lemma MoveFrame(p: Pool, t: nat, m: Move, u: nat)
    requires Can(p, t, m) && u in p.status && u != t
    ensures Go(p, t, m).status[u] == p.status[u] || (p.status[u].Asleep? && Go(p, t, m).status[u].Woken?)
  {
  }

  lemma MoverPlaced(s: State, t: nat, m: Move)
    requires Enabled(s, InPool(t, m)) && Placed(s.threads[t].pc, s.pool.status[t])
    ensures var s' := Effect(s, InPool(t, m));
            t in s'.threads && t in s'.pool.status && Placed(s'.threads[t].pc, s'.pool.status[t])
  {
    hide Work;
  }

  lemma PoolMovePlaced(s: State, t: nat, m: Move)
    requires ThreadsPlaced(s) && Enabled(s, InPool(t, m))
    ensures ThreadsPlaced(Effect(s, InPool(t, m)))
  {
    var s' := Effect(s, InPool(t, m));
    assert Placed(s.threads[t].pc, s.pool.status[t]);
    MoverPlaced(s, t, m);
    assert s'.pool == Go(s.pool, t, m) && s'.pool.status.Keys == s.pool.status.Keys;
    hide Work, Go, Can, Effect, Enabled;
    forall u | u in s'.threads ensures Placed(s'.threads[u].pc, s'.pool.status[u]) {
      if u != t { MoveFrame(s.pool, t, m, u); }
    }
  }

  lemma StepPlaced(s: State, e: Event)
    requires Inv(s) && Enabled(s, e)
    ensures ThreadsPlaced(Step(s, e))
  {
    hide Work, PoolInv, LedgerOk, CellsOk, SessionsOk, WritersOk, PcOk, Placed, CanWork;
    match e {
      case AtWork(t, k) => WorkPlaced(s, t, k);
      case InPool(t, m) => PoolMovePlaced(s, t, m);
      case Arrive(t, call) => ArrivePlaced(s, t, call);
      case Restart(idle) => RestartPlaced(s, idle);
      case _ =>
    }
  }

  lemma RestartPlaced(s: State, idle: seq<nat>)
    requires ThreadsPlaced(s) && Enabled(s, Restart(idle))
    ensures ThreadsPlaced(Effect(s, Restart(idle)))
  {
    hide Work;
  }

  lemma ArrivePlaced(s: State, t: nat, call: Call)
    requires ThreadsPlaced(s) && Enabled(s, Arrive(t, call))
    ensures ThreadsPlaced(Effect(s, Arrive(t, call)))
  {
    hide Work;
  }

  /** One thread's work on its own connection disturbs nobody else's. */
  lemma WorkSessions(s: State, t: nat, k: Luck)
    requires SessionsOk(s) && CanWork(s, t) && LuckFits(s, t, k) && Exclusive(s.pool)
    ensures SessionsOk(Work(s, t, k))
  {
    WorkRows(s, t, k);
    hide Work, PcAdvances;
    var s' := Work(s, t, k);
    forall u | u in s'.threads ensures SessionFits(s', u) {
      assert SessionFits(s, u);
    }
    forall c | c in s'.pool.idle ensures Ready(s', c) {
      assert Ready(s, c);
    }
  }

  lemma MoverSession(s: State, t: nat, m: Move)
    requires Enabled(s, InPool(t, m)) && SessionFits(s, t) && Placed(s.threads[t].pc, s.pool.status[t])
    requires m.Pop? ==> Ready(s, s.pool.idle[|s.pool.idle| - 1])
    ensures SessionFits(Effect(s, InPool(t, m)), t)
  {
    hide Work;
  }

  lemma OtherSession(s: State, t: nat, m: Move, u: nat)
    requires Enabled(s, InPool(t, m)) && u in s.threads && u in s.pool.status && u != t && SessionFits(s, u)
    ensures SessionFits(Effect(s, InPool(t, m)), u)
  {
    MoveFrame(s.pool, t, m, u);
    hide Work, Go, Can;
  }

  lemma IdleReady(s: State, t: nat, m: Move, c: nat)
    requires Enabled(s, InPool(t, m)) && SessionFits(s, t) && Placed(s.threads[t].pc, s.pool.status[t])
    requires c in s.pool.idle ==> Ready(s, c)
    ensures var s' := Effect(s, InPool(t, m)); c in s'.pool.idle ==> Ready(s', c)
  {
    hide Work;
  }

  lemma PoolMoveSessions(s: State, t: nat, m: Move)
    requires SessionsOk(s) && ThreadsPlaced(s) && Enabled(s, InPool(t, m))
    ensures SessionsOk(Effect(s, InPool(t, m)))
  {
    hide Work, Go, Placed, SessionFits, Ready;
    var s' := Effect(s, InPool(t, m));
    assert SessionFits(s, t) && Placed(s.threads[t].pc, s.pool.status[t]);
    if m.Pop? {
      assert s.pool.idle[|s.pool.idle| - 1] in s.pool.idle;
    }
    forall u | u in s'.threads ensures SessionFits(s', u) {
      assert SessionFits(s, u);
      if u == t { MoverSession(s, t, m); } else { OtherSession(s, t, m, u); }
    }
    forall c | c in s'.pool.idle ensures Ready(s', c) {
      IdleReady(s, t, m, c);
    }
  }

  lemma StampSessions(s: State)
    requires SessionsOk(s)
    ensures SessionsOk(Stamp(s))
  {
    forall u | u in Stamp(s).threads ensures SessionFits(Stamp(s), u) { assert SessionFits(s, u); }
    forall c | c in Stamp(s).pool.idle ensures Ready(Stamp(s), c) { assert Ready(s, c); }
  }

  /** New connections have nothing unread. */
  lemma RestartSessions(s: State, idle: seq<nat>)
    requires Enabled(s, Restart(idle))
    ensures SessionsOk(Effect(s, Restart(idle)))
  {
    hide Work;
  }

  /** Steps of the environment use no connection. */
  lemma QuietSessions(s: State, e: Event)
    requires SessionsOk(s) && Enabled(s, e) && !e.AtWork? && !e.InPool? && !e.Restart?
    ensures SessionsOk(Effect(s, e))
  {
    hide Work;
    var s' := Effect(s, e);
    forall u | u in s'.threads ensures SessionFits(s', u) {
      if u in s.threads { assert SessionFits(s, u); }
    }
    forall c | c in s'.pool.idle ensures Ready(s', c) { assert Ready(s, c); }
  }

  lemma StepSessions(s: State, e: Event)
    requires Inv(s) && Enabled(s, e)
    ensures SessionsOk(Step(s, e))
  {
    assert Exclusive(s.pool);
    hide Work, PoolInv, LedgerOk, CellsOk, SessionsOk, WritersOk, PcOk, ThreadsPlaced, CanWork, Exclusive;
    match e {
      case AtWork(t, k) => WorkSessions(s, t, k);
      case InPool(t, m) => PoolMoveSessions(s, t, m);
      case Restart(idle) => RestartSessions(s, idle);
      case _ => QuietSessions(s, e);
    }
    StampSessions(Effect(s, e));
  }

  // ---------- Writers and the index ----------

  lemma WorkWriters(s: State, t: nat, k: Luck)
    requires WritersOk(s.ledger.rows, s.ledger.writers, s.threads) && CanWork(s, t) && LuckFits(s, t, k)
    requires ThreadOk(WorldOf(s), t, s.threads[t])
    ensures WritersOk(Work(s, t, k).ledger.rows, Work(s, t, k).ledger.writers, Work(s, t, k).threads)
  {
    WorkRows(s, t, k);
    hide Work, SessionFits;
  }

  lemma PoolMoveWriters(s: State, t: nat, m: Move)
    requires WritersOk(s.ledger.rows, s.ledger.writers, s.threads) && Enabled(s, InPool(t, m))
    ensures WritersOk(s.ledger.rows, s.ledger.writers, Effect(s, InPool(t, m)).threads)
  {
    hide Work, Can, Go;
  }

  lemma ArriveWriters(s: State, t: nat, call: Call)
    requires WritersOk(s.ledger.rows, s.ledger.writers, s.threads) && Enabled(s, Arrive(t, call))
    ensures WritersOk(s.ledger.rows, s.ledger.writers, Effect(s, Arrive(t, call)).threads)
  {
    hide Work;
  }

  lemma RestartWriters(s: State, idle: seq<nat>)
    requires WritersOk(s.ledger.rows, s.ledger.writers, s.threads) && Enabled(s, Restart(idle))
    ensures WritersOk(s.ledger.rows, s.ledger.writers, Effect(s, Restart(idle)).threads)
  {
    hide Work;
  }

  lemma StepWriters(s: State, e: Event)
    requires Inv(s) && Enabled(s, e)
    ensures WritersOk(Step(s, e).ledger.rows, Step(s, e).ledger.writers, Step(s, e).threads)
    ensures forall k :: k in Step(s, e).index ==> k.ListKey?
  {
    hide Work, PoolInv, LedgerOk, CellsOk, SessionsOk, PcOk, ThreadsPlaced, SessionFits, WritersOk, Can, Go, PcAdvances;
    match e {
      case AtWork(t, k) => WorkWriters(s, t, k);
      case InPool(t, m) => PoolMoveWriters(s, t, m);
      case Arrive(t, call) => ArriveWriters(s, t, call);
      case Restart(idle) => RestartWriters(s, idle);
      case _ =>
    }
  }

  // ---------- Threads and cells ----------

  lemma WorkerThread(s: State, t: nat, k: Luck)
    requires Inv(s) && CanWork(s, t) && LuckFits(s, t, k)
    ensures ThreadOk(WorldOf(Stamp(Work(s, t, k))), t, Work(s, t, k).threads[t])
  {
    assert Backed(s, t) && SessionsOk(s);
    hide Work, PoolInv, LedgerOk, CellsOk, WritersOk, ThreadsPlaced, SessionFits, Placed, PcOk, PcAdvances;
    WorkThreadOk(s, t, k);
    StampKeeps(Work(s, t, k), t);
  }

  /** Returning the guard changes the code position, not what is known. */
  lemma PoolMoveThread(w: World, t: nat, th: Thread)
    requires ThreadOk(w, t, th) && (th.pc.Returning? || th.pc.ReturningTotal?)
    ensures ThreadOk(w, t, th.(pc := AfterGuard(th.pc)))
  {
    if th.pc.Returning? { AnswerSame(w, t, th, th.(pc := AfterGuard(th.pc)), th.pc.answer); }
  }

  lemma AnswerSame(w: World, t: nat, th: Thread, th': Thread, a: Answer)
    requires AnswerOk(w, t, th, a) && th'.call == th.call && th'.startAt == th.startAt
    ensures AnswerOk(w, t, th', a)
  {
  }

  lemma ArrivedThread(w: World, now: nat, t: nat, call: Call)
    requires LedgerOk(w.ledger, now) && CleanCall(call)
    ensures ThreadOk(w, t, Thread(call, |w.ledger.past| - 1, if call.Stats? then Probing else Counting))
  {
  }

  lemma CrashedThread(w: World, t: nat, th: Thread)
    requires ThreadOk(w, t, th)
    ensures ThreadOk(w, t, Crash(th))
  {
  }

  lemma InvFacts(s: State)
    requires Inv(s)
    ensures LedgerOk(s.ledger, s.now) && CellsOk(WorldOf(s), s.cells, s.origins) && CacheState.Resolves(s.resolve)
    ensures CurrentMoment(s) == |s.ledger.past| - 1
    ensures forall t :: t in s.threads ==> ThreadOk(WorldOf(s), t, s.threads[t])
  {
    hide ThreadOk, PoolInv, CellsOk, SessionsOk, WritersOk;
  }

  /** Everybody but a thread at work: nothing, or the return of the guard, or arrival, or the end of the process. */
  lemma QuietThread(s: State, e: Event, u: nat)
    requires Inv(s) && Enabled(s, e) && u in Effect(s, e).threads && (e.AtWork? ==> u != e.tid)
    ensures ThreadOk(WorldOf(s), u, Effect(s, e).threads[u])
  {
    hide Inv, Work, ThreadOk, LedgerOk, PcAdvances, Can, Go, AfterGuard, Crash;
    InvFacts(s);
    if u in s.threads {
      if e.InPool? && e.tid == u && e.move.GiveBack? {
        PoolMoveThread(WorldOf(s), u, s.threads[u]);
      } else if e.Restart? {
        CrashedThread(WorldOf(s), u, s.threads[u]);
      }
    } else {
      ArrivedThread(WorldOf(s), s.now, u, e.call);
    }
  }

  lemma StepThreads(s: State, e: Event, u: nat)
    requires Inv(s) && Enabled(s, e) && u in Step(s, e).threads
    ensures ThreadOk(WorldOf(Step(s, e)), u, Step(s, e).threads[u])
  {
    hide Work, Inv, ThreadOk, GrowsTo, Can, Go, AfterGuard, CanWork, Local;
    if e.AtWork? && u == e.tid {
      WorkerThread(s, u, e.luck);
    } else {
      QuietThread(s, e, u);
      StepLedger(s, e);
      ThreadKept(WorldOf(s), WorldOf(Step(s, e)), u, Effect(s, e).threads[u]);
    }
  }

  lemma StampKeeps(s: State, t: nat)
    requires t in s.threads && ThreadOk(WorldOf(s), t, s.threads[t])
    ensures ThreadOk(WorldOf(Stamp(s)), t, s.threads[t])
  {
    ThreadKept(WorldOf(s), WorldOf(Stamp(s)), t, s.threads[t]);
  }

  lemma StampGrows(s: State)
    ensures GrowsTo(WorldOf(s), WorldOf(Stamp(s)))
  {
  }

  lemma StepCells(s: State, e: Event)
    requires Inv(s) && Enabled(s, e)
    ensures CellsOk(WorldOf(Step(s, e)), Step(s, e).cells, Step(s, e).origins)
  {
    hide Inv, Work, LedgerOk, CellOk, ThreadOk, GrowsTo, Can, Go;
    StepLedger(s, e);
    InvFacts(s);
    var s1, s' := Effect(s, e), Step(s, e);
    if e.AtWork? {
      StampGrows(s1);
      WorkCellsOk(s, e.tid, e.luck);
      CellsGrow(WorldOf(s1), WorldOf(s'), s1.cells, s1.origins);
    } else {
      CellsGrow(WorldOf(s), WorldOf(s'), s.cells, s.origins);
    }
  }

  /** Every step of every thread and of the environment keeps the whole invariant. */
  lemma StepOk(s: State, e: Event)
    requires Inv(s) && Enabled(s, e)
    ensures Inv(Step(s, e))
  {
    StepLedger(s, e);
    StepPool(s, e);
    StepPlaced(s, e);
    StepSessions(s, e);
    StepWriters(s, e);
    StepCells(s, e);
    var s' := Step(s, e);
    forall u | u in s'.threads ensures ThreadOk(WorldOf(s'), u, s'.threads[u]) {
      StepThreads(s, e, u);
    }
    hide Step, PoolInv, LedgerOk, WritersOk, ThreadsPlaced, SessionsOk, CellsOk, ThreadOk, CacheState.Resolves;
  }

  // ---------- Runs ----------

  lemma RunStep(tr: seq<State>, es: seq<Event>, i: nat)
    requires Run(tr, es) && i < |es|
    ensures |tr| == |es| + 1 && Enabled(tr[i], es[i]) && tr[i + 1] == Step(tr[i], es[i])
  {
  }

  /** The invariant holds in every state of every run. */
  lemma {:induction false} RunInv(tr: seq<State>, es: seq<Event>, i: nat)
    requires Run(tr, es) && i < |tr|
    ensures Inv(tr[i])
  {
    hide Inv, Step, Enabled;
    if i == 0 {
      InitOk(tr[0]);
    } else {
      RunInv(tr, es, i - 1);
      StepOk(tr[i - 1], es[i - 1]);
    }
  }

  /** The history of the i-th state lists exactly the clocks and table sizes of the states up to it. */
  lemma {:induction false} RunHistory(tr: seq<State>, es: seq<Event>, i: nat)
    requires Run(tr, es) && i < |tr|
    ensures |tr[i].ledger.past| == i + 1
    ensures forall j :: 0 <= j <= i ==> tr[i].ledger.past[j] == Moment(tr[j].now, |tr[j].ledger.rows|)
  {
    hide Inv, Enabled, Step;
    if i > 0 {
      RunHistory(tr, es, i - 1);
      RunInv(tr, es, i - 1);
      StepLedger(tr[i - 1], es[i - 1]);
    }
  }

  /** Along a run the world only grows: earlier tables are prefixes of later ones. */
  lemma {:induction false} RunGrows(tr: seq<State>, es: seq<Event>, i: nat, j: nat)
    requires Run(tr, es) && i <= j < |tr|
    ensures GrowsTo(WorldOf(tr[i]), WorldOf(tr[j]))
    decreases j - i
  {
    hide Inv, Enabled, Step;
    if i < j {
      RunGrows(tr, es, i, j - 1);
      RunInv(tr, es, j - 1);
      StepLedger(tr[j - 1], es[j - 1]);
    }
  }
}
