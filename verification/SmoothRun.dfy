/**
 Runs in which nothing fails and no key is lost, put together from undisturbed
 pieces of single calls; time passes between the pieces.
 */
module SmoothRun {
  import opened Prelude
  import opened Users
  import opened Json
  import opened Redis
  import opened Keys
  import opened PoolProtocol
  import opened System
  import opened SystemInv
  import opened SystemKept
  import opened Consistency
  import SystemSteps
  import Service
  import Decimal

  /** Everything goes well. */
  const Fortune: Luck := Luck(true, true, 0, 0, [])

  function Last(tr: seq<State>): State
    requires |tr| > 0
  {
    tr[|tr| - 1]
  }

  /** A state without its list of moments. */
  function Bare(s: State): State {
    s.(ledger := s.ledger.(past := []))
  }

  /** Nothing fails in this step, and no key is lost. */
  predicate Calm(e: Event) {
    e.Tick? || e.Arrive? || (e.AtWork? && e.luck.ok && e.luck.applied) || (e.InPool? && !e.move.WakeUp?)
  }

  ghost predicate Smooth(tr: seq<State>, es: seq<Event>) {
    Run(tr, es) && |tr| > 0 && forall i :: 0 <= i < |es| ==> Calm(es[i])
  }

  /** A longer run. */
  ghost predicate Continues(tr: seq<State>, tr': seq<State>, es': seq<Event>) {
    Smooth(tr', es') && 0 < |tr| && tr <= tr'
  }

  lemma Extend(tr: seq<State>, es: seq<Event>, e: Event) returns (tr': seq<State>, es': seq<Event>)
    requires Smooth(tr, es) && Enabled(Last(tr), e) && Calm(e)
    ensures Continues(tr, tr', es') && Last(tr') == Step(Last(tr), e) && |tr'| == |tr| + 1
  {
    hide Init, Enabled, Step;
    tr', es' := tr + [Step(Last(tr), e)], es + [e];
  }

  /** Time passes. */
  lemma Waits(tr: seq<State>, es: seq<Event>, ms: nat) returns (tr': seq<State>, es': seq<Event>)
    requires Smooth(tr, es)
    ensures Continues(tr, tr', es') && |tr'| == |tr| + 1
    ensures Bare(Last(tr')) == Bare(Last(tr)).(now := Last(tr).now + ms)
  {
    hide Smooth, Work, Can, Go;
    tr', es' := Extend(tr, es, Tick(ms));
  }

  // ---------- Moves in the pool ----------

  /** A move in the pool changes nothing else, unless it returns a guard. */
  lemma Moves(tr: seq<State>, es: seq<Event>, t: nat, m: Move) returns (tr': seq<State>, es': seq<Event>)
    requires Smooth(tr, es) && Can(Last(tr).pool, t, m) && t in Last(tr).threads && !m.GiveBack? && !m.WakeUp?
    requires m.Enter? ==> WantsConn(Last(tr).threads[t].pc)
    ensures Continues(tr, tr', es') && Bare(Last(tr')) == Bare(Last(tr)).(pool := Go(Last(tr).pool, t, m))
  {
    hide Smooth, Work, Can, Go;
    tr', es' := Extend(tr, es, InPool(t, m));
  }

  predicate CanAcquire(p: Pool, t: nat) {
    t in p.status && p.status[t].Out? && p.owner.None? && p.idle != []
  }

  function Acquired(p: Pool, t: nat): Pool
    requires CanAcquire(p, t)
  {
    p.(idle := p.idle[..|p.idle| - 1], status := p.status[t := Holding(p.idle[|p.idle| - 1])])
  }

  lemma AcquireMoves(p: Pool, t: nat)
    requires CanAcquire(p, t)
    ensures Can(p, t, Enter) && Can(Go(p, t, Enter), t, Lock)
    ensures var p2 := Go(Go(p, t, Enter), t, Lock);
            Can(p2, t, Pop) && Can(Go(p2, t, Pop), t, Unlock) && Go(Go(p2, t, Pop), t, Unlock) == Acquired(p, t)
  {
  }

  /** An undisturbed acquire. */
  lemma Acquires(tr: seq<State>, es: seq<Event>, t: nat) returns (tr': seq<State>, es': seq<Event>)
    requires Smooth(tr, es) && t in Last(tr).threads && WantsConn(Last(tr).threads[t].pc)
    requires CanAcquire(Last(tr).pool, t)
    ensures Continues(tr, tr', es')
    ensures Bare(Last(tr')) == Bare(Last(tr)).(pool := Acquired(Last(tr).pool, t))
  {
    AcquireMoves(Last(tr).pool, t);
    hide Smooth, Can, Go, Acquired, CanAcquire;
    tr', es' := Moves(tr, es, t, Enter);
    tr', es' := Moves(tr', es', t, Lock);
    tr', es' := Moves(tr', es', t, Pop);
    tr', es' := Moves(tr', es', t, Unlock);
  }

  lemma GivesBack(tr: seq<State>, es: seq<Event>, t: nat) returns (tr': seq<State>, es': seq<Event>)
    requires Smooth(tr, es) && t in Last(tr).threads && Last(tr).threads[t].pc.Returning?
    requires Can(Last(tr).pool, t, GiveBack)
    ensures Continues(tr, tr', es')
    ensures var s := Last(tr);
            Bare(Last(tr')) == Bare(GoTo(s, t, Done(s.threads[t].pc.answer))).(pool := Go(s.pool, t, GiveBack))
  {
    hide Smooth, Work, Can, Go;
    tr', es' := Extend(tr, es, InPool(t, GiveBack));
  }

  predicate CanRelease(p: Pool, t: nat) {
    t in p.status && p.status[t].Holding? && p.owner.None? && !AnyAsleep(p)
  }

  function Released(p: Pool, t: nat): Pool
    requires CanRelease(p, t)
  {
    p.(idle := p.idle + [p.status[t].conn], status := p.status[t := Out])
  }

  lemma ReleaseMoves(p: Pool, t: nat)
    requires CanRelease(p, t)
    ensures Can(p, t, GiveBack) && Can(Go(p, t, GiveBack), t, LockBack)
    ensures var p2 := Go(Go(p, t, GiveBack), t, LockBack);
            Can(p2, t, Push) && Can(Go(p2, t, Push), t, NotifyOne(None))
    ensures var p4 := Go(Go(Go(Go(p, t, GiveBack), t, LockBack), t, Push), t, NotifyOne(None));
            Can(p4, t, Leave) && Go(p4, t, Leave) == Released(p, t)
  {
  }

  /** The guard of a finished call goes back undisturbed. */
  lemma Releases(tr: seq<State>, es: seq<Event>, t: nat) returns (tr': seq<State>, es': seq<Event>)
    requires Smooth(tr, es) && t in Last(tr).threads && Last(tr).threads[t].pc.Returning?
    requires CanRelease(Last(tr).pool, t)
    ensures Continues(tr, tr', es')
    ensures var s := Last(tr);
            Bare(Last(tr')) == Bare(GoTo(s, t, Done(s.threads[t].pc.answer))).(pool := Released(s.pool, t))
  {
    ReleaseMoves(Last(tr).pool, t);
    hide Smooth, Can, Go, Released, CanRelease;
    tr', es' := GivesBack(tr, es, t);
    tr', es' := Moves(tr', es', t, LockBack);
    tr', es' := Moves(tr', es', t, Push);
    tr', es' := Moves(tr', es', t, NotifyOne(None));
    tr', es' := Moves(tr', es', t, Leave);
  }

  // ---------- Work ----------

  lemma Works(tr: seq<State>, es: seq<Event>, t: nat) returns (tr': seq<State>, es': seq<Event>)
    requires Smooth(tr, es) && CanWork(Last(tr), t) && LuckFits(Last(tr), t, Fortune)
    ensures Continues(tr, tr', es') && Last(tr') == Stamp(Work(Last(tr), t, Fortune))
  {
    hide Smooth, Work, CanWork, LuckFits;
    tr', es' := Extend(tr, es, AtWork(t, Fortune));
  }

  /** Thread t has worked; everybody else and the pool are as before. */
  ghost predicate Worked(s: State, s': State, t: nat) {
    && s'.now == s.now && s'.pool == s.pool && s'.resolve == s.resolve
    && t in s.threads && t in s'.threads && s'.threads == s.threads[t := s.threads[t].(pc := s'.threads[t].pc)]
  }

  /** Nor has it changed the table or the cache. */
  ghost predicate WorkedQuietly(s: State, s': State, t: nat) {
    Worked(s, s', t) && s'.ledger.rows == s.ledger.rows && s'.cells == s.cells && s'.index == s.index
  }

  lemma SelectsCount(s: State, t: nat)
    requires CanWork(s, t) && s.threads[t].pc.CountingRows? && Ready(s, ConnOf(s, t))
    ensures LuckFits(s, t, Fortune) && CanWork(Stamp(Work(s, t, Fortune)), t)
    ensures var s' := Stamp(Work(s, t, Fortune));
            WorkedQuietly(s, s', t) && s'.threads[t].pc == FetchingCount(|s.ledger.rows|, CurrentMoment(s))
  {
    hide PcAdvances, SessionFits;
  }

  lemma FetchesCount(s: State, t: nat)
    requires CanWork(s, t) && s.threads[t].pc.FetchingCount? && s.threads[t].pc.n <= Decimal.INT64_MAX
    ensures LuckFits(s, t, Fortune) && CanWork(Stamp(Work(s, t, Fortune)), t)
    ensures var s', pc := Stamp(Work(s, t, Fortune)), s.threads[t].pc;
            && WorkedQuietly(s, s', t)
            && s'.threads[t].pc
               == if s.threads[t].call.Browse? then SelectingPage(pc.n, pc.at) else FillingTotal(pc.n, pc.at)
  {
    hide PcAdvances, SessionFits, FetchCount;
    CountArrives(s, t);
  }

  lemma CountArrives(s: State, t: nat)
    requires CanWork(s, t) && s.threads[t].pc.FetchingCount? && s.threads[t].pc.n <= Decimal.INT64_MAX
    ensures var s', pc := FetchCount(s, t, Fortune), s.threads[t].pc;
            && s'.index == s.index && t in s'.threads
            && s'.threads[t].pc
               == if s.threads[t].call.Browse? then SelectingPage(pc.n, pc.at) else FillingTotal(pc.n, pc.at)
  {
    Decimal.StrtollRoundTrip(s.threads[t].pc.n);
    hide Local, Decimal.Strtoll, Decimal.Text;
  }

  lemma SelectsPage(s: State, t: nat)
    requires CanWork(s, t) && s.threads[t].pc.SelectingPage? && Ready(s, ConnOf(s, t))
    ensures LuckFits(s, t, Fortune) && CanWork(Stamp(Work(s, t, Fortune)), t)
    ensures var s', pc := Stamp(Work(s, t, Fortune)), s.threads[t].pc;
            && WorkedQuietly(s, s', t)
            && s'.threads[t].pc
               == FetchingPage(pc.total, pc.countAt, CallPage(s.ledger.rows, s.threads[t].call), CurrentMoment(s))
  {
    hide PcAdvances, SessionFits;
  }

  lemma FetchesPage(s: State, t: nat)
    requires CanWork(s, t) && s.threads[t].pc.FetchingPage?
    ensures LuckFits(s, t, Fortune) && CanWork(Stamp(Work(s, t, Fortune)), t)
    ensures var s', pc := Stamp(Work(s, t, Fortune)), s.threads[t].pc;
            && WorkedQuietly(s, s', t)
            && s'.threads[t].pc == FillingList(Listing(ReadUsers(pc.page), pc.total), pc.countAt, pc.pageAt)
  {
    hide PcAdvances, SessionFits;
  }

  /** A connection that a thread is about to use is ready. */
  lemma ReadyNow(tr: seq<State>, es: seq<Event>, t: nat)
    requires Smooth(tr, es) && CanWork(Last(tr), t) && Sends(Last(tr).threads[t].pc)
    ensures Ready(Last(tr), ConnOf(Last(tr), t))
  {
    NeverOutOfSync(tr, es, |tr| - 1, t);
  }

  lemma RowsNow(tr: seq<State>, es: seq<Event>)
    requires Smooth(tr, es)
    ensures var rows := Last(tr).ledger.rows; Ordered(rows) && NulFreeRows(rows) && |rows| <= Decimal.INT64_MAX
  {
    RunInv(tr, es, |tr| - 1);
    CountFits(Last(tr).ledger.rows);
  }

  lemma LoadsCount(tr: seq<State>, es: seq<Event>, t: nat) returns (tr': seq<State>, es': seq<Event>)
    requires |tr| > 0 && Smooth(tr, es)
    requires CanWork(Last(tr), t) && Last(tr).threads[t].pc.CountingRows?
    ensures Continues(tr, tr', es') && WorkedQuietly(Last(tr), Last(tr'), t) && CanWork(Last(tr'), t)
    ensures var pc := Last(tr').threads[t].pc;
            && (if Last(tr).threads[t].call.Browse? then pc.SelectingPage? else pc.FillingTotal?)
            && pc.total == |Last(tr).ledger.rows|
  {
    hide Smooth, Work, Stamp, Ready, LuckFits, ConnOf, CanWork;
    RowsNow(tr, es);
    ReadyNow(tr, es, t);
    SelectsCount(Last(tr), t);
    tr', es' := Works(tr, es, t);
    FetchesCount(Last(tr'), t);
    tr', es' := Works(tr', es', t);
  }

  lemma LoadsPage(tr: seq<State>, es: seq<Event>, t: nat) returns (tr': seq<State>, es': seq<Event>)
    requires |tr| > 0 && Smooth(tr, es) && CanWork(Last(tr), t) && Last(tr).threads[t].pc.SelectingPage?
    ensures Continues(tr, tr', es') && WorkedQuietly(Last(tr), Last(tr'), t)
    ensures var th, th' := Last(tr).threads[t], Last(tr').threads[t];
            && th'.call.Browse? && th'.pc.FillingList?
            && th'.pc.listing == Listing(ReadUsers(CallPage(Last(tr).ledger.rows, th'.call)), th.pc.total)
  {
    hide Smooth, Work, Stamp, Ready, LuckFits, ConnOf;
    ReadyNow(tr, es, t);
    SelectsPage(Last(tr), t);
    tr', es' := Works(tr, es, t);
    FetchesPage(Last(tr'), t);
    tr', es' := Works(tr', es', t);
  }

  /** The thread has counted, and read its page if it lists, and has not yet SET what it found in `rows`. */
  predicate Poised(th: Thread, rows: seq<Row>) {
    && Ordered(rows)
    && ((th.call.Browse? && th.pc.FillingList? && th.pc.listing == FreshFor(rows, th.call))
        || (th.call.Stats? && th.pc.FillingTotal? && th.pc.total == |rows|))
  }

  /** A reader that has its guard gets there undisturbed. */
  lemma Loads(tr: seq<State>, es: seq<Event>, t: nat) returns (tr': seq<State>, es': seq<Event>)
    requires |tr| > 0 && Smooth(tr, es)
    requires CanWork(Last(tr), t) && Last(tr).threads[t].pc.CountingRows?
    ensures Continues(tr, tr', es') && WorkedQuietly(Last(tr), Last(tr'), t)
    ensures Poised(Last(tr').threads[t], Last(tr).ledger.rows)
  {
    var call, rows := Last(tr).threads[t].call, Last(tr).ledger.rows;
    RowsNow(tr, es);
    assert call.Browse? || call.Stats?;
    hide Smooth, CanWork, ReadUsers;
    tr', es' := LoadsCount(tr, es, t);
    if call.Browse? {
      SystemSteps.ReadPage(rows, Service.PageLimit(call.limit), Service.PageOffset(call.offset));
      tr', es' := LoadsPage(tr', es', t);
    }
  }

  // ---------- The writer ----------

  lemma Inserts(s: State, t: nat)
    requires CanWork(s, t) && s.threads[t].pc.Inserting? && Ready(s, ConnOf(s, t))
    requires LastId(s.ledger.rows) < Decimal.INT64_MAX
    ensures LuckFits(s, t, Fortune) && CanWork(Stamp(Work(s, t, Fortune)), t)
    ensures var s' := Stamp(Work(s, t, Fortune));
            && Worked(s, s', t) && s'.index == s.index
            && s.ledger.rows < s'.ledger.rows && |s'.ledger.rows| == |s.ledger.rows| + 1 && s'.threads[t].pc.ReadingId?
  {
    hide PcAdvances, SessionFits;
  }

  /** From reading its id to the end, a writer of an empty index only drops keys. */
  predicate Upkeep(pc: Pc) {
    pc.ReadingId? || pc.Priming? || pc.Enumerating? || (pc.Deleting? && pc.keys == []) || pc.DroppingTotal?
  }

  lemma Maintains(s: State, t: nat)
    requires CanWork(s, t) && Upkeep(s.threads[t].pc) && s.index == {}
    ensures LuckFits(s, t, Fortune)
    ensures var s' := Stamp(Work(s, t, Fortune));
            && Worked(s, s', t) && s'.index == {} && s'.ledger.rows == s.ledger.rows
            && var pc, pc' := s.threads[t].pc, s'.threads[t].pc;
               (pc.DroppingTotal? ==> pc'.Returning? && pc'.answer.Created?)
               && (!pc.DroppingTotal? ==> Upkeep(pc') && Rank(pc') < Rank(pc) && CanWork(s', t))
  {
    hide PcAdvances, SessionFits;
  }

  lemma {:induction false} MaintainsAll(tr: seq<State>, es: seq<Event>, t: nat)
      returns (tr': seq<State>, es': seq<Event>)
    requires |tr| > 0 && Smooth(tr, es) && CanWork(Last(tr), t) && Upkeep(Last(tr).threads[t].pc)
    requires Last(tr).index == {}
    ensures Continues(tr, tr', es') && Worked(Last(tr), Last(tr'), t)
    ensures Last(tr').index == {} && Last(tr').ledger.rows == Last(tr).ledger.rows
    ensures Last(tr').threads[t].pc.Returning? && Last(tr').threads[t].pc.answer.Created?
    decreases Rank(Last(tr).threads[t].pc)
  {
    hide Smooth, Work, Stamp, LuckFits, Rank;
    Maintains(Last(tr), t);
    tr', es' := Works(tr, es, t);
    if !Last(tr).threads[t].pc.DroppingTotal? {
      tr', es' := MaintainsAll(tr', es', t);
    }
  }

  // ---------- Arriving, counting, probing, filling ----------

  /** The call passes the validation of its RPC. */
  predicate Valid(call: Call) {
    CleanCall(call) && (call.Create? ==> call.name != "") && (call.Fetch? ==> call.id != "")
  }

  lemma Arrives(tr: seq<State>, es: seq<Event>, t: nat, call: Call) returns (tr': seq<State>, es': seq<Event>)
    requires Smooth(tr, es) && t !in Last(tr).threads && t !in Last(tr).pool.status
    requires CleanCall(call)
    ensures Continues(tr, tr', es')
    ensures var s := Last(tr);
            && Bare(Last(tr'))
               == Bare(s).(threads :=
                             s.threads[t := Thread(call, CurrentMoment(s), if call.Stats? then Probing else Counting)],
                           pool := Join(s.pool, t))
            && CanWork(Last(tr'), t)
  {
    hide Smooth, Work;
    tr', es' := Extend(tr, es, Arrive(t, call));
  }

  /** The counter is as far from its limit as at the start, but for the calls that arrived. */
  lemma CounterRoom(tr: seq<State>, es: seq<Event>)
    requires Smooth(tr, es) && |Last(tr).threads| <= 3
    requires Counter(tr[0].cells, tr[0].now, RequestsKey) < Decimal.INT64_MAX - 3
    ensures Countable(Last(tr).cells, Last(tr).now, RequestsKey)
  {
    RequestsConserved(tr, es, |tr| - 1);
    FewCounted(Last(tr).threads);
    RunInv(tr, es, |tr| - 1);
    CounterIsCount(Last(tr));
  }

  lemma CounterIsCount(s: State)
    requires Inv(s)
    ensures RequestsKey in s.cells ==> IsCount(s.cells[RequestsKey].value)
  {
    if RequestsKey in s.cells {
      assert CellOk(WorldOf(s), RequestsKey, s.cells[RequestsKey], OriginOf(s, RequestsKey));
    }
  }

  lemma FewCounted(threads: map<nat, Thread>)
    ensures |CountedCalls(threads)| <= |threads|
  {
    assert CountedCalls(threads) <= threads.Keys;
    SubsetSize(CountedCalls(threads), threads.Keys);
  }

  lemma {:induction false} SubsetSize(a: set<nat>, b: set<nat>)
    requires a <= b
    ensures |a| <= |b|
  {
    if x :| x in a {
      SubsetSize(a - {x}, b - {x});
    }
  }

  lemma Counts(s: State, t: nat)
    requires CanWork(s, t) && s.threads[t].pc.Counting? && Countable(s.cells, s.now, RequestsKey)
    requires Valid(s.threads[t].call)
    ensures LuckFits(s, t, Fortune)
    ensures var s' := Stamp(Work(s, t, Fortune));
            && Worked(s, s', t) && s'.ledger.rows == s.ledger.rows && s'.index == s.index
            && s'.cells == Increment(s.cells, s.now, RequestsKey)
            && s'.threads[t].pc == if s.threads[t].call.Create? then Inserting(0) else Probing
  {
    hide PcAdvances, SessionFits, Increment, Countable;
  }

  lemma ProbesCold(s: State, t: nat)
    requires CanWork(s, t) && s.threads[t].pc.Probing? && ProbeKey(s.threads[t].call) !in s.cells
    ensures LuckFits(s, t, Fortune)
    ensures var s' := Stamp(Work(s, t, Fortune));
            WorkedQuietly(s, s', t) && s'.threads[t].pc == if s.threads[t].call.Fetch? then Selecting else CountingRows
  {
    hide PcAdvances, SessionFits;
  }

  /** A call arrives and gets past its counting step. */
  lemma Begins(tr: seq<State>, es: seq<Event>, t: nat, call: Call) returns (tr': seq<State>, es': seq<Event>)
    requires |tr| > 0 && Smooth(tr, es) && t !in Last(tr).threads && t !in Last(tr).pool.status
    requires |Last(tr).threads| <= 2
    requires Valid(call)
    requires Counter(tr[0].cells, tr[0].now, RequestsKey) < Decimal.INT64_MAX - 3
    ensures Continues(tr, tr', es')
    ensures var s, s' := Last(tr), Last(tr');
            && s'.now == s.now && s'.pool == Join(s.pool, t) && s'.ledger.rows == s.ledger.rows && s'.index == s.index
            && s'.resolve == s.resolve
            && s'.cells == (if call.Stats? then s.cells else Increment(s.cells, s.now, RequestsKey))
            && t in s'.threads && s'.threads == s.threads[t := s'.threads[t]] && s'.threads[t].call == call
            && s'.threads[t].pc == if call.Create? then Inserting(0) else Probing
  {
    hide Smooth, Work, Stamp, LuckFits, Counter, Increment, CanWork, Join;
    tr', es' := Arrives(tr, es, t, call);
    if !call.Stats? {
      CounterRoom(tr', es');
      Counts(Last(tr'), t);
      tr', es' := Works(tr', es', t);
    }
  }

  /** Counting a request touches no other key. */
  lemma CountedElsewhere(cells: map<Key, Entry>, now: nat, k: Key)
    requires k != RequestsKey
    ensures Visible(Increment(cells, now, RequestsKey), now, k) == Visible(cells, now, k)
  {
  }
}
