/**
 When the TTL alone bounds the age of a list or a total: exactly when the pool
 has at most one connection.  Nobody can then INSERT between a reader's COUNT
 and its SET, so that what is SET is the answer of that very moment.
 */
module TtlBound {
  import opened Prelude
  import opened Users
  import opened Redis
  import opened Keys
  import opened PoolProtocol
  import opened System
  import opened SystemInv
  import opened SystemKept
  import opened Consistency
  import opened Staleness
  import opened SmoothRun
  import opened StaleRun
  import opened OneConnection
  import Progress
  import Decimal

  // ---------- Counts of the present table ----------

  /** That moment's table has as many rows as the present one. */
  predicate IsPresent(l: Ledger, at: nat) {
    at < |l.past| && l.past[at].rows == |l.rows|
  }

  /** Whoever is going to SET something has counted the present table. */
  ghost predicate CarriersPresent(s: State) {
    forall h :: h in s.threads && CarriedCount(s.threads[h].pc).Some? ==>
      IsPresent(s.ledger, CarriedCount(s.threads[h].pc).value)
  }

  lemma WorkKeepsPresent(s: State, t: nat, k: Luck, h: nat)
    requires Inv(s) && CarriersPresent(s) && |s.pool.conns| <= 1 && CanWork(s, t) && LuckFits(s, t, k)
    requires h in s.threads && h in Work(s, t, k).threads && CarriedCount(Work(s, t, k).threads[h].pc).Some?
    ensures IsPresent(Work(s, t, k).ledger, CarriedCount(Work(s, t, k).threads[h].pc).value)
  {
    hide Inv, Work, PcAdvances, SessionFits;
    InvFacts(s);
    if s.threads[t].pc.Inserting? {
      if h == t {
        CarriedByWork(s, t, k);
      } else {
        WhoseBusiness(WorldOf(s), h, s.threads[h]);
        OneHolder(s, t, h);
      }
    } else if h == t {
      CarriedByWork(s, t, k);
    }
  }

  // ---------- Pages of the table that was counted ----------

  /** When a call that lists from the table has counted and read its page. */
  function ReadAt(pc: Pc): Option<(nat, nat)> {
    match pc
    case FetchingPage(_, c, _, p) => Some((c, p))
    case FillingList(_, c, p) => Some((c, p))
    case Indexing(_, c, p) => Some((c, p))
    case Returning(Listed(_, Direct(c, p))) => Some((c, p))
    case Done(Listed(_, Direct(c, p))) => Some((c, p))
    case _ => None
  }

  /** Both on the same table. */
  predicate OneTable(past: seq<Moment>, pc: Pc) {
    ReadAt(pc).Some? ==>
      var (c, p) := ReadAt(pc).value; c < |past| && p < |past| && past[c].rows == past[p].rows
  }

  ghost predicate PagesMatch(s: State) {
    forall h :: h in s.threads ==> OneTable(s.ledger.past, s.threads[h].pc)
  }

  lemma PageChange(s: State, t: nat, k: Luck)
    requires CanWork(s, t) && s.threads[t].call.Browse?
    ensures var pc, r := s.threads[t].pc, ReadAt(Work(s, t, k).threads[t].pc);
            || r.None?
            || r == ReadAt(pc)
            || (pc.SelectingPage? && r == Some((pc.countAt, CurrentMoment(s))))
            || (pc.Probing? && r == Some((0, 0)))
  {
    hide Local, SessionFits, PcAdvances, StoreList, Ready, SetSession, CallPage, ReadUsers, Increment, Decimal.Text;
    hide Decimal.Strtoll;
    if s.threads[t].pc.Probing? {
      hide CountRows, FetchCount, SelectRows, FetchRows, FillList, IndexList;
    } else {
      hide Probe;
    }
  }

  lemma PagesAreBrowses(w: World, t: nat, th: Thread)
    requires ThreadOk(w, t, th)
    ensures ReadAt(th.pc).Some? ==> th.call.Browse?
  {
  }

  lemma PageByWork(s: State, t: nat, k: Luck)
    requires Inv(s) && CanWork(s, t) && LuckFits(s, t, k)
    ensures var pc, r := s.threads[t].pc, ReadAt(Work(s, t, k).threads[t].pc);
            || r.None?
            || r == ReadAt(pc)
            || (pc.SelectingPage? && r == Some((pc.countAt, CurrentMoment(s))))
            || (pc.Probing? && r == Some((0, 0)))
  {
    hide Inv, Work, ThreadOk, LuckFits;
    if s.threads[t].call.Browse? {
      PageChange(s, t, k);
    } else {
      WorkerThread(s, t, k);
      PagesAreBrowses(WorldOf(Stamp(Work(s, t, k))), t, Work(s, t, k).threads[t]);
    }
  }

  lemma WorkKeepsPages(s: State, t: nat, k: Luck, h: nat)
    requires Inv(s) && CarriersPresent(s) && PagesMatch(s) && CanWork(s, t) && LuckFits(s, t, k)
    requires h in s.threads && h in Work(s, t, k).threads
    ensures OneTable(s.ledger.past, Work(s, t, k).threads[h].pc)
  {
    hide Inv, Work, PcAdvances, SessionFits;
    InvFacts(s);
    if h == t {
      PageByWork(s, t, k);
    }
  }

  // ---------- Every step keeps both ----------

  ghost predicate Present(s: State) {
    CarriersPresent(s) && PagesMatch(s)
  }

  lemma StillOneTable(past: seq<Moment>, past': seq<Moment>, pc: Pc)
    requires OneTable(past, pc) && past <= past'
    ensures OneTable(past', pc)
  {
  }

  lemma WorkKeepsBoth(s: State, t: nat, k: Luck)
    requires Inv(s) && Present(s) && |s.pool.conns| <= 1 && CanWork(s, t) && LuckFits(s, t, k)
    ensures Present(Stamp(Work(s, t, k)))
  {
    hide Inv, Work, OneTable, SessionFits, LuckFits, CanWork, ReadAt, CarriedCount;
    WorkedState(s, t, k);
    WorkRowsStay(s, t, k);
    var w, s' := Work(s, t, k), Stamp(Work(s, t, k));
    forall h | h in s'.threads
      ensures OneTable(s'.ledger.past, s'.threads[h].pc)
      ensures CarriedCount(s'.threads[h].pc).Some? ==> IsPresent(s'.ledger, CarriedCount(s'.threads[h].pc).value)
    {
      WorkKeepsPages(s, t, k, h);
      StillOneTable(s.ledger.past, s'.ledger.past, s'.threads[h].pc);
      if CarriedCount(s'.threads[h].pc).Some? {
        WorkKeepsPresent(s, t, k, h);
      }
    }
  }

  lemma WorkRowsStay(s: State, t: nat, k: Luck)
    requires CanWork(s, t)
    ensures Work(s, t, k).ledger.past == s.ledger.past
  {
    hide Work, SessionFits, PcAdvances;
  }

  /** Outside of work nobody learns anything, and the table stays. */
  lemma QuietReads(s: State, e: Event, u: nat)
    requires Enabled(s, e) && !e.AtWork? && u in Step(s, e).threads
    ensures var pc' := Step(s, e).threads[u].pc;
            && (CarriedCount(pc').Some? ==> u in s.threads && CarriedCount(s.threads[u].pc) == CarriedCount(pc'))
            && (ReadAt(pc').Some? ==> u in s.threads && ReadAt(s.threads[u].pc) == ReadAt(pc'))
  {
    hide Work, Can, Go;
  }

  lemma QuietTable(s: State, e: Event)
    requires Enabled(s, e) && !e.AtWork?
    ensures s.ledger.past <= Step(s, e).ledger.past && Step(s, e).ledger.rows == s.ledger.rows
  {
    hide Work, Can, Go;
  }

  lemma QuietKeepsBoth(s: State, e: Event)
    requires Present(s) && Enabled(s, e) && !e.AtWork?
    ensures Present(Step(s, e))
  {
    hide Step, Enabled, ReadAt, CarriedCount;
    QuietTable(s, e);
    var s' := Step(s, e);
    forall h | h in s'.threads
      ensures OneTable(s'.ledger.past, s'.threads[h].pc)
      ensures CarriedCount(s'.threads[h].pc).Some? ==> IsPresent(s'.ledger, CarriedCount(s'.threads[h].pc).value)
    {
      QuietReads(s, e, h);
      if ReadAt(s'.threads[h].pc).Some? {
        StillOneTable(s.ledger.past, s'.ledger.past, s.threads[h].pc);
      }
    }
  }

  /** With one connection, every step of every thread and of the environment keeps both, whatever fails. */
  lemma StepKeepsPresent(s: State, e: Event)
    requires Inv(s) && Present(s) && |s.pool.conns| <= 1 && Enabled(s, e)
    ensures Present(Step(s, e))
  {
    hide Inv, Present, Work;
    if e.AtWork? {
      WorkKeepsBoth(s, e.tid, e.luck);
    } else {
      QuietKeepsBoth(s, e);
    }
  }

  lemma StartsPresent(tr: seq<State>, es: seq<Event>)
    requires Run(tr, es)
    ensures Present(tr[0])
  {
    assert tr[0].threads == map[];
  }

  lemma {:induction false} RunPresent(tr: seq<State>, es: seq<Event>, i: nat)
    requires Run(tr, es) && i < |tr| && |tr[0].pool.conns| <= 1
    ensures Present(tr[i]) && tr[i].pool.conns == tr[0].pool.conns
  {
    hide Run, Inv, Present, Step, Enabled, Init;
    StartsPresent(tr, es);
    RunLengths(tr, es);
    if i > 0 {
      RunPresent(tr, es, i - 1);
      RunInv(tr, es, i - 1);
      RunStep(tr, es, i - 1);
      StepKeepsPresent(tr[i - 1], es[i - 1]);
      Progress.ConnsStay(tr[i - 1], es[i - 1]);
    }
  }

  // ---------- What callers see ----------

  /**
   The answer is what the table said at a moment m that is no more than `ttl`
   older than some moment h of the call; m may well be h.
   */
  ghost predicate Recent(tr: seq<State>, j: nat, b: nat, ttl: nat)
    requires j < |tr| && HasAnswer(tr[j], b)
  {
    exists m: nat, h: nat ::
      && m <= h && Within(tr, j, b, h) && tr[h].now <= tr[m].now + ttl
      && AnsweredFrom(AnswerOf(tr[j], b), tr[j].threads[b].call, tr[m].ledger.rows)
  }

  /** Ten seconds for lists, thirty for totals. */
  function TtlOf(lists: bool): nat {
    if lists then 10_000 else 30_000
  }

  /** Every list (or, for `lists` false, every total of GetStats) is as old as its TTL at most. */
  ghost predicate AllRecent(tr: seq<State>, lists: bool) {
    forall j: nat, b: nat :: j < |tr| && HasAnswer(tr[j], b) && IsScan(AnswerOf(tr[j], b), lists) ==>
      Recent(tr, j, b, TtlOf(lists))
  }

  lemma OrderedAt(tr: seq<State>, es: seq<Event>, i: nat)
    requires Run(tr, es) && i < |tr|
    ensures Ordered(tr[i].ledger.rows)
  {
    OrderedRows(tr, es, i);
  }

  /** Between two moments with tables of one size there is but one table. */
  lemma OneTableBetween(tr: seq<State>, es: seq<Event>, c: nat, p: nat, m: nat)
    requires Run(tr, es) && c <= p <= m < |tr| && |tr[c].ledger.rows| == |tr[m].ledger.rows|
    ensures tr[c].ledger.rows == tr[p].ledger.rows == tr[m].ledger.rows
  {
    hide Run, GrowsTo;
    RunGrows(tr, es, c, p);
    RunGrows(tr, es, p, m);
    GrownRows(WorldOf(tr[c]), WorldOf(tr[p]));
    GrownRows(WorldOf(tr[p]), WorldOf(tr[m]));
  }

  /** With one connection, what a step SETs is the present table's, however the run went. */
  lemma FilledPresent(tr: seq<State>, es: seq<Event>, k: nat, h: nat)
    requires Run(tr, es) && k < |tr| && |tr[0].pool.conns| <= 1 && h in tr[k].threads
    requires CarriedCount(tr[k].threads[h].pc).Some?
    ensures var c := CarriedCount(tr[k].threads[h].pc).value; c <= k && |tr[c].ledger.rows| == |tr[k].ledger.rows|
  {
    hide Run, CarriedCount;
    RunPresent(tr, es, k);
    MomentInRun(tr, es, k, CarriedCount(tr[k].threads[h].pc).value);
  }

  /** A list from the table was counted and read on one table. */
  lemma DirectList(tr: seq<State>, es: seq<Event>, j: nat, b: nat)
    requires Run(tr, es) && j < |tr| && |tr[0].pool.conns| <= 1
    requires HasAnswer(tr[j], b) && AnswerOf(tr[j], b).Listed? && AnswerOf(tr[j], b).src.Direct?
    ensures var src := AnswerOf(tr[j], b).src;
            src.countAt <= src.pageAt <= j && |tr[src.countAt].ledger.rows| == |tr[src.pageAt].ledger.rows|
  {
    hide Run, CarriersPresent;
    RunPresent(tr, es, j);
    assert OneTable(tr[j].ledger.past, tr[j].threads[b].pc);
    var src := AnswerOf(tr[j], b).src;
    ThreadFacts(tr, es, j, b);
    MomentInRun(tr, es, j, src.countAt);
    MomentInRun(tr, es, j, src.pageAt);
  }

  /** The listing is the one of the table at m. */
  lemma ListedThen(tr: seq<State>, es: seq<Event>, j: nat, b: nat, m: nat)
    requires Run(tr, es) && j < |tr| && HasAnswer(tr[j], b) && AnswerOf(tr[j], b).Listed?
    requires var src := AnswerOf(tr[j], b).src;
             src.countAt <= src.pageAt <= m <= j && |tr[src.countAt].ledger.rows| == |tr[m].ledger.rows|
    ensures AnsweredFrom(AnswerOf(tr[j], b), tr[j].threads[b].call, tr[m].ledger.rows)
  {
    hide Run, GrowsTo;
    var src := AnswerOf(tr[j], b).src;
    OneTableBetween(tr, es, src.countAt, src.pageAt, m);
    OrderedAt(tr, es, m);
    ThreadFacts(tr, es, j, b);
    MomentInRun(tr, es, j, src.countAt);
    MomentInRun(tr, es, j, src.pageAt);
  }

  lemma ListRecent(tr: seq<State>, es: seq<Event>, j: nat, b: nat)
    requires Run(tr, es) && j < |tr| && |tr[0].pool.conns| <= 1
    requires HasAnswer(tr[j], b) && AnswerOf(tr[j], b).Listed?
    ensures Recent(tr, j, b, 10_000)
  {
    hide Run, AnsweredFrom, GrowsTo, Hit;
    var src := AnswerOf(tr[j], b).src;
    ThreadFacts(tr, es, j, b);
    if src.Direct? {
      DirectList(tr, es, j, b);
      ListedThen(tr, es, j, b, src.pageAt);
      assert Within(tr, j, b, src.pageAt);
    } else {
      HitInRun(tr, es, j, b, src);
      ListHitFilled(tr, es, src.hitAt, b, src);
      var key := PageKey(tr[j].threads[b].call);
      var entry :| ListFill(tr[src.setAt], es[src.setAt], key, entry, src.countAt, src.pageAt);
      FilledPresent(tr, es, src.setAt, es[src.setAt].tid);
      ListedThen(tr, es, j, b, src.setAt);
      MomentInRun(tr, es, j, src.setAt);
      MomentInRun(tr, es, j, src.hitAt);
      assert Within(tr, j, b, src.hitAt);
    }
  }

  lemma TotalRecent(tr: seq<State>, es: seq<Event>, j: nat, b: nat)
    requires Run(tr, es) && j < |tr| && |tr[0].pool.conns| <= 1
    requires HasAnswer(tr[j], b) && AnswerOf(tr[j], b).Totals?
    ensures Recent(tr, j, b, 30_000)
  {
    hide Run, GrowsTo, Hit;
    var src := AnswerOf(tr[j], b).src;
    ThreadFacts(tr, es, j, b);
    MomentInRun(tr, es, j, src.countAt);
    if src.Direct? {
      OrderedAt(tr, es, src.countAt);
      assert Within(tr, j, b, src.countAt);
    } else {
      HitInRun(tr, es, j, b, src);
      TotalHitFilled(tr, es, src.hitAt, b, src);
      var entry :| TotalFill(tr[src.setAt], es[src.setAt], entry, src.countAt);
      FilledPresent(tr, es, src.setAt, es[src.setAt].tid);
      MomentInRun(tr, es, j, src.setAt);
      MomentInRun(tr, es, j, src.hitAt);
      OrderedAt(tr, es, src.setAt);
      assert Within(tr, j, b, src.hitAt);
    }
  }

  /** With one connection the TTL is the bound, in every run, whatever fails and whenever the process ends. */
  lemma OneIsRecent(tr: seq<State>, es: seq<Event>, lists: bool)
    requires Run(tr, es) && |tr[0].pool.conns| <= 1
    ensures AllRecent(tr, lists)
  {
    hide Run, Recent;
    forall j: nat, b: nat | j < |tr| && HasAnswer(tr[j], b) && IsScan(AnswerOf(tr[j], b), lists)
      ensures Recent(tr, j, b, TtlOf(lists))
    {
      if lists { ListRecent(tr, es, j, b); } else { TotalRecent(tr, es, j, b); }
    }
  }

  /** An answer with the total of a table that had lost its place long before the call is too old. */
  lemma TooOld(tr: seq<State>, es: seq<Event>, i: nat, j: nat, b: nat, n: nat, ttl: nat)
    requires Run(tr, es) && i + 1 <= j < |tr| && HasAnswer(tr[j], b) && b !in tr[i + 1].threads
    requires tr[i].now + ttl < tr[i + 1].now && n < |tr[i].ledger.rows|
    requires AnswerOf(tr[j], b).Listed? ==> AnswerOf(tr[j], b).listing.total == n
    requires AnswerOf(tr[j], b).Totals? ==> AnswerOf(tr[j], b).total == n
    requires AnswerOf(tr[j], b).Listed? || AnswerOf(tr[j], b).Totals?
    ensures !Recent(tr, j, b, ttl)
  {
    hide Run, GrowsTo;
    StartsLater(tr, es, i + 1, j, b);
    forall m: nat, h: nat | m <= h && Within(tr, j, b, h)
                            && AnsweredFrom(AnswerOf(tr[j], b), tr[j].threads[b].call, tr[m].ledger.rows)
      ensures tr[m].now + ttl < tr[h].now
    {
      SizeThen(AnswerOf(tr[j], b), tr[j].threads[b].call, tr[m].ledger.rows, n);
      if m >= i {
        RunGrows(tr, es, i, m);
        GrownRows(WorldOf(tr[i]), WorldOf(tr[m]));
      }
      TimeGoesOn(tr, es, m, i);
      TimeGoesOn(tr, es, i + 1, h);
    }
  }

  lemma SizeThen(a: Answer, call: Call, rows: seq<Row>, n: nat)
    requires AnsweredFrom(a, call, rows)
    requires (a.Listed? ==> a.listing.total == n) && (a.Totals? ==> a.total == n)
    ensures |rows| == n
  {
  }

  /** With two, some run without a failure has an answer that is older than any span. */
  lemma TwoAreNot(s: State, lists: bool) returns (tr: seq<State>, es: seq<Event>)
    requires Init(s) && |s.pool.conns| > 1
    requires LastId(s.ledger.rows) < Decimal.INT64_MAX && Counter(s.cells, s.now, RequestsKey) < Decimal.INT64_MAX - 3
    ensures Smooth(tr, es) && Run(tr, es) && |tr| > 0 && tr[0] == s && !AllRecent(tr, lists)
  {
    hide Init, Run, Smooth, FreshFor, Recent, LastId, Counter, AnsweredFrom;
    NewPool(s);
    AllAreIdle(s.pool);
    var read := if lists then Browse(0, 0) else Stats;
    var i: nat;
    NewUserIsValid();
    tr, es, i := GoesStale(s, read, Create("x", ""), TtlOf(lists) + 1);
    SmoothInvalidates(tr, es);
    StaleTotal(AnswerOf(tr[|tr| - 1], 2), read, s.ledger.rows);
    TooOld(tr, es, i, |tr| - 1, 2, |s.ledger.rows|, TtlOf(lists));
  }

  lemma NewUserIsValid()
    ensures Valid(Create("x", ""))
  {
  }

  lemma NewPool(s: State)
    requires Init(s)
    ensures Fresh(s.pool)
  {
  }

  /**
   When the TTL bounds the age of lists (`lists` true) and of totals (false).
   From a start with room for another user and three more requests: in every run,
   whatever fails or expires and whenever the process ends, every answer is what
   the table said at some moment within the call or at most the TTL before a
   moment of the call, if and only if the pool has at most one connection.
   */
  lemma TtlBoundsExactly(s: State, lists: bool)
    requires Init(s)
    requires LastId(s.ledger.rows) < Decimal.INT64_MAX && Counter(s.cells, s.now, RequestsKey) < Decimal.INT64_MAX - 3
    ensures (forall tr, es :: Run(tr, es) && tr[0] == s ==> AllRecent(tr, lists)) <==> |s.pool.conns| <= 1
  {
    hide Init, AllRecent, LastId, Counter, Enabled, Step;
    if |s.pool.conns| <= 1 {
      forall tr, es | Run(tr, es) && |tr| > 0 && tr[0] == s ensures AllRecent(tr, lists) {
        OneIsRecent(tr, es, lists);
      }
    } else {
      var tr, es := TwoAreNot(s, lists);
    }
  }
}
