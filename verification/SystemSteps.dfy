/**
 Every step keeps the invariant: one lemma per part of the invariant, built
 from one lemma per step where the step matters.
 */
module SystemSteps {
  import opened Users
  import opened Json
  import opened Redis
  import opened Keys
  import opened PoolProtocol
  import opened System
  import opened SystemInv
  import CacheState
  import Service
  import Decimal

  // ---------- The ledger ----------

  /** Only an INSERT changes the table, and it appends the calling thread's row. */
  lemma WorkRows(s: State, t: nat, k: Luck)
    requires CanWork(s, t) && LuckFits(s, t, k)
    ensures var s' := Work(s, t, k);
            || s'.ledger == s.ledger
            || (&& s.threads[t].pc.Inserting?
                && var th := s.threads[t];
                   var row := Row(LastId(s.ledger.rows) + 1 + k.gap, th.call.name, th.call.email, th.pc.stamp);
                   s'.ledger == AppendRow(s.ledger, row, t) && row.id <= Decimal.INT64_MAX)
  {
    hide Count, Probe, ReadId, Prime, Enumerate, DeleteNext, DropTotal, Select, FetchRow, FillUser, CountRows;
    hide FetchCount, SelectRows, FetchRows, FillList, IndexList, FillTotal, ReadRequests, SessionFits, PcAdvances;
  }

  lemma WorkLedger(s: State, t: nat, k: Luck)
    requires LedgerOk(s.ledger, s.now)
    requires CanWork(s, t) && LuckFits(s, t, k) && CleanCall(s.threads[t].call)
    ensures var s' := Work(s, t, k);
            && Extends(s.ledger, s'.ledger)
            && Ordered(s'.ledger.rows) && NulFreeRows(s'.ledger.rows) && |s'.ledger.writers| == |s'.ledger.rows|
  {
    hide Work;
    WorkRows(s, t, k);
  }

  /** The stamped ledger is a good one. */
  lemma StampLedger(l: Ledger, l': Ledger, now: nat, now': nat)
    requires LedgerOk(l, now) && Extends(l, l') && l'.past == l.past && now <= now'
    requires Ordered(l'.rows) && NulFreeRows(l'.rows) && |l'.writers| == |l'.rows|
    ensures var l'' := l'.(past := l'.past + [Moment(now', |l'.rows|)]);
            LedgerOk(l'', now') && Extends(l, l'')
  {
  }

  lemma StepLedger(s: State, e: Event)
    requires Inv(s) && Enabled(s, e)
    ensures var s' := Step(s, e);
            && LedgerOk(s'.ledger, s'.now)
            && GrowsTo(WorldOf(s), WorldOf(s'))
            && s'.ledger.past == s.ledger.past + [Moment(s'.now, |s'.ledger.rows|)]
            && CacheState.Resolves(s'.resolve)
  {
    hide Work, PoolInv, CellsOk, SessionsOk, WritersOk, PcOk;
    if e.AtWork? {
      assert ThreadOk(WorldOf(s), e.tid, s.threads[e.tid]);
      WorkLedger(s, e.tid, e.luck);
    }
    var s' := Effect(s, e);
    StampLedger(s.ledger, s'.ledger, s.now, s'.now);
  }

  // ---------- Threads ----------

  /** The present table is the table of the current moment. */
  lemma NowIsAMoment(l: Ledger, now: nat)
    requires LedgerOk(l, now)
    ensures IsMoment(l, |l.past| - 1) && RowsAt(l, |l.past| - 1) == l.rows
    ensures l.past[|l.past| - 1] == Moment(now, |l.rows|)
  {
  }

  /** A moment's table is an early part of the present one, so its size fits as well. */
  lemma PastSizes(l: Ledger, now: nat, at: nat)
    requires LedgerOk(l, now) && at < |l.past|
    ensures IsMoment(l, at) && l.past[at].rows <= Decimal.INT64_MAX && l.past[at].now <= now
    ensures Decimal.Strtoll(Decimal.Text(l.past[at].rows)) == l.past[at].rows
  {
    CountFits(l.rows);
    assert l.past[at].rows <= l.past[|l.past| - 1].rows;
    Decimal.StrtollRoundTrip(l.past[at].rows);
  }

  /** A user hit is the committed row its entry came from, selected for an id string with the same key. */
  lemma UserHit(w: World, id: string, e: Entry, o: Origin, j: Json)
    requires CellOk(w, Cut(UserKey(id)), e, o) && e.value == Doc(j)
    ensures UserHitPc(j, o).Done? && UserHitPc(j, o).answer.Found?
    ensures var a := UserHitPc(j, o).answer;
            SameKey(a.asked, id) && MatchesRow(w.ledger, w.resolve, a.asked, a.user, a.row)
  {
    UserRoundTrip(UserOf(w.ledger.rows[o.row]));
  }

  /** A list hit is the page and the total of its entry's moments, read within the TTL. */
  lemma ListHit(w: World, now: nat, limit: nat, offset: nat, e: Entry, o: Origin, j: Json, startAt: nat)
    requires LedgerOk(w.ledger, now) && startAt < |w.ledger.past|
    requires CellOk(w, ListKey(limit, offset), e, o) && e.value == Doc(j) && (e.expiry.Some? ==> now <= e.expiry.value)
    ensures var pc := ListHitPc(j, o, |w.ledger.past| - 1);
            && pc.Done? && pc.answer.Listed?
            && ListingAt(w.ledger, limit, offset, pc.answer.listing, pc.answer.src.countAt, pc.answer.src.pageAt)
            && SourceOk(w.ledger, pc.answer.src, startAt, LIST_TTL)
  {
    var l := w.ledger;
    ListingRoundTrip(Listing(UsersOf(Page(RowsAt(l, o.pageAt), limit, offset)), l.past[o.countAt].rows));
    NowIsAMoment(l, now);
  }

  lemma TotalHit(w: World, now: nat, e: Entry, o: Origin, startAt: nat)
    requires LedgerOk(w.ledger, now) && startAt < |w.ledger.past|
    requires CellOk(w, TotalKey, e, o) && (e.expiry.Some? ==> now <= e.expiry.value)
    ensures var pc := TotalHitPc(e.value, o, |w.ledger.past| - 1);
            TotalOk(w.ledger, pc.total, pc.src, startAt)
  {
    NowIsAMoment(w.ledger, now);
    PastSizes(w.ledger, now, o.countAt);
  }

  /** What the lemmas about one thread need from the rest of the state. */
  ghost predicate Backed(s: State, t: nat) {
    LedgerOk(s.ledger, s.now) && t in s.threads && ThreadOk(WorldOf(s), t, s.threads[t])
  }

  lemma CountOk(s: State, t: nat, k: Luck)
    requires Backed(s, t) && CanWork(s, t) && s.threads[t].pc.Counting?
    ensures ThreadOk(WorldOf(Count(s, t, k)), t, Count(s, t, k).threads[t])
  {
  }

  lemma ProbeOk(s: State, t: nat, k: Luck)
    requires Backed(s, t) && CanWork(s, t) && s.threads[t].pc.Probing?
    requires CellsOk(WorldOf(s), s.cells, s.origins)
    ensures ThreadOk(WorldOf(Probe(s, t, k)), t, Probe(s, t, k).threads[t])
  {
    hide CellOk, SourceOk, ListingAt, TotalOk, MatchesRow, UserHitPc, ListHitPc, LedgerOk, Local, SessionFits;
    hide PcAdvances, CString;
    var th := s.threads[t];
    var key := ProbeKey(th.call);
    if Live(s.cells, s.now, key) {
      var e, o, w := s.cells[key], OriginOf(s, key), WorldOf(s);
      assert CellOk(w, key, e, o);
      if th.call.Stats? {
        TotalHit(w, s.now, e, o, th.startAt);
      } else if e.value.Doc? {
        if th.call.Fetch? {
          UserHit(w, th.call.id, e, o, e.value.json);
        } else {
          ListHit(w, s.now, key.limit, key.offset, e, o, e.value.json, th.startAt);
        }
      }
    }
  }

  lemma InsertOk(s: State, t: nat, k: Luck)
    requires Backed(s, t) && CanWork(s, t) && s.threads[t].pc.Inserting?
    ensures ThreadOk(WorldOf(InsertRow(s, t, k)), t, InsertRow(s, t, k).threads[t])
  {
  }

  /** Exclusive use of the connection makes the id read back the id of the row this call inserted. */
  lemma ReadIdOk(s: State, t: nat)
    requires Backed(s, t) && CanWork(s, t) && s.threads[t].pc.ReadingId? && SessionFits(s, t)
    ensures ThreadOk(WorldOf(ReadId(s, t)), t, ReadId(s, t).threads[t])
  {
  }

  lemma PrimeOk(s: State, t: nat, k: Luck)
    requires Backed(s, t) && CanWork(s, t) && s.threads[t].pc.Priming?
    ensures ThreadOk(WorldOf(Prime(s, t, k)), t, Prime(s, t, k).threads[t])
  {
  }

  lemma EnumerateOk(s: State, t: nat, k: Luck)
    requires Backed(s, t) && CanWork(s, t) && s.threads[t].pc.Enumerating? && LuckFits(s, t, k)
    requires forall k :: k in s.index ==> k.ListKey?
    ensures ThreadOk(WorldOf(Enumerate(s, t, k)), t, Enumerate(s, t, k).threads[t])
  {
    if k.ok {
      forall i | 0 <= i < |k.members| ensures k.members[i].ListKey? {
        assert k.members[i] in multiset(k.members);
      }
    }
  }

  lemma DeleteOk(s: State, t: nat, k: Luck)
    requires Backed(s, t) && CanWork(s, t) && s.threads[t].pc.Deleting?
    ensures ThreadOk(WorldOf(DeleteNext(s, t, k)), t, DeleteNext(s, t, k).threads[t])
  {
  }

  lemma DropTotalOk(s: State, t: nat, k: Luck)
    requires Backed(s, t) && CanWork(s, t) && s.threads[t].pc.DroppingTotal?
    ensures ThreadOk(WorldOf(DropTotal(s, t, k)), t, DropTotal(s, t, k).threads[t])
  {
  }

  lemma SelectOk(s: State, t: nat, k: Luck)
    requires Backed(s, t) && CanWork(s, t) && s.threads[t].pc.Selecting?
    ensures ThreadOk(WorldOf(Select(s, t, k)), t, Select(s, t, k).threads[t])
  {
    NowIsAMoment(s.ledger, s.now);
  }

  lemma FetchRowOk(s: State, t: nat, k: Luck)
    requires Backed(s, t) && CanWork(s, t) && s.threads[t].pc.FetchingRow?
    ensures ThreadOk(WorldOf(FetchRow(s, t, k)), t, FetchRow(s, t, k).threads[t])
  {
    hide Local, FromFields, Fields, UserOf, PcAdvances, SessionFits;
    var pc := s.threads[t].pc;
    if pc.found.Some? {
      assert RowsAt(s.ledger, pc.at)[pc.found.value] == s.ledger.rows[pc.found.value];
      ReadBackExact(s.ledger.rows[pc.found.value]);
    }
  }

  lemma FillUserOk(s: State, t: nat, k: Luck)
    requires Backed(s, t) && CanWork(s, t) && s.threads[t].pc.FillingUser?
    ensures ThreadOk(WorldOf(FillUser(s, t, k)), t, FillUser(s, t, k).threads[t])
  {
  }

  lemma CountRowsOk(s: State, t: nat, k: Luck)
    requires Backed(s, t) && CanWork(s, t) && s.threads[t].pc.CountingRows?
    ensures ThreadOk(WorldOf(CountRows(s, t, k)), t, CountRows(s, t, k).threads[t])
  {
    NowIsAMoment(s.ledger, s.now);
  }

  lemma FetchCountOk(s: State, t: nat, k: Luck)
    requires Backed(s, t) && CanWork(s, t) && s.threads[t].pc.FetchingCount?
    ensures ThreadOk(WorldOf(FetchCount(s, t, k)), t, FetchCount(s, t, k).threads[t])
  {
    PastSizes(s.ledger, s.now, s.threads[t].pc.at);
  }

  lemma SelectRowsOk(s: State, t: nat, k: Luck)
    requires Backed(s, t) && CanWork(s, t) && s.threads[t].pc.SelectingPage?
    ensures ThreadOk(WorldOf(SelectRows(s, t, k)), t, SelectRows(s, t, k).threads[t])
  {
    NowIsAMoment(s.ledger, s.now);
  }

  /** Reading a page back gives the users of its rows. */
  lemma ReadPage(rows: seq<Row>, limit: nat, offset: nat)
    requires NulFreeRows(rows)
    ensures ReadUsers(Page(rows, limit, offset)) == UsersOf(Page(rows, limit, offset))
  {
    var page := Page(rows, limit, offset);
    forall i | 0 <= i < |page| ensures FromFields(Fields(page[i])) == UserOf(page[i]) {
      ReadBackExact(page[i]);
    }
  }

  lemma FetchRowsOk(s: State, t: nat, k: Luck)
    requires Backed(s, t) && CanWork(s, t) && s.threads[t].pc.FetchingPage?
    ensures ThreadOk(WorldOf(FetchRows(s, t, k)), t, FetchRows(s, t, k).threads[t])
  {
    var th := s.threads[t];
    ReadPage(RowsAt(s.ledger, th.pc.pageAt), Service.PageLimit(th.call.limit), Service.PageOffset(th.call.offset));
  }

  lemma FillListOk(s: State, t: nat, k: Luck)
    requires Backed(s, t) && CanWork(s, t) && s.threads[t].pc.FillingList?
    ensures ThreadOk(WorldOf(FillList(s, t, k)), t, FillList(s, t, k).threads[t])
  {
  }

  lemma IndexListOk(s: State, t: nat, k: Luck)
    requires Backed(s, t) && CanWork(s, t) && s.threads[t].pc.Indexing?
    ensures ThreadOk(WorldOf(IndexList(s, t, k)), t, IndexList(s, t, k).threads[t])
  {
  }

  lemma FillTotalOk(s: State, t: nat, k: Luck)
    requires Backed(s, t) && CanWork(s, t) && s.threads[t].pc.FillingTotal?
    ensures ThreadOk(WorldOf(FillTotal(s, t, k)), t, FillTotal(s, t, k).threads[t])
  {
  }

  lemma ReadRequestsOk(s: State, t: nat, k: Luck)
    requires Backed(s, t) && CanWork(s, t) && s.threads[t].pc.ReadingRequests?
    ensures ThreadOk(WorldOf(ReadRequests(s, t, k)), t, ReadRequests(s, t, k).threads[t])
  {
  }

  /** Whatever a thread does, its local variables stay true. */
  lemma WorkThreadOk(s: State, t: nat, k: Luck)
    requires Backed(s, t) && CanWork(s, t) && SessionFits(s, t) && CellsOk(WorldOf(s), s.cells, s.origins)
    requires LuckFits(s, t, k) && forall key :: key in s.index ==> key.ListKey?
    ensures ThreadOk(WorldOf(Work(s, t, k)), t, Work(s, t, k).threads[t])
  {
    hide ThreadOk, LedgerOk, CellsOk, SessionFits;
    hide Count, Probe, InsertRow, ReadId, Prime, Enumerate, DeleteNext, DropTotal, Select, FetchRow, FillUser;
    hide CountRows;
    hide FetchCount, SelectRows, FetchRows, FillList, IndexList, FillTotal, ReadRequests;
    match s.threads[t].pc {
      case Counting => CountOk(s, t, k);
      case Probing => ProbeOk(s, t, k);
      case Inserting(_) => InsertOk(s, t, k);
      case ReadingId(_, _) => ReadIdOk(s, t);
      case Priming(_, _) => PrimeOk(s, t, k);
      case Enumerating(_, _) => EnumerateOk(s, t, k);
      case Deleting(_, _, _) => DeleteOk(s, t, k);
      case DroppingTotal(_, _) => DropTotalOk(s, t, k);
      case Selecting => SelectOk(s, t, k);
      case FetchingRow(_, _) => FetchRowOk(s, t, k);
      case FillingUser(_, _) => FillUserOk(s, t, k);
      case CountingRows => CountRowsOk(s, t, k);
      case FetchingCount(_, _) => FetchCountOk(s, t, k);
      case SelectingPage(_, _) => SelectRowsOk(s, t, k);
      case FetchingPage(_, _, _, _) => FetchRowsOk(s, t, k);
      case FillingList(_, _, _) => FillListOk(s, t, k);
      case Indexing(_, _, _) => IndexListOk(s, t, k);
      case FillingTotal(_, _) => FillTotalOk(s, t, k);
      case ReadingRequests(_, _) => ReadRequestsOk(s, t, k);
    }
  }

  // ---------- The cache ----------

  lemma CellsGrow(w: World, w': World, cells: map<Key, Entry>, origins: map<Key, Origin>)
    requires CellsOk(w, cells, origins) && GrowsTo(w, w')
    ensures CellsOk(w', cells, origins)
  {
    hide CellOk, GrowsTo;
    forall k | k in cells
      ensures CellOk(w', k, cells[k], if k in origins then origins[k] else OfRow(0, ""))
    {
      CellKept(w, w', k, cells[k], if k in origins then origins[k] else OfRow(0, ""));
    }
  }

  /** A write under one key leaves every other key's entry as it was. */
  lemma CellsPut(w: World, w': World, cells: map<Key, Entry>, origins: map<Key, Origin>, k: Key, e: Entry, o: Origin)
    requires CellsOk(w, cells, origins) && GrowsTo(w, w') && CellOk(w', k, e, o)
    ensures CellsOk(w', cells[k := e], origins[k := o])
  {
    hide CellOk;
    CellsGrow(w, w', cells, origins);
  }

  lemma CountCells(s: State, t: nat, k: Luck)
    requires CanWork(s, t) && s.threads[t].pc.Counting? && LuckFits(s, t, k) && CellsOk(WorldOf(s), s.cells, s.origins)
    ensures CellsOk(WorldOf(s), Count(s, t, k).cells, Count(s, t, k).origins)
  {
    if RequestsKey in s.cells {
      assert CellOk(WorldOf(s), RequestsKey, s.cells[RequestsKey], OriginOf(s, RequestsKey));
    }
    if k.applied {
      IncrementCounts(s.cells, s.now, RequestsKey);
    }
  }

  lemma StoreUserCells(s: State, id: string, u: User, row: nat)
    requires CellsOk(WorldOf(s), s.cells, s.origins) && MatchesRow(s.ledger, s.resolve, id, u, row) && id != ""
    ensures CellsOk(WorldOf(s), StoreUser(s, id, u, row).cells, StoreUser(s, id, u, row).origins)
  {
    var s' := StoreUser(s, id, u, row);
    var key := Cut(UserKey(id));
    CStringCut(id);
    CellsPut(WorldOf(s), WorldOf(s), s.cells, s.origins, key, s'.cells[key], OfRow(row, id));
  }

  lemma StoreListCells(s: State, limit: nat, offset: nat, l: Listing, countAt: nat, pageAt: nat)
    requires LedgerOk(s.ledger, s.now) && CellsOk(WorldOf(s), s.cells, s.origins)
    requires ListingAt(s.ledger, limit, offset, l, countAt, pageAt)
    ensures var s' := StoreList(s, ListKey(limit, offset), l, countAt, pageAt);
            CellsOk(WorldOf(s'), s'.cells, s'.origins)
  {
    hide LedgerOk, CellsOk, EncodeListing, UsersOf, Page, Decimal.Strtoll, Decimal.Text;
    var k := ListKey(limit, offset);
    var s' := StoreList(s, k, l, countAt, pageAt);
    NowIsAMoment(s.ledger, s.now);
    PastSizes(s.ledger, s.now, countAt);
    CellsPut(WorldOf(s), WorldOf(s'), s.cells, s.origins, k, s'.cells[k], s'.origins[k]);
  }

  lemma StoreTotalCells(s: State, total: Decimal.int64, countAt: nat)
    requires LedgerOk(s.ledger, s.now) && CellsOk(WorldOf(s), s.cells, s.origins)
    requires IsMoment(s.ledger, countAt) && total == s.ledger.past[countAt].rows
    ensures var s' := StoreTotal(s, total, countAt);
            CellsOk(WorldOf(s'), s'.cells, s'.origins)
  {
    hide LedgerOk, CellsOk, Decimal.Strtoll, Decimal.Text;
    var s' := StoreTotal(s, total, countAt);
    NowIsAMoment(s.ledger, s.now);
    PastSizes(s.ledger, s.now, countAt);
    CellsPut(WorldOf(s), WorldOf(s'), s.cells, s.origins, TotalKey, s'.cells[TotalKey], s'.origins[TotalKey]);
  }

  lemma PrimeCells(s: State, t: nat, k: Luck)
    requires Backed(s, t) && CanWork(s, t) && s.threads[t].pc.Priming?
    requires CellsOk(WorldOf(s), s.cells, s.origins) && CacheState.Resolves(s.resolve)
    ensures CellsOk(WorldOf(Prime(s, t, k)), Prime(s, t, k).cells, Prime(s, t, k).origins)
  {
    var pc := s.threads[t].pc;
    StoreUserCells(s, pc.user.id, pc.user, pc.row);
  }

  lemma FillUserCells(s: State, t: nat, k: Luck)
    requires Backed(s, t) && CanWork(s, t) && s.threads[t].pc.FillingUser? && CellsOk(WorldOf(s), s.cells, s.origins)
    ensures CellsOk(WorldOf(FillUser(s, t, k)), FillUser(s, t, k).cells, FillUser(s, t, k).origins)
  {
    StoreUserCells(s, s.threads[t].call.id, s.threads[t].pc.user, s.threads[t].pc.row);
  }

  lemma FillListCells(s: State, t: nat, k: Luck)
    requires Backed(s, t) && CanWork(s, t) && s.threads[t].pc.FillingList? && CellsOk(WorldOf(s), s.cells, s.origins)
    ensures CellsOk(WorldOf(FillList(s, t, k)), FillList(s, t, k).cells, FillList(s, t, k).origins)
  {
    var th := s.threads[t];
    StoreListCells(s, PageKey(th.call).limit, PageKey(th.call).offset, th.pc.listing, th.pc.countAt, th.pc.pageAt);
  }

  lemma FillTotalCells(s: State, t: nat, k: Luck)
    requires Backed(s, t) && CanWork(s, t) && s.threads[t].pc.FillingTotal? && CellsOk(WorldOf(s), s.cells, s.origins)
    ensures CellsOk(WorldOf(FillTotal(s, t, k)), FillTotal(s, t, k).cells, FillTotal(s, t, k).origins)
  {
    StoreTotalCells(s, s.threads[t].pc.total, s.threads[t].pc.countAt);
  }

  lemma DeleteCells(s: State, t: nat, k: Luck)
    requires CanWork(s, t) && s.threads[t].pc.Deleting? && CellsOk(WorldOf(s), s.cells, s.origins)
    ensures CellsOk(WorldOf(DeleteNext(s, t, k)), DeleteNext(s, t, k).cells, DeleteNext(s, t, k).origins)
  {
    hide CellOk;
  }

  lemma DropTotalCells(s: State, t: nat, k: Luck)
    requires CanWork(s, t) && s.threads[t].pc.DroppingTotal? && CellsOk(WorldOf(s), s.cells, s.origins)
    ensures CellsOk(WorldOf(DropTotal(s, t, k)), DropTotal(s, t, k).cells, DropTotal(s, t, k).origins)
  {
    hide CellOk;
  }

  /** Whatever a thread does, every cache entry stays what its origin says. */
  lemma WorkCellsOk(s: State, t: nat, k: Luck)
    requires Backed(s, t) && CanWork(s, t) && LuckFits(s, t, k)
    requires CellsOk(WorldOf(s), s.cells, s.origins) && CacheState.Resolves(s.resolve)
    ensures CellsOk(WorldOf(Work(s, t, k)), Work(s, t, k).cells, Work(s, t, k).origins)
  {
    hide ThreadOk, LedgerOk, CellsOk, SessionFits, PcAdvances, Extends, CacheState.Resolves;
    hide Probe, InsertRow, ReadId, Prime, Enumerate, DeleteNext, DropTotal, Select, FetchRow, FillUser, CountRows;
    hide FetchCount, SelectRows, FetchRows, FillList, IndexList, FillTotal, ReadRequests;
    match s.threads[t].pc {
      case Counting => CountCells(s, t, k);
      case Priming(_, _) => PrimeCells(s, t, k);
      case Deleting(_, _, _) => DeleteCells(s, t, k);
      case DroppingTotal(_, _) => DropTotalCells(s, t, k);
      case FillingUser(_, _) => FillUserCells(s, t, k);
      case FillingList(_, _, _) => FillListCells(s, t, k);
      case FillingTotal(_, _) => FillTotalCells(s, t, k);
      case _ => UntouchedCells(s, t, k);
    }
  }

  lemma UntouchedCells(s: State, t: nat, k: Luck)
    requires Backed(s, t) && CanWork(s, t) && LuckFits(s, t, k) && !WritesCache(s.threads[t].pc)
    requires CellsOk(WorldOf(s), s.cells, s.origins)
    ensures CellsOk(WorldOf(Work(s, t, k)), Work(s, t, k).cells, Work(s, t, k).origins)
  {
    hide Work, CellsOk, PcOk;
    WorkLedger(s, t, k);
    CellsGrow(WorldOf(s), WorldOf(Work(s, t, k)), s.cells, s.origins);
  }
}
