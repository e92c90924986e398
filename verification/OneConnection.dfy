/**
 When invalidation on write does keep lists and totals consistent: exactly when
 the pool has at most one connection.  A reader then holds the connection from
 its COUNT to its SET and SADD, and a writer from its INSERT to its last DEL, so
 that no stale page slips in between.
 */
module OneConnection {
  import opened Prelude
  import opened Users
  import opened Redis
  import opened Keys
  import opened PoolProtocol
  import opened System
  import opened SystemInv
  import opened SystemKept
  import opened Consistency
  import opened Staleness
  import opened SmoothRun
  import opened StaleRun
  import Progress
  import Service
  import Decimal

  // ---------- What the invalidation needs ----------

  /**
   The step does not lose a command of the index or of the invalidation, nor does
   the process end between the SET of a list and its SADD.
   */
  predicate Invalidates(s: State, e: Event) {
    && (e.Restart? ==> forall t :: t in s.threads ==> !s.threads[t].pc.Indexing?)
    && (e.AtWork? && e.tid in s.threads ==>
          var pc := s.threads[e.tid].pc;
          && (pc.Enumerating? ==> e.luck.ok)
          && (pc.Deleting? || pc.DroppingTotal? || pc.Indexing? ==> e.luck.applied))
  }

  ghost predicate AllInvalidate(tr: seq<State>, es: seq<Event>) {
    forall i :: 0 <= i < |es| && i < |tr| ==> Invalidates(tr[i], es[i])
  }

  // ---------- The invariant ----------

  /** The table position of the row of a CreateUser that has deleted the list keys. */
  function SettledRow(pc: Pc): Option<nat> {
    match pc
    case DroppingTotal(_, row) => Some(row)
    case Returning(Created(_, row)) => Some(row)
    case Done(Created(_, row)) => Some(row)
    case _ => None
  }

  /** The moment at which a reader that is going to SET something has counted. */
  function CarriedCount(pc: Pc): Option<nat> {
    match pc
    case FetchingCount(_, at) => Some(at)
    case SelectingPage(_, at) => Some(at)
    case FetchingPage(_, at, _, _) => Some(at)
    case FillingList(_, at, _) => Some(at)
    case FillingTotal(_, at) => Some(at)
    case _ => None
  }

  predicate Shared(k: Key) {
    k.ListKey? || k.TotalKey?
  }

  function CountOf(o: Origin): nat {
    match o
    case OfRow(_, _) => 0
    case OfPage(c, _, _) => c
    case OfCount(c, _) => c
  }

  /** The thread has deleted this key, if its invalidation does. */
  predicate Dropped(pc: Pc, k: Key) {
    SettledRow(pc).Some? && !(pc.DroppingTotal? && k.TotalKey?)
  }

  /** The table at that moment has the row of the settled CreateUser. */
  predicate CountedAfter(past: seq<Moment>, at: nat, pc: Pc) {
    SettledRow(pc).Some? ==> at < |past| && SettledRow(pc).value < past[at].rows
  }

  /** Every entry was counted after the rows of all calls that have dropped its key. */
  ghost predicate EntriesFresh(s: State) {
    forall k, t :: k in s.cells && Shared(k) && t in s.threads && Dropped(s.threads[t].pc, k) ==>
      CountedAfter(s.ledger.past, CountOf(OriginOf(s, k)), s.threads[t].pc)
  }

  /** So has whoever is going to SET one. */
  ghost predicate CarriersFresh(s: State) {
    forall h, t :: h in s.threads && t in s.threads && CarriedCount(s.threads[h].pc).Some? ==>
      CountedAfter(s.ledger.past, CarriedCount(s.threads[h].pc).value, s.threads[t].pc)
  }

  predicate AboutToIndex(th: Thread, k: Key) {
    th.pc.Indexing? && th.call.Browse? && PageKey(th.call) == k
  }

  /** Every list entry is indexed, but for the one whose reader is about to do that. */
  ghost predicate AllIndexed(s: State) {
    forall k :: k in s.cells && k.ListKey? ==>
      k in s.index || exists h :: h in s.threads && AboutToIndex(s.threads[h], k)
  }

  /** A writer that is deleting list keys has every list entry still ahead of it. */
  ghost predicate DeletingAll(s: State) {
    forall t, k :: t in s.threads && s.threads[t].pc.Deleting? && k in s.cells && k.ListKey? ==>
      k in s.threads[t].pc.keys
  }

  ghost predicate OneInv(s: State) {
    EntriesFresh(s) && CarriersFresh(s) && AllIndexed(s) && DeletingAll(s)
  }

  // ---------- One holder ----------

  lemma AtMostOne(conns: set<nat>, a: nat, b: nat)
    requires |conns| <= 1 && a in conns && b in conns
    ensures a == b
  {
    SubsetSize({a, b}, conns);
  }

  /** With one connection, one thread at a time is between its acquire and the end of its guard. */
  lemma OneHolder(s: State, t: nat, u: nat)
    requires Inv(s) && |s.pool.conns| <= 1 && t in s.threads && u in s.threads
    requires var a, b := s.threads[t].pc, s.threads[u].pc;
             NeedsConn(a) && NeedsConn(b) && !WantsConn(b) && (WantsConn(a) ==> CanWork(s, t))
    ensures t == u
  {
    assert Placed(s.threads[t].pc, s.pool.status[t]) && Placed(s.threads[u].pc, s.pool.status[u]);
    assert Held(s.pool, s.pool.status[t].conn) && Held(s.pool, s.pool.status[u].conn);
    assert Conserved(s.pool);
    hide Inv, PoolInv;
    AtMostOne(s.pool.conns, s.pool.status[t].conn, s.pool.status[u].conn);
  }

  // ---------- What steps do to what the invariant is about ----------

  lemma SettledChange(s: State, t: nat, k: Luck)
    requires CanWork(s, t) && s.threads[t].call.Create?
    ensures var pc, pc' := s.threads[t].pc, Work(s, t, k).threads[t].pc;
            || SettledRow(pc').None?
            || (pc.DroppingTotal? && pc'.Returning? && SettledRow(pc') == SettledRow(pc))
            || (pc.Deleting? && pc.keys == [] && pc'.DroppingTotal?)
  {
    if s.threads[t].pc.Deleting? || s.threads[t].pc.DroppingTotal? {
      LateSettles(s, t, k);
    } else {
      EarlySettles(s, t, k);
    }
  }

  lemma LateSettles(s: State, t: nat, k: Luck)
    requires CanWork(s, t) && (s.threads[t].pc.Deleting? || s.threads[t].pc.DroppingTotal?)
    ensures var pc, pc' := s.threads[t].pc, Work(s, t, k).threads[t].pc;
            || SettledRow(pc').None?
            || (pc.DroppingTotal? && pc'.Returning? && SettledRow(pc') == SettledRow(pc))
            || (pc.Deleting? && pc.keys == [] && pc'.DroppingTotal?)
  {
    hide Local, SessionFits, PcAdvances;
  }

  lemma EarlySettles(s: State, t: nat, k: Luck)
    requires CanWork(s, t) && s.threads[t].call.Create? && !s.threads[t].pc.Deleting? && !s.threads[t].pc.DroppingTotal?
    ensures SettledRow(Work(s, t, k).threads[t].pc).None?
  {
    hide Local, SessionFits, PcAdvances, StoreUser, Increment, Ready, LastId;
  }

  lemma CarriedChange(s: State, t: nat, k: Luck)
    requires CanWork(s, t) && Scans(s.threads[t].call) && NeedsConn(s.threads[t].pc)
    ensures var pc, pc' := s.threads[t].pc, Work(s, t, k).threads[t].pc;
            || CarriedCount(pc').None?
            || CarriedCount(pc') == CarriedCount(pc)
            || (pc.CountingRows? && CarriedCount(pc') == Some(CurrentMoment(s)))
  {
    var pc := s.threads[t].pc;
    if pc.CountingRows? || pc.SelectingPage? {
      SendCarries(s, t, k);
    } else if Fetching(pc) {
      ReceiveCarries(s, t, k);
    } else {
      NothingLeftToCarry(s, t, k);
    }
  }

  lemma SendCarries(s: State, t: nat, k: Luck)
    requires CanWork(s, t) && (s.threads[t].pc.CountingRows? || s.threads[t].pc.SelectingPage?)
    ensures var pc, pc' := s.threads[t].pc, Work(s, t, k).threads[t].pc;
            || CarriedCount(pc').None?
            || (pc.SelectingPage? && CarriedCount(pc') == CarriedCount(pc))
            || (pc.CountingRows? && CarriedCount(pc') == Some(CurrentMoment(s)))
  {
    hide Local, SessionFits, CallPage, Ready, SetSession;
  }

  lemma ReceiveCarries(s: State, t: nat, k: Luck)
    requires CanWork(s, t) && Scans(s.threads[t].call) && Fetching(s.threads[t].pc)
    ensures var pc, pc' := s.threads[t].pc, Work(s, t, k).threads[t].pc;
            CarriedCount(pc').None? || CarriedCount(pc') == CarriedCount(pc)
  {
    hide Local, SessionFits, ReadUsers, SetSession, Decimal.Text, Decimal.Strtoll;
  }

  lemma NothingLeftToCarry(s: State, t: nat, k: Luck)
    requires CanWork(s, t) && Scans(s.threads[t].call) && NeedsConn(s.threads[t].pc)
    requires !WantsConn(s.threads[t].pc) && !Fetching(s.threads[t].pc) && !s.threads[t].pc.SelectingPage?
    ensures CarriedCount(Work(s, t, k).threads[t].pc).None?
  {
    hide Local, SessionFits, PcAdvances, StoreList, StoreTotal;
  }

  /** Only a CreateUser settles anything, and only a scan with a connection carries a count. */
  lemma WhoseBusiness(w: World, t: nat, th: Thread)
    requires ThreadOk(w, t, th)
    ensures SettledRow(th.pc).Some? ==> th.call.Create?
    ensures CarriedCount(th.pc).Some? ==> Scans(th.call) && NeedsConn(th.pc) && !WantsConn(th.pc)
  {
  }

  /** The entry of a shared key is as before, or t has just filled it. */
  lemma EntryChange(s: State, t: nat, k: Luck, key: Key)
    requires CanWork(s, t) && Shared(key)
    ensures var s', th := Work(s, t, k), s.threads[t];
            key in s'.cells ==>
              || (key in s.cells && OriginOf(s', key) == OriginOf(s, key))
              || (&& Some(CountOf(OriginOf(s', key))) == CarriedCount(th.pc)
                  && (if key.TotalKey? then th.pc.FillingTotal?
                      else th.pc.FillingList? && AboutToIndex(s'.threads[t], key)))
  {
    hide Local, SelectRows, FetchRows, Select, FetchRow, Probe;
    if !WritesCache(s.threads[t].pc) {
      QuietEntries(s, t, k, key);
    }
  }

  lemma QuietEntries(s: State, t: nat, k: Luck, key: Key)
    requires CanWork(s, t) && !WritesCache(s.threads[t].pc)
    ensures var s' := Work(s, t, k); key in s'.cells ==> key in s.cells && OriginOf(s', key) == OriginOf(s, key)
  {
    hide Work;
  }

  /** The index is emptied when everything has been deleted, and grows otherwise. */
  lemma IndexChange(s: State, t: nat, k: Luck)
    requires CanWork(s, t)
    ensures var s', th := Work(s, t, k), s.threads[t];
            && (s.index <= s'.index || (th.pc.Deleting? && th.pc.keys == []))
            && (th.pc.Indexing? && k.applied ==> PageKey(th.call) in s'.index)
  {
    hide Local, SessionFits, PcAdvances;
    if !s.threads[t].pc.Deleting? && !s.threads[t].pc.Indexing? {
      hide Work;
      SameIndex(s, t, k);
    }
  }

  lemma SameIndex(s: State, t: nat, k: Luck)
    requires CanWork(s, t) && !s.threads[t].pc.Deleting? && !s.threads[t].pc.Indexing?
    ensures Work(s, t, k).index == s.index
  {
    hide Work;
    if Scans(s.threads[t].call) {
      ScanKeepsIndex(s, t, k);
    } else {
      OtherKeepsIndex(s, t, k);
    }
  }

  lemma ScanKeepsIndex(s: State, t: nat, k: Luck)
    requires CanWork(s, t) && Scans(s.threads[t].call) && !s.threads[t].pc.Indexing?
    ensures Work(s, t, k).index == s.index
  {
    hide Local, SessionFits, PcAdvances, ListHitPc, TotalHitPc, ReadUsers, CallPage, Increment, Ready;
    hide Decimal.Text, Decimal.Strtoll, Visible, Put, CurrentMoment;
  }

  lemma OtherKeepsIndex(s: State, t: nat, k: Luck)
    requires CanWork(s, t) && !Scans(s.threads[t].call) && !s.threads[t].pc.Deleting?
    ensures Work(s, t, k).index == s.index
  {
    hide Local, SessionFits, PcAdvances, UserHitPc, RowUser, Increment, Ready, Decimal.Text, Find, LastId, Visible;
    hide Put, CurrentMoment;
  }

  lemma EnumeratingStep(s: State, t: nat, k: Luck)
    requires CanWork(s, t) && s.threads[t].pc.Enumerating? && LuckFits(s, t, k) && k.ok
    ensures var s' := Work(s, t, k);
            && s'.cells == s.cells && s'.index == s.index
            && s'.threads[t].pc.Deleting? && multiset(s'.threads[t].pc.keys) == multiset(s.index)
  {
    hide Local, SessionFits, PcAdvances;
  }

  lemma DeletingStep(s: State, t: nat, k: Luck)
    requires CanWork(s, t) && s.threads[t].pc.Deleting? && k.applied
    ensures var s', pc, pc' := Work(s, t, k), s.threads[t].pc, Work(s, t, k).threads[t].pc;
            if pc.keys == [] then pc'.DroppingTotal? && s'.cells == s.cells
            else pc'.Deleting? && pc'.keys == pc.keys[1..] && s'.cells == s.cells - {pc.keys[0]}
  {
    hide Local, SessionFits, PcAdvances;
  }

  lemma DroppingStep(s: State, t: nat, k: Luck)
    requires CanWork(s, t) && s.threads[t].pc.DroppingTotal? && k.applied
    ensures TotalKey !in Work(s, t, k).cells
  {
    hide Local, SessionFits, PcAdvances;
  }

  /** The only way into the loop of the invalidation is through SMEMBERS. */
  lemma IntoDeleting(s: State, t: nat, k: Luck)
    requires CanWork(s, t) && s.threads[t].call.Create?
    ensures Work(s, t, k).threads[t].pc.Deleting? ==> s.threads[t].pc.Enumerating? || s.threads[t].pc.Deleting?
  {
    hide Local, SessionFits, PcAdvances, StoreUser, Increment, Ready, LastId;
  }

  /** A settled row is in the table. */
  lemma SettledInTable(s: State, t: nat)
    requires Inv(s) && t in s.threads
    ensures CountedAfter(s.ledger.past, CurrentMoment(s), s.threads[t].pc)
  {
    assert ThreadOk(WorldOf(s), t, s.threads[t]) && LedgerOk(s.ledger, s.now);
    hide Inv;
  }

  // ---------- Steps of threads keep the invariant ----------

  /** What the lemmas about one thread's work need. */
  ghost predicate CanGoOn(s: State, t: nat, k: Luck) {
    Inv(s) && OneInv(s) && |s.pool.conns| <= 1 && Enabled(s, AtWork(t, k)) && Invalidates(s, AtWork(t, k))
  }

  lemma SettledByWork(s: State, t: nat, k: Luck)
    requires Inv(s) && CanWork(s, t) && LuckFits(s, t, k)
    ensures var pc, pc' := s.threads[t].pc, Work(s, t, k).threads[t].pc;
            || SettledRow(pc').None?
            || (pc.DroppingTotal? && pc'.Returning? && SettledRow(pc') == SettledRow(pc))
            || (pc.Deleting? && pc.keys == [] && pc'.DroppingTotal?)
  {
    hide Inv, Work, ThreadOk;
    if s.threads[t].call.Create? {
      SettledChange(s, t, k);
    } else {
      WorkerThread(s, t, k);
      WhoseBusiness(WorldOf(Stamp(Work(s, t, k))), t, Work(s, t, k).threads[t]);
    }
  }

  lemma CarriedByWork(s: State, t: nat, k: Luck)
    requires Inv(s) && CanWork(s, t) && LuckFits(s, t, k)
    ensures var pc, pc' := s.threads[t].pc, Work(s, t, k).threads[t].pc;
            || CarriedCount(pc').None?
            || CarriedCount(pc') == CarriedCount(pc)
            || (pc.CountingRows? && CarriedCount(pc') == Some(CurrentMoment(s)))
  {
    hide Inv, Work, ThreadOk;
    if Scans(s.threads[t].call) && NeedsConn(s.threads[t].pc) {
      CarriedChange(s, t, k);
    } else {
      WorkerThread(s, t, k);
      WhoseBusiness(WorldOf(Stamp(Work(s, t, k))), t, Work(s, t, k).threads[t]);
    }
  }

  lemma DeletingByWork(s: State, t: nat, k: Luck)
    requires Inv(s) && CanWork(s, t) && LuckFits(s, t, k)
    ensures Work(s, t, k).threads[t].pc.Deleting? ==> s.threads[t].pc.Enumerating? || s.threads[t].pc.Deleting?
  {
    hide Inv, Work, PcOk;
    if s.threads[t].call.Create? {
      IntoDeleting(s, t, k);
    } else {
      WorkerThread(s, t, k);
    }
  }

  /** The state after a thread's work. */
  lemma WorkedState(s: State, t: nat, k: Luck)
    requires CanWork(s, t)
    ensures var w, s' := Work(s, t, k), Stamp(Work(s, t, k));
            && s'.cells == w.cells && s'.index == w.index && s'.origins == w.origins && s'.threads == w.threads
            && s.ledger.past <= s'.ledger.past && t in s'.threads && s'.threads.Keys == s.threads.Keys
            && forall u :: u in s.threads && u != t ==> s'.threads[u] == s.threads[u]
  {
    hide Work, SessionFits;
  }

  lemma EntriesKept(s: State, t: nat, k: Luck, key: Key, u: nat)
    requires Inv(s) && EntriesFresh(s) && CarriersFresh(s) && DeletingAll(s) && CanWork(s, t) && LuckFits(s, t, k)
    requires s.threads[t].pc.Deleting? || s.threads[t].pc.DroppingTotal? ==> k.applied
    requires key in Work(s, t, k).cells && Shared(key) && u in s.threads
    requires u in Work(s, t, k).threads && Dropped(Work(s, t, k).threads[u].pc, key)
    ensures CountedAfter(s.ledger.past, CountOf(OriginOf(Work(s, t, k), key)), Work(s, t, k).threads[u].pc)
  {
    hide Inv, Work, OriginOf, LuckFits;
    WorkedState(s, t, k);
    EntryChange(s, t, k, key);
    if u == t {
      SettledByWork(s, t, k);
      if s.threads[t].pc.Deleting? {
        DeletingStep(s, t, k);
      } else if s.threads[t].pc.DroppingTotal? {
        DroppingStep(s, t, k);
      }
    }
  }

  lemma CarriersKept(s: State, t: nat, k: Luck, h: nat, u: nat)
    requires Inv(s) && CarriersFresh(s) && |s.pool.conns| <= 1 && CanWork(s, t) && LuckFits(s, t, k)
    requires h in s.threads && u in s.threads
    requires h in Work(s, t, k).threads && u in Work(s, t, k).threads && CarriedCount(Work(s, t, k).threads[h].pc).Some?
    ensures CountedAfter(s.ledger.past, CarriedCount(Work(s, t, k).threads[h].pc).value, Work(s, t, k).threads[u].pc)
  {
    hide Work, LuckFits;
    WorkedState(s, t, k);
    if h == t {
      CarriedByWork(s, t, k);
      SettledInTable(s, u);
    } else if u == t {
      SettledByWork(s, t, k);
      if s.threads[t].pc.Deleting? {
        assert ThreadOk(WorldOf(s), h, s.threads[h]);
        WhoseBusiness(WorldOf(s), h, s.threads[h]);
        hide Inv;
        OneHolder(s, t, h);
      }
    }
  }

  lemma IndexedKept(s: State, t: nat, k: Luck, key: Key)
    requires AllIndexed(s) && DeletingAll(s) && CanWork(s, t)
    requires s.threads[t].pc.Deleting? || s.threads[t].pc.Indexing? ==> k.applied
    requires key in Work(s, t, k).cells && key.ListKey?
    ensures var s' := Work(s, t, k); key in s'.index || exists h :: h in s'.threads && AboutToIndex(s'.threads[h], key)
  {
    hide Work, PageKey;
    WorkedState(s, t, k);
    EntryChange(s, t, k, key);
    IndexChange(s, t, k);
    var s' := Work(s, t, k);
    if s.threads[t].pc.Deleting? {
      DeletingStep(s, t, k);
    }
    if key in s.cells && key !in s.index {
      var h :| h in s.threads && AboutToIndex(s.threads[h], key);
      assert h != t ==> AboutToIndex(s'.threads[h], key);
    }
  }

  lemma DeletingKept(s: State, t: nat, k: Luck, u: nat, key: Key)
    requires Inv(s) && AllIndexed(s) && DeletingAll(s) && |s.pool.conns| <= 1 && CanWork(s, t) && LuckFits(s, t, k)
    requires (s.threads[t].pc.Enumerating? ==> k.ok) && (s.threads[t].pc.Deleting? ==> k.applied)
    requires u in s.threads && u in Work(s, t, k).threads && Work(s, t, k).threads[u].pc.Deleting?
    requires key in Work(s, t, k).cells && key.ListKey?
    ensures key in Work(s, t, k).threads[u].pc.keys
  {
    hide Inv, Work, LuckFits;
    if u == t {
      DeletingByWork(s, t, k);
      if s.threads[t].pc.Enumerating? {
        EnumeratingHasAll(s, t, k, key);
      } else {
        DeletingStep(s, t, k);
      }
    } else {
      OtherDeleting(s, t, k, u, key);
    }
  }

  lemma OtherDeleting(s: State, t: nat, k: Luck, u: nat, key: Key)
    requires Inv(s) && DeletingAll(s) && |s.pool.conns| <= 1 && CanWork(s, t)
    requires u in s.threads && u != t && u in Work(s, t, k).threads && Work(s, t, k).threads[u].pc.Deleting?
    requires key in Work(s, t, k).cells && key.ListKey?
    ensures key in Work(s, t, k).threads[u].pc.keys
  {
    hide Inv, Work, PageKey;
    WorkedState(s, t, k);
    EntryChange(s, t, k, key);
    if NeedsConn(s.threads[t].pc) {
      OneHolder(s, t, u);
    }
  }

  lemma EnumeratingHasAll(s: State, t: nat, k: Luck, key: Key)
    requires Inv(s) && AllIndexed(s) && |s.pool.conns| <= 1 && CanWork(s, t) && LuckFits(s, t, k)
    requires s.threads[t].pc.Enumerating? && k.ok && key in Work(s, t, k).cells && key.ListKey?
    ensures var pc' := Work(s, t, k).threads[t].pc; pc'.Deleting? && key in pc'.keys
  {
    hide Inv, Work, PcAdvances, SessionFits, PageKey;
    EnumeratingStep(s, t, k);
    if key !in s.index {
      var h :| h in s.threads && AboutToIndex(s.threads[h], key);
      OneHolder(s, t, h);
    }
    InMembers(Work(s, t, k).threads[t].pc.keys, s.index, key);
  }

  lemma InMembers(keys: seq<Key>, index: set<Key>, key: Key)
    requires multiset(keys) == multiset(index) && key in index
    ensures key in keys
  {
    assert key in multiset(index);
  }

  lemma WorkKeepsOne(s: State, t: nat, k: Luck)
    requires CanGoOn(s, t, k)
    ensures OneInv(Stamp(Work(s, t, k)))
  {
    hide Inv, OneInv, Work, CanGoOn, CountedAfter, Dropped, AboutToIndex, EntriesFresh, CarriersFresh, AllIndexed;
    hide DeletingAll;
    hide LuckFits, CanWork, PageKey;
    CanGoOnFacts(s, t, k);
    WorkedState(s, t, k);
    var w, s' := Work(s, t, k), Stamp(Work(s, t, k));
    forall key, u | key in s'.cells && Shared(key) && u in s'.threads && Dropped(s'.threads[u].pc, key)
      ensures CountedAfter(s'.ledger.past, CountOf(OriginOf(s', key)), s'.threads[u].pc)
    {
      EntriesKept(s, t, k, key, u);
      StillAfter(s.ledger.past, s'.ledger.past, CountOf(OriginOf(w, key)), s'.threads[u].pc);
    }
    forall h, u | h in s'.threads && u in s'.threads && CarriedCount(s'.threads[h].pc).Some?
      ensures CountedAfter(s'.ledger.past, CarriedCount(s'.threads[h].pc).value, s'.threads[u].pc)
    {
      CarriersKept(s, t, k, h, u);
      StillAfter(s.ledger.past, s'.ledger.past, CarriedCount(s'.threads[h].pc).value, s'.threads[u].pc);
    }
    forall key | key in s'.cells && key.ListKey?
      ensures key in s'.index || exists h :: h in s'.threads && AboutToIndex(s'.threads[h], key)
    {
      IndexedKept(s, t, k, key);
    }
    forall u, key | u in s'.threads && s'.threads[u].pc.Deleting? && key in s'.cells && key.ListKey?
      ensures key in s'.threads[u].pc.keys
    {
      DeletingKept(s, t, k, u, key);
    }
    Assembled(s');
  }

  lemma CanGoOnFacts(s: State, t: nat, k: Luck)
    requires CanGoOn(s, t, k)
    ensures Inv(s) && EntriesFresh(s) && CarriersFresh(s) && AllIndexed(s) && DeletingAll(s) && |s.pool.conns| <= 1
    ensures CanWork(s, t) && LuckFits(s, t, k)
    ensures var pc := s.threads[t].pc;
            && (pc.Enumerating? ==> k.ok)
            && (pc.Deleting? || pc.DroppingTotal? || pc.Indexing? ==> k.applied)
  {
    hide Inv, LuckFits;
  }

  lemma Assembled(s: State)
    requires forall k, t :: k in s.cells && Shared(k) && t in s.threads && Dropped(s.threads[t].pc, k) ==>
               CountedAfter(s.ledger.past, CountOf(OriginOf(s, k)), s.threads[t].pc)
    requires forall h, t :: h in s.threads && t in s.threads && CarriedCount(s.threads[h].pc).Some? ==>
               CountedAfter(s.ledger.past, CarriedCount(s.threads[h].pc).value, s.threads[t].pc)
    requires forall k :: k in s.cells && k.ListKey? ==>
               k in s.index || exists h :: h in s.threads && AboutToIndex(s.threads[h], k)
    requires forall t, k :: t in s.threads && s.threads[t].pc.Deleting? && k in s.cells && k.ListKey? ==>
               k in s.threads[t].pc.keys
    ensures OneInv(s)
  {
    hide CountedAfter, Dropped, AboutToIndex, OriginOf;
  }

  lemma StillAfter(past: seq<Moment>, past': seq<Moment>, at: nat, pc: Pc)
    requires CountedAfter(past, at, pc) && past <= past'
    ensures CountedAfter(past', at, pc)
  {
  }

  // ---------- Other steps ----------

  /** The invariant has nothing to say about this code position. */
  predicate Unconcerned(pc: Pc) {
    CarriedCount(pc).None? && !pc.Deleting? && !pc.Indexing? && !pc.DroppingTotal?
  }

  /** Between two states of one thread, seen by the invariant. */
  predicate SameBusiness(th: Thread, th': Thread) {
    th' == th || (Unconcerned(th.pc) && Unconcerned(th'.pc) && SettledRow(th'.pc) == SettledRow(th.pc))
  }

  lemma QuietBusiness(s: State, e: Event, u: nat)
    requires Enabled(s, e) && !e.AtWork? && !e.Restart? && u in Step(s, e).threads
    ensures var th' := Step(s, e).threads[u];
            if u in s.threads then SameBusiness(s.threads[u], th') else Unconcerned(th'.pc) && SettledRow(th'.pc).None?
  {
    hide Work, Can, Go;
  }

  lemma QuietCache(s: State, e: Event)
    requires Enabled(s, e) && !e.AtWork? && !e.Restart?
    ensures var s' := Step(s, e);
            && s'.cells.Keys <= s.cells.Keys && s'.origins == s.origins && s'.index == s.index
            && s.ledger.past <= s'.ledger.past && s.threads.Keys <= s'.threads.Keys
  {
    hide Work, Can, Go;
  }

  lemma QuietKeepsOne(s: State, e: Event)
    requires OneInv(s) && Enabled(s, e) && !e.AtWork? && !e.Restart?
    ensures OneInv(Step(s, e))
  {
    hide Step, Enabled, PageKey;
    QuietCache(s, e);
    var s' := Step(s, e);
    forall u | u in s'.threads
      ensures if u in s.threads then SameBusiness(s.threads[u], s'.threads[u])
              else Unconcerned(s'.threads[u].pc) && SettledRow(s'.threads[u].pc).None?
    {
      QuietBusiness(s, e, u);
    }
    forall key | key in s'.cells && key.ListKey?
      ensures key in s'.index || exists h :: h in s'.threads && AboutToIndex(s'.threads[h], key)
    {
      if key !in s.index {
        var h :| h in s.threads && AboutToIndex(s.threads[h], key);
        assert AboutToIndex(s'.threads[h], key);
      }
    }
  }

  /** The end of the process, even in the middle of an invalidation. */
  lemma RestartKeepsOne(s: State, idle: seq<nat>)
    requires OneInv(s) && Enabled(s, Restart(idle)) && Invalidates(s, Restart(idle))
    ensures OneInv(Step(s, Restart(idle)))
  {
    hide Step, Enabled, Crash, PageKey, SettledRow, CarriedCount, CountedAfter;
    RestartFacts(s, idle);
    var s' := Step(s, Restart(idle));
    forall t | t in s'.threads
      ensures t in s.threads && Unconcerned(s'.threads[t].pc)
      ensures SettledRow(s'.threads[t].pc).Some? ==> s'.threads[t] == s.threads[t]
    {
      CrashBusiness(s.threads[t]);
    }
    forall k, t | k in s'.cells && Shared(k) && t in s'.threads && Dropped(s'.threads[t].pc, k)
      ensures CountedAfter(s'.ledger.past, CountOf(OriginOf(s', k)), s'.threads[t].pc)
    {
      StillAfter(s.ledger.past, s'.ledger.past, CountOf(OriginOf(s, k)), s.threads[t].pc);
    }
  }

  /** A call that has been answered stays so; any other has no business left. */
  lemma CrashBusiness(th: Thread)
    ensures Unconcerned(Crash(th).pc)
    ensures SettledRow(Crash(th).pc).Some? ==> Crash(th) == th
  {
  }

  lemma RestartFacts(s: State, idle: seq<nat>)
    requires Enabled(s, Restart(idle))
    ensures var s' := Step(s, Restart(idle));
            && s'.cells == s.cells && s'.origins == s.origins && s'.index == s.index
            && s.ledger.past <= s'.ledger.past
            && forall t :: t in s'.threads ==> t in s.threads && s'.threads[t] == Crash(s.threads[t])
  {
    hide Work, Crash;
  }

  lemma StepKeepsOne(s: State, e: Event)
    requires Inv(s) && OneInv(s) && |s.pool.conns| <= 1 && Enabled(s, e) && Invalidates(s, e)
    ensures OneInv(Step(s, e))
  {
    hide Inv, OneInv, Work;
    if e.AtWork? {
      WorkKeepsOne(s, e.tid, e.luck);
    } else if e.Restart? {
      RestartKeepsOne(s, e.idle);
    } else {
      QuietKeepsOne(s, e);
    }
  }

  // ---------- Runs ----------

  lemma StartsOne(tr: seq<State>, es: seq<Event>)
    requires Run(tr, es)
    ensures OneInv(tr[0])
  {
    assert tr[0].cells.Keys <= {RequestsKey} && tr[0].threads == map[];
  }

  lemma {:induction false} RunOne(tr: seq<State>, es: seq<Event>, i: nat)
    requires Run(tr, es) && AllInvalidate(tr, es) && i < |tr| && |tr[0].pool.conns| <= 1
    ensures OneInv(tr[i]) && tr[i].pool.conns == tr[0].pool.conns
  {
    hide Inv, OneInv, Step, Enabled, Invalidates, Init;
    if i == 0 {
      StartsOne(tr, es);
    } else {
      RunOne(tr, es, i - 1);
      RunInv(tr, es, i - 1);
      RunStep(tr, es, i - 1);
      StepKeepsOne(tr[i - 1], es[i - 1]);
      Progress.ConnsStay(tr[i - 1], es[i - 1]);
    }
  }

  lemma AnswerStep(s: State, e: Event, t: nat)
    requires Enabled(s, e) && HasAnswer(s, t)
    ensures t in Step(s, e).threads && Step(s, e).threads[t] == s.threads[t]
  {
    hide Work, Can, Go;
  }

  /** An answer once given stays. */
  lemma {:induction false} AnswerStays(tr: seq<State>, es: seq<Event>, i: nat, j: nat, t: nat)
    requires Run(tr, es) && i <= j < |tr| && HasAnswer(tr[i], t)
    ensures t in tr[j].threads && tr[j].threads[t] == tr[i].threads[t]
    decreases j - i
  {
    hide Run, Step, Enabled;
    if i < j {
      AnswerStays(tr, es, i, j - 1, t);
      RunLengths(tr, es);
      RunStep(tr, es, j - 1);
      AnswerStep(tr[j - 1], es[j - 1], t);
    }
  }

  // ---------- What callers see ----------

  /** Call b has arrived after CreateUser w had been answered in state i, and is answered in state j. */
  predicate ComesAfter(tr: seq<State>, i: nat, w: nat, j: nat, b: nat) {
    && i <= j < |tr|
    && HasAnswer(tr[i], w) && AnswerOf(tr[i], w).Created? && Returned(tr[i], w)
    && b !in tr[i].threads && HasAnswer(tr[j], b)
  }

  /** The answer has its total from state c of the run, and its page, if it lists, from state p. */
  ghost predicate ScannedFrom(tr: seq<State>, c: nat, p: nat, call: Call, a: Answer) {
    if a.Listed? then
      call.Browse? && ListedFrom(tr, c, p, Service.PageLimit(call.limit), Service.PageOffset(call.offset), a.listing)
    else
      a.Totals? && c < |tr| && a.total == |tr[c].ledger.rows|
  }

  /** The total was counted, and the page read, on tables of the run that have this row. */
  ghost predicate Sees(tr: seq<State>, j: nat, b: nat, row: nat)
    requires j < |tr| && HasAnswer(tr[j], b)
  {
    exists c: nat, p: nat ::
      && ScannedFrom(tr, c, p, tr[j].threads[b].call, AnswerOf(tr[j], b))
      && c <= p <= j && row < |tr[c].ledger.rows|
  }

  predicate IsScan(a: Answer, lists: bool) {
    if lists then a.Listed? else a.Totals?
  }

  /** Every list (or, for `lists` false, every total of GetStats) knows of all users created before it was asked for. */
  ghost predicate ScansSee(tr: seq<State>, lists: bool) {
    forall i: nat, w: nat, j: nat, b: nat :: ComesAfter(tr, i, w, j, b) && IsScan(AnswerOf(tr[j], b), lists) ==>
      Sees(tr, j, b, AnswerOf(tr[i], w).row)
  }

  /** A cached answer was counted after the row of any call that had been answered when it was hit. */
  lemma HitSees(s: State, b: nat, src: Source, w: nat)
    requires OneInv(s) && src.ViaCache? && Hit(s, b, src) && HasAnswer(s, w) && AnswerOf(s, w).Created?
    requires Scans(s.threads[b].call)
    ensures CountedAfter(s.ledger.past, src.countAt, s.threads[w].pc)
  {
    hide CarriersFresh, AllIndexed, DeletingAll;
    var key := ProbeKey(s.threads[b].call);
    assert SettledRow(s.threads[w].pc) == Some(AnswerOf(s, w).row);
    assert Shared(key) && Dropped(s.threads[w].pc, key) && key in s.cells;
  }

  lemma CountSees(tr: seq<State>, es: seq<Event>, i: nat, w: nat, j: nat, b: nat)
    requires Run(tr, es) && AllInvalidate(tr, es) && |tr[0].pool.conns| <= 1 && ComesAfter(tr, i, w, j, b)
    requires AnswerOf(tr[j], b).Listed? || AnswerOf(tr[j], b).Totals?
    ensures var c := AnswerOf(tr[j], b).src.countAt; c <= j && AnswerOf(tr[i], w).row < |tr[c].ledger.rows|
  {
    hide Run, AllInvalidate, OneInv, Hit, GrowsTo;
    var src := AnswerOf(tr[j], b).src;
    StartsLater(tr, es, i, j, b);
    ThreadFacts(tr, es, j, b);
    ThreadFacts(tr, es, i, w);
    if src.ViaCache? {
      HitInRun(tr, es, j, b, src);
      var h := src.hitAt;
      AnswerStays(tr, es, i, h, w);
      RunOne(tr, es, h);
      HitSees(tr[h], b, src, w);
      MomentInRun(tr, es, h, src.countAt);
    } else {
      MomentInRun(tr, es, j, src.countAt);
      RunGrows(tr, es, i, src.countAt);
      GrownRows(WorldOf(tr[i]), WorldOf(tr[src.countAt]));
    }
  }

  /** One connection suffices. */
  lemma OneSuffices(tr: seq<State>, es: seq<Event>, lists: bool)
    requires Run(tr, es) && AllInvalidate(tr, es) && |tr[0].pool.conns| <= 1
    ensures ScansSee(tr, lists)
  {
    forall i: nat, w: nat, j: nat, b: nat | ComesAfter(tr, i, w, j, b) && IsScan(AnswerOf(tr[j], b), lists)
      ensures Sees(tr, j, b, AnswerOf(tr[i], w).row)
    {
      ScanSees(tr, es, i, w, j, b);
    }
  }

  lemma ScanSees(tr: seq<State>, es: seq<Event>, i: nat, w: nat, j: nat, b: nat)
    requires Run(tr, es) && AllInvalidate(tr, es) && |tr[0].pool.conns| <= 1 && ComesAfter(tr, i, w, j, b)
    requires AnswerOf(tr[j], b).Listed? || AnswerOf(tr[j], b).Totals?
    ensures Sees(tr, j, b, AnswerOf(tr[i], w).row)
  {
    CountSees(tr, es, i, w, j, b);
    hide Run, AllInvalidate;
    var src := AnswerOf(tr[j], b).src;
    ThreadFacts(tr, es, j, b);
    MomentInRun(tr, es, j, src.countAt);
    MomentInRun(tr, es, j, src.pageAt);
    assert ScannedFrom(tr, src.countAt, src.pageAt, tr[j].threads[b].call, AnswerOf(tr[j], b));
  }

  function Elements(xs: seq<nat>): set<nat> {
    set x | x in xs
  }

  lemma {:induction false} ElementsFit(xs: seq<nat>)
    ensures |Elements(xs)| <= |xs|
  {
    if xs != [] {
      var rest := xs[..|xs| - 1];
      ElementsFit(rest);
      var last := xs[|xs| - 1];
      assert Elements(xs) == Elements(rest) + {last};
      assert last in Elements(rest) ==> Elements(rest) + {last} == Elements(rest);
    } else {
      assert Elements(xs) == {};
    }
  }

  /** A new pool has all its connections idle. */
  lemma AllAreIdle(p: Pool)
    requires Fresh(p)
    ensures |p.conns| <= |p.idle|
  {
    ElementsFit(p.idle);
    assert p.conns == Elements(p.idle);
  }

  /** The row of a call of the run comes after all that were there at the start. */
  lemma NewRow(tr: seq<State>, es: seq<Event>, i: nat, w: nat)
    requires Run(tr, es) && i < |tr| && HasAnswer(tr[i], w) && AnswerOf(tr[i], w).Created?
    ensures |tr[0].ledger.rows| <= AnswerOf(tr[i], w).row
  {
    assert |tr[0].ledger.writers| == |tr[0].ledger.rows|;
    assert forall x :: 0 <= x < |tr[0].ledger.writers| ==> tr[0].ledger.writers[x].None?;
    hide Run;
    RunGrows(tr, es, 0, i);
    ThreadFacts(tr, es, i, w);
  }

  lemma SmoothInvalidates(tr: seq<State>, es: seq<Event>)
    requires Smooth(tr, es)
    ensures Run(tr, es) && AllInvalidate(tr, es)
  {
    hide Run;
  }

  /** With two, some run without a failure misses a user. */
  lemma TwoDoNot(s: State, lists: bool) returns (tr: seq<State>, es: seq<Event>)
    requires Init(s) && |s.pool.conns| > 1
    requires LastId(s.ledger.rows) < Decimal.INT64_MAX && Counter(s.cells, s.now, RequestsKey) < Decimal.INT64_MAX - 3
    ensures Run(tr, es) && |tr| > 0 && tr[0] == s && AllInvalidate(tr, es) && !ScansSee(tr, lists)
  {
    AllAreIdle(s.pool);
    hide Init, Run, Smooth, AllInvalidate, FreshFor;
    var read := if lists then Browse(0, 0) else Stats;
    assert Valid(Create("x", ""));
    var i: nat;
    tr, es, i := GoesStale(s, read, Create("x", ""), 0);
    SmoothInvalidates(tr, es);
    var j := |tr| - 1;
    NewRow(tr, es, i, 1);
    StaleTotal(AnswerOf(tr[j], 2), read, s.ledger.rows);
    assert ComesAfter(tr, i, 1, j, 2);
  }

  lemma StaleTotal(a: Answer, call: Call, rows: seq<Row>)
    requires AnsweredFrom(a, call, rows) && Scans(call)
    ensures if call.Browse? then a.Listed? && a.listing.total == |rows| else a.Totals? && a.total == |rows|
  {
  }

  /**
   When deletion on write keeps lists (`lists` true) and totals (false)
   consistent.  From a start with room for another user and three more requests:
   in every run in which no SMEMBERS, DEL or SADD is lost, whatever else fails
   or expires, every answer knows of all users created before it was asked for,
   if and only if the pool has at most one connection.
   */
  lemma ConsistentExactly(s: State, lists: bool)
    requires Init(s)
    requires LastId(s.ledger.rows) < Decimal.INT64_MAX && Counter(s.cells, s.now, RequestsKey) < Decimal.INT64_MAX - 3
    ensures (forall tr, es :: Run(tr, es) && tr[0] == s && AllInvalidate(tr, es) ==> ScansSee(tr, lists))
            <==> |s.pool.conns| <= 1
  {
    if |s.pool.conns| <= 1 {
      hide Init, AllInvalidate, ScansSee;
      forall tr, es | Run(tr, es) && |tr| > 0 && tr[0] == s && AllInvalidate(tr, es) ensures ScansSee(tr, lists) {
        OneSuffices(tr, es, lists);
      }
    } else {
      hide Init, Run, AllInvalidate, ScansSee;
      var tr, es := TwoDoNot(s, lists);
    }
  }
}
