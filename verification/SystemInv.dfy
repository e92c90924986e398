/**
 What every step of every interleaving keeps.
 */
module SystemInv {
  import opened Prelude
  import opened Users
  import opened Json
  import opened Redis
  import opened Keys
  import opened PoolProtocol
  import opened System
  import CacheState
  import Service
  import Decimal

  // ---------- The ledger ----------

  ghost predicate LedgerOk(l: Ledger, now: nat) {
    && Ordered(l.rows) && NulFreeRows(l.rows) && |l.writers| == |l.rows|
    && l.past != [] && l.past[|l.past| - 1] == Moment(now, |l.rows|)
    && (forall i, j :: 0 <= i <= j < |l.past| ==> l.past[i].now <= l.past[j].now && l.past[i].rows <= l.past[j].rows)
  }

  /** Rows, writers and moments are only ever appended. */
  predicate Extends(l: Ledger, l': Ledger) {
    l.rows <= l'.rows && l.writers <= l'.writers && l.past <= l'.past
  }

  predicate IsMoment(l: Ledger, at: nat) {
    at < |l.past| && l.past[at].rows <= |l.rows|
  }

  /** The table at a past moment. */
  function RowsAt(l: Ledger, at: nat): seq<Row>
    requires IsMoment(l, at)
  {
    l.rows[..l.past[at].rows]
  }

  lemma MomentsKept(l: Ledger, l': Ledger, at: nat)
    requires Extends(l, l') && IsMoment(l, at)
    ensures IsMoment(l', at) && l'.past[at] == l.past[at] && RowsAt(l', at) == RowsAt(l, at)
  {
  }

  /** What facts about threads and cache entries are relative to; all of it only grows. */
  datatype World = World(ledger: Ledger, resolve: string -> nat)

  ghost predicate GrowsTo(w: World, w': World) {
    Extends(w.ledger, w'.ledger) && w.resolve == w'.resolve
  }

  function WorldOf(s: State): World {
    World(s.ledger, s.resolve)
  }

  lemma AllMomentsKept(l: Ledger, l': Ledger)
    requires Extends(l, l')
    ensures forall at: nat {:trigger IsMoment(l', at)} {:trigger IsMoment(l, at)} :: IsMoment(l, at) ==>
              IsMoment(l', at) && l'.past[at] == l.past[at] && RowsAt(l', at) == RowsAt(l, at)
  {
    forall at: nat | IsMoment(l, at)
      ensures IsMoment(l', at) && l'.past[at] == l.past[at] && RowsAt(l', at) == RowsAt(l, at)
    {
      MomentsKept(l, l', at);
    }
  }

  // ---------- Facts about answers ----------

  /** Row `row` was inserted by call t with these fields. */
  predicate WrittenBy(l: Ledger, row: nat, t: nat, name: string, email: string, stamp: Decimal.int64) {
    && row < |l.rows| && row < |l.writers| && l.writers[row] == Some(t)
    && l.rows[row] == Row(l.rows[row].id, name, email, stamp)
  }

  /** `u` is the user of row `row`, which matches the id. */
  predicate MatchesRow(l: Ledger, resolve: string -> nat, id: string, u: User, row: nat) {
    row < |l.rows| && l.rows[row].id == resolve(id) && u == UserOf(l.rows[row])
  }

  /** The total is the table size at countAt, the users are the page of the table at pageAt. */
  predicate ListingAt(l: Ledger, limit: nat, offset: nat, listing: Listing, countAt: nat, pageAt: nat) {
    && countAt <= pageAt && IsMoment(l, countAt) && IsMoment(l, pageAt)
    && listing.total == l.past[countAt].rows
    && listing.users == UsersOf(Page(RowsAt(l, pageAt), limit, offset))
  }

  /** A source is either inside the call, or a cache entry read within the call at most `ttl` after it was set. */
  predicate SourceOk(l: Ledger, src: Source, startAt: nat, ttl: nat) {
    match src
    case Direct(c, p) => startAt <= c <= p && IsMoment(l, p)
    case ViaCache(c, p, st, h) =>
      && c <= p <= st <= h && startAt <= h && IsMoment(l, h) && IsMoment(l, st) && IsMoment(l, c)
      && l.past[h].now <= l.past[st].now + ttl
  }

  const LIST_TTL: nat := CacheState.LIST_CACHE_TTL * SECOND
  const STATS_TTL: nat := CacheState.STATS_CACHE_TTL * SECOND

  /** The id strings of two requests have one cache key. */
  predicate SameKey(asked: string, id: string) {
    asked != "" && CString(asked) == CString(id)
  }

  /** The validation of the RPCs turns the call away. */
  predicate Refused(call: Call) {
    (call.Create? && call.name == "") || (call.Fetch? && call.id == "")
  }

  predicate AnswerOk(w: World, t: nat, th: Thread, a: Answer) {
    var l := w.ledger;
    match a
    case Rejected => Refused(th.call)
    case Failed => !th.call.Fetch?
    case Missing(why) =>
      th.call.Fetch? &&
      (why.NoRow? ==>
         th.startAt <= why.at && IsMoment(l, why.at) && Find(RowsAt(l, why.at), w.resolve(th.call.id)).None?)
    case Created(u, row) =>
      th.call.Create? && WrittenBy(l, row, t, th.call.name, th.call.email, u.createdAt) && u == UserOf(l.rows[row])
    case Found(u, row, asked) => th.call.Fetch? && SameKey(asked, th.call.id) && MatchesRow(l, w.resolve, asked, u, row)
    case Listed(listing, src) =>
      && th.call.Browse? && SourceOk(l, src, th.startAt, LIST_TTL)
      && ListingAt(l, Service.PageLimit(th.call.limit), Service.PageOffset(th.call.offset), listing,
                   src.countAt, src.pageAt)
    case Totals(total, _, _, src) =>
      th.call.Stats? && TotalOk(l, total, src, th.startAt)
  }

  predicate TotalOk(l: Ledger, total: int, src: Source, startAt: nat) {
    SourceOk(l, src, startAt, STATS_TTL) && IsMoment(l, src.countAt) && total == l.past[src.countAt].rows
  }

  /** A page fetched for a browse call: counted, then read, both within the call. */
  predicate Browsing(l: Ledger, th: Thread, total: int, countAt: nat) {
    th.call.Browse? && th.startAt <= countAt && IsMoment(l, countAt) && total == l.past[countAt].rows
  }

  predicate BrowsedAt(l: Ledger, th: Thread, listing: Listing, countAt: nat, pageAt: nat) {
    && th.call.Browse? && th.startAt <= countAt
    && ListingAt(l, Service.PageLimit(th.call.limit), Service.PageOffset(th.call.offset), listing, countAt, pageAt)
  }

  /** A create call past its INSERT: `u` is the user of the row it wrote. */
  predicate Creating(l: Ledger, t: nat, th: Thread, u: User, row: nat) {
    th.call.Create? && WrittenBy(l, row, t, th.call.name, th.call.email, u.createdAt) && u == UserOf(l.rows[row])
  }

  predicate OnlyLists(keys: seq<Key>) {
    forall i :: 0 <= i < |keys| ==> keys[i].ListKey?
  }

  /** What a thread's local variables say about the ledger. */
  predicate PcOk(w: World, t: nat, th: Thread) {
    var l := w.ledger;
    match th.pc
    case ReadingId(stamp, row) => th.call.Create? && WrittenBy(l, row, t, th.call.name, th.call.email, stamp)
    case Priming(u, row) => Creating(l, t, th, u, row)
    case Enumerating(u, row) => Creating(l, t, th, u, row)
    case Deleting(u, row, keys) => Creating(l, t, th, u, row) && OnlyLists(keys)
    case DroppingTotal(u, row) => Creating(l, t, th, u, row)
    case FetchingRow(found, at) =>
      th.call.Fetch? && th.startAt <= at && IsMoment(l, at) && found == Find(RowsAt(l, at), w.resolve(th.call.id))
    case FillingUser(u, row) => th.call.Fetch? && MatchesRow(l, w.resolve, th.call.id, u, row)
    case FetchingCount(n, at) => th.startAt <= at && IsMoment(l, at) && n == l.past[at].rows
    case SelectingPage(total, countAt) => Browsing(l, th, total, countAt)
    case FetchingPage(total, countAt, page, pageAt) =>
      && Browsing(l, th, total, countAt) && countAt <= pageAt && IsMoment(l, pageAt)
      && page == CallPage(RowsAt(l, pageAt), th.call)
    case FillingList(listing, c, p) => BrowsedAt(l, th, listing, c, p)
    case Indexing(listing, c, p) => BrowsedAt(l, th, listing, c, p)
    case FillingTotal(total, c) => th.startAt <= c && IsMoment(l, c) && total == l.past[c].rows
    case Returning(a) => AnswerOk(w, t, th, a) && !a.Totals? && (a.Listed? ==> a.src.Direct?)
    case ReturningTotal(total, src) => th.call.Stats? && TotalOk(l, total, src, th.startAt) && src.Direct?
    case ReadingRequests(total, src) => th.call.Stats? && TotalOk(l, total, src, th.startAt)
    case Done(a) => AnswerOk(w, t, th, a)
    case _ => true
  }

  predicate ThreadOk(w: World, t: nat, th: Thread) {
    && Fits(th.call, th.pc) && CleanCall(th.call) && th.startAt < |w.ledger.past| && PcOk(w, t, th)
    && (Refused(th.call) ==> th.pc.Counting? || th.pc == Done(Rejected) || th.pc.Crashed?)
  }

  lemma AnswerKept(w: World, w': World, t: nat, th: Thread, a: Answer)
    requires GrowsTo(w, w') && AnswerOk(w, t, th, a)
    ensures AnswerOk(w', t, th, a)
  {
    AllMomentsKept(w.ledger, w'.ledger);
  }

  /** Growth never takes back what a thread knows. */
  lemma ThreadKept(w: World, w': World, t: nat, th: Thread)
    requires GrowsTo(w, w') && ThreadOk(w, t, th)
    ensures ThreadOk(w', t, th)
  {
    hide AnswerOk;
    AllMomentsKept(w.ledger, w'.ledger);
    if th.pc.Returning? || th.pc.Done? {
      AnswerKept(w, w', t, th, th.pc.answer);
    }
  }

  // ---------- The cache ----------

  /** An entry is what its origin says, and expires its TTL after it was set. */
  predicate CellOk(w: World, k: Key, e: Entry, o: Origin) {
    var l := w.ledger;
    match k
    case UserKey(id) =>
      && o.OfRow? && SameKey(o.asked, id) && CString(id) == id
      && o.row < |l.rows| && l.rows[o.row].id == w.resolve(o.asked) && e.value == Doc(UserToJson(UserOf(l.rows[o.row])))
    case ListKey(limit, offset) =>
      && limit >= 0 && offset >= 0 && o.OfPage? && o.countAt <= o.pageAt <= o.setAt
      && IsMoment(l, o.countAt) && IsMoment(l, o.pageAt) && IsMoment(l, o.setAt)
      && l.past[o.countAt].rows <= Decimal.INT64_MAX
      && var listing := Listing(UsersOf(Page(RowsAt(l, o.pageAt), limit, offset)), l.past[o.countAt].rows);
         e == Entry(Doc(EncodeListing(listing)), Some(l.past[o.setAt].now + LIST_TTL))
    case TotalKey =>
      && o.OfCount? && o.countAt <= o.setAt && IsMoment(l, o.countAt) && IsMoment(l, o.setAt)
      && l.past[o.countAt].rows <= Decimal.INT64_MAX
      && e == Entry(Digits(Decimal.Text(l.past[o.countAt].rows)), Some(l.past[o.setAt].now + STATS_TTL))
    case RequestsKey => CounterEntry(e)
    case IndexKey => false
  }

  predicate CellsOk(w: World, cells: map<Key, Entry>, origins: map<Key, Origin>) {
    forall k :: k in cells ==> CellOk(w, k, cells[k], if k in origins then origins[k] else OfRow(0, ""))
  }

  lemma CellKept(w: World, w': World, k: Key, e: Entry, o: Origin)
    requires GrowsTo(w, w') && CellOk(w, k, e, o)
    ensures CellOk(w', k, e, o)
  {
    AllMomentsKept(w.ledger, w'.ledger);
  }

  // ---------- Connections ----------

  /** Where in the pool a thread at this code position can be. */
  predicate Placed(pc: Pc, st: Status) {
    if pc.Counting? || pc.Probing? then st.Out?
    else if WantsConn(pc) then
      st.Out? || st.Entering? || st.Testing? || st.Asleep? || st.Woken? || st.Popped? || st.Holding?
    else if NeedsConn(pc) then st.Holding?
    else st.Out? || st.Releasing? || st.Pushing? || st.Notifying? || st.Leaving?
  }

  /** Connection protocol: idle connections are ready, held ones are used by their holder alone. */
  predicate SessionsOk(s: State) {
    && (forall c :: c in s.pool.idle ==> Ready(s, c))
    && (forall t :: t in s.threads ==> SessionFits(s, t))
  }

  predicate ThreadsPlaced(s: State) {
    && s.threads.Keys == s.pool.status.Keys
    && (forall t :: t in s.threads ==> Placed(s.threads[t].pc, s.pool.status[t]))
  }

  // ---------- Writers ----------

  predicate BeforeInsert(th: Thread) {
    th.pc.Counting? || th.pc.Inserting?
  }

  /** The row has the name and the email of the call, which was not turned away. */
  predicate RowOfCall(row: Row, call: Call) {
    call.Create? && call.name != "" && row.name == call.name && row.email == call.email
  }

  /** Every new row has its own call, which is past its INSERT. */
  predicate WritersOk(rows: seq<Row>, writers: seq<Option<nat>>, threads: map<nat, Thread>) {
    && |rows| == |writers|
    && (forall i, j :: 0 <= i < j < |writers| && writers[i].Some? ==> writers[i] != writers[j])
    && (forall i :: 0 <= i < |writers| && writers[i].Some? ==>
          && writers[i].value in threads && !BeforeInsert(threads[writers[i].value])
          && RowOfCall(rows[i], threads[writers[i].value].call))
  }

  // ---------- Request counting ----------

  /** Calls that have executed their counting step. */
  function CountedCalls(threads: map<nat, Thread>): set<nat> {
    set t | t in threads && !threads[t].call.Stats? && !threads[t].pc.Counting? && threads[t].pc != Crashed(false)
  }

  predicate CountsOk(s: State, base: int) {
    Counter(s.cells, s.now, RequestsKey) + s.lost == base + |CountedCalls(s.threads)|
  }

  ghost predicate Inv(s: State) {
    && LedgerOk(s.ledger, s.now)
    && CacheState.Resolves(s.resolve)
    && PoolInv(s.pool)
    && ThreadsPlaced(s)
    && (forall t :: t in s.threads ==> ThreadOk(WorldOf(s), t, s.threads[t]))
    && CellsOk(WorldOf(s), s.cells, s.origins)
    && SessionsOk(s)
    && WritersOk(s.ledger.rows, s.ledger.writers, s.threads)
    && (forall k :: k in s.index ==> k.ListKey?)
  }
}
