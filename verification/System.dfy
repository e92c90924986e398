/**
 The whole server as a concurrent state machine: any number of RPC calls
 (src/grpc_server/user_service.cpp) run the repository code
 (src/store/user_repository.cpp) on top of the pool protocol, one Redis command,
 SQL exchange or pool operation per step.  Any Redis command may fail with or
 without having taken effect, any SQL statement may fail, keys with a TTL may
 vanish early, and time passes between any two steps.

 Fields described as history record when things happened; no step looks at them.
 The process may end at any point and start again on the table and the Redis it
 left behind; its calls then stay as Crashed, never to be answered.
 */
module System {
  import opened Prelude
  import opened Users
  import opened Json
  import opened Redis
  import opened Keys
  import opened PoolProtocol
  import CacheState
  import Service
  import Decimal

  datatype Call =
    | Create(name: string, email: string)
    | Fetch(id: string)
    | Browse(limit: int, offset: int)
    | Stats

  predicate CleanCall(c: Call) {
    c.Create? ==> NulFree(c.name) && NulFree(c.email)
  }

  // ---------- History ----------

  /** The clock and the table size at one moment; a moment is named by its position in Ledger.past. */
  datatype Moment = Moment(now: nat, rows: nat)

  /** The committed rows, which call wrote each of them (None: there before the start), and every moment so far. */
  datatype Ledger = Ledger(rows: seq<Row>, writers: seq<Option<nat>>, past: seq<Moment>)

  /**
   When an answer's total was counted and its page read: by the call itself, or
   by the call that filled the cache at `setAt`, the entry being read at `hitAt`.
   */
  datatype Source =
    | Direct(countAt: nat, pageAt: nat)
    | ViaCache(countAt: nat, pageAt: nat, setAt: nat, hitAt: nat)

  /** Where a cache entry came from; a user's row was selected for the id string `asked`. */
  datatype Origin =
    | OfRow(row: nat, asked: string)
    | OfPage(countAt: nat, pageAt: nat, setAt: nat)
    | OfCount(countAt: nat, setAt: nat)

  /** Why GetUser found nobody: no row at that moment, or its statement failed. */
  datatype Why = NoRow(at: nat) | SqlFailed

  /**
   The answer of a call, with history: the table position of a user and the id
   string its row was selected for, the source of a listing, whether the request
   counter could be read.
   */
  datatype Answer =
    | Rejected
    | Failed
    | Missing(why: Why)
    | Created(user: User, row: nat)
    | Found(user: User, row: nat, asked: string)
    | Listed(listing: Listing, src: Source)
    | Totals(total: int, requests: int, read: bool, src: Source)

  // ---------- Threads ----------

  /** What a thread does next, with its local variables. */
  datatype Pc =
    | Counting
    | Probing
    | Inserting(stamp: Decimal.int64)
    | ReadingId(stamp: Decimal.int64, row: nat)
    | Priming(user: User, row: nat)
    | Enumerating(user: User, row: nat)
    | Deleting(user: User, row: nat, keys: seq<Key>)
    | DroppingTotal(user: User, row: nat)
    | Selecting
    | FetchingRow(found: Option<nat>, at: nat)
    | FillingUser(user: User, row: nat)
    | CountingRows
    | FetchingCount(n: nat, at: nat)
    | SelectingPage(total: Decimal.int64, countAt: nat)
    | FetchingPage(total: Decimal.int64, countAt: nat, page: seq<Row>, pageAt: nat)
    | FillingList(listing: Listing, countAt: nat, pageAt: nat)
    | Indexing(listing: Listing, countAt: nat, pageAt: nat)
    | FillingTotal(total: Decimal.int64, countAt: nat)
    | Returning(answer: Answer)
    | ReturningTotal(total: Decimal.int64, src: Source)
    | ReadingRequests(total: Decimal.int64, src: Source)
    | Done(answer: Answer)
    | Crashed(counted: bool)

  /** `startAt`, history: the moment just before the call arrived. */
  datatype Thread = Thread(call: Call, startAt: nat, pc: Pc)

  /** One connection: an answer not yet read off it, and the id of its last INSERT. */
  datatype Session = Session(unread: bool, insertId: nat)

  datatype State = State(
    now: nat,
    ledger: Ledger,
    sessions: map<nat, Session>,
    cells: map<Key, Entry>,
    index: set<Key>,
    pool: Pool,
    threads: map<nat, Thread>,
    /** `WHERE id='s'` selects the row with this id. */
    resolve: string -> nat,
    /** History: the origin of each cache entry. */
    origins: map<Key, Origin>,
    /** History: INCRs that did not take effect. */
    lost: nat)

  function CurrentMoment(s: State): nat {
    if s.ledger.past == [] then 0 else |s.ledger.past| - 1
  }

  /** What the environment decides in a step. */
  datatype Luck = Luck(
    ok: bool,                 // the command or statement is answered
    applied: bool,            // it takes effect
    stamp: Decimal.int64,     // the wall clock in seconds
    gap: nat,                 // ids the server skips
    members: seq<Key>)        // the order SMEMBERS lists the index in

  // ---------- Where a thread can run its own code ----------

  predicate NeedsConn(pc: Pc) {
    !pc.Counting? && !pc.Probing? && !pc.ReadingRequests? && !pc.Done? && !pc.Crashed?
  }

  /** The first use of a connection: reached before acquire is called. */
  predicate WantsConn(pc: Pc) {
    pc.Inserting? || pc.Selecting? || pc.CountingRows?
  }

  /** The code position makes sense for the call. */
  predicate Fits(c: Call, pc: Pc) {
    match pc
    case Counting => !c.Stats?
    case Probing => !c.Create?
    case Inserting(_) => c.Create?
    case ReadingId(_, _) => c.Create?
    case Priming(_, _) => c.Create?
    case Enumerating(_, _) => c.Create?
    case Deleting(_, _, _) => c.Create?
    case DroppingTotal(_, _) => c.Create?
    case Selecting => c.Fetch?
    case FetchingRow(_, _) => c.Fetch?
    case FillingUser(_, _) => c.Fetch?
    case CountingRows => c.Browse? || c.Stats?
    case FetchingCount(_, _) => c.Browse? || c.Stats?
    case SelectingPage(_, _) => c.Browse?
    case FetchingPage(_, _, _, _) => c.Browse?
    case FillingList(_, _, _) => c.Browse?
    case Indexing(_, _, _) => c.Browse?
    case FillingTotal(_, _) => c.Stats?
    case ReturningTotal(_, _) => c.Stats?
    case ReadingRequests(_, _) => c.Stats?
    case _ => true
  }

  predicate IsWork(pc: Pc) {
    !pc.Returning? && !pc.ReturningTotal? && !pc.Done? && !pc.Crashed?
  }

  /** The thread can run its own code: it holds a connection where it needs one. */
  predicate CanWork(s: State, t: nat) {
    && t in s.threads && t in s.pool.status
    && Fits(s.threads[t].call, s.threads[t].pc) && IsWork(s.threads[t].pc)
    && (if NeedsConn(s.threads[t].pc) then s.pool.status[t].Holding? else s.pool.status[t].Out?)
  }

  /** How far a code position is from the end of its call; only Deleting is left more slowly, key by key. */
  function Rank(pc: Pc): nat {
    match pc
    case Counting => 20
    case Probing => 19
    case Inserting(_) => 18
    case ReadingId(_, _) => 17
    case Priming(_, _) => 16
    case Enumerating(_, _) => 15
    case Deleting(_, _, _) => 14
    case DroppingTotal(_, _) => 13
    case Selecting => 18
    case FetchingRow(_, _) => 17
    case FillingUser(_, _) => 16
    case CountingRows => 18
    case FetchingCount(_, _) => 17
    case SelectingPage(_, _) => 16
    case FetchingPage(_, _, _, _) => 15
    case FillingList(_, _, _) => 14
    case Indexing(_, _, _) => 13
    case FillingTotal(_, _) => 12
    case Returning(_) => 3
    case ReturningTotal(_, _) => 3
    case ReadingRequests(_, _) => 2
    case Done(_) => 0
    case Crashed(_) => 0
  }

  function Remaining(pc: Pc): nat {
    if pc.Deleting? then |pc.keys| else 0
  }

  /** Code only moves forward, and from one side of acquire to the other only by the guard. */
  predicate PcAdvances(pc: Pc, pc': Pc) {
    && (Rank(pc') < Rank(pc) || (Rank(pc') == Rank(pc) && Remaining(pc') < Remaining(pc)))
    && (if NeedsConn(pc) then NeedsConn(pc') && !WantsConn(pc') else WantsConn(pc') || !NeedsConn(pc'))
    && !pc'.Counting? && !pc'.Crashed? && (pc'.Inserting? ==> pc.Counting?)
  }

  /** The steps that send SET, DEL or INCR. */
  predicate WritesCache(pc: Pc) {
    || pc.Counting? || pc.Priming? || pc.Deleting? || pc.DroppingTotal?
    || pc.FillingUser? || pc.FillingList? || pc.FillingTotal?
  }

  predicate Fetching(pc: Pc) {
    pc.FetchingRow? || pc.FetchingCount? || pc.FetchingPage?
  }

  /**
   A thread with a guard has a result unread exactly while it fetches it, and
   between its INSERT and reading the id back the connection remembers that row.
   */
  predicate SessionFits(s: State, t: nat) {
    t in s.threads && t in s.pool.status && Owns(s.pool.status[t]) ==>
      var c, pc := s.pool.status[t].conn, s.threads[t].pc;
      && c in s.sessions
      && (s.sessions[c].unread <==> Fetching(pc))
      && (pc.ReadingId? ==> pc.row < |s.ledger.rows| && s.sessions[c].insertId == s.ledger.rows[pc.row].id)
  }

  /**
   A step of one thread: the clock, the pool, the moments, every other thread
   and every other connection stay as they are.
   */
  ghost predicate Local(s: State, s': State, t: nat) {
    && t in s.threads && t in s'.threads && t in s.pool.status
    && s'.now == s.now && s'.pool == s.pool && s'.resolve == s.resolve
    && s'.ledger.past == s.ledger.past
    && s'.threads == s.threads[t := s.threads[t].(pc := s'.threads[t].pc)]
    && PcAdvances(s.threads[t].pc, s'.threads[t].pc)
    && (!s.threads[t].pc.Inserting? ==> s'.ledger == s.ledger)
    && (!WritesCache(s.threads[t].pc) ==> s'.cells == s.cells && s'.origins == s.origins)
    && (!s.threads[t].pc.Counting? ==> s'.lost == s.lost)
    && (forall k :: k in s'.index ==> k in s.index || k.ListKey?)
    && (forall c :: c in s.sessions && !(s.pool.status[t].Holding? && s.pool.status[t].conn == c) ==>
          c in s'.sessions && s'.sessions[c] == s.sessions[c])
    && (SessionFits(s, t) ==> SessionFits(s', t))
  }

  // ---------- Steps of the repository code ----------

  function GoTo(s: State, t: nat, pc: Pc): State
    requires t in s.threads
  {
    s.(threads := s.threads[t := s.threads[t].(pc := pc)])
  }

  /** CountRequest, then the validation of the RPC. */
  function Count(s: State, t: nat, k: Luck): (s': State)
    requires CanWork(s, t) && s.threads[t].pc.Counting?
    ensures Local(s, s', t)
  {
    var th := s.threads[t];
    var s1 := if k.applied then s.(cells := Increment(s.cells, s.now, RequestsKey)) else s.(lost := s.lost + 1);
    var next := match th.call
      case Create(name, _) => if name == "" then Done(Rejected) else Inserting(k.stamp)
      case Fetch(id) => if id == "" then Done(Rejected) else Probing
      case _ => Probing;
    GoTo(s1, t, next)
  }

  function PageKey(c: Call): Key
    requires c.Browse?
  {
    ListKey(Service.PageLimit(c.limit), Service.PageOffset(c.offset))
  }

  /** The key a read call probes first, as the repository builds it. */
  function BuiltKey(c: Call): Key {
    match c
    case Fetch(id) => UserKey(id)
    case Browse(_, _) => PageKey(c)
    case _ => TotalKey
  }

  /** And as it reaches Redis. */
  function ProbeKey(c: Call): Key {
    Cut(BuiltKey(c))
  }

  function OriginOf(s: State, k: Key): Origin {
    if k in s.origins then s.origins[k] else OfRow(0, "")
  }

  function UserHitPc(j: Json, o: Origin): Pc {
    match DecodeUser(j)
    case Thrown => Selecting
    case Ok(u) => Done(if o.OfRow? then Found(u, o.row, o.asked) else Found(u, 0, ""))
  }

  function ListHitPc(j: Json, o: Origin, at: nat): Pc {
    match DecodeListing(j)
    case Thrown => CountingRows
    case Ok(l) => Done(Listed(l, if o.OfPage? then ViaCache(o.countAt, o.pageAt, o.setAt, at) else Direct(0, 0)))
  }

  function TotalHitPc(v: Value, o: Origin, at: nat): Pc {
    ReadingRequests(ParseInt(v), if o.OfCount? then ViaCache(o.countAt, o.countAt, o.setAt, at) else Direct(0, 0))
  }

  /** The cache read; anything but an entry that decodes sends the call to the table. */
  function Probe(s: State, t: nat, k: Luck): (s': State)
    requires CanWork(s, t) && s.threads[t].pc.Probing?
    ensures Local(s, s', t)
  {
    var call := s.threads[t].call;
    var key := ProbeKey(call);
    var o, at := OriginOf(s, key), CurrentMoment(s);
    var next := match if k.ok then Visible(s.cells, s.now, key) else None
      case None => if call.Fetch? then Selecting else CountingRows
      case Some(v) =>
        if call.Stats? then TotalHitPc(v, o, at)
        else match ParseJson(v)
          case Thrown => if call.Fetch? then Selecting else CountingRows
          case Ok(j) => if call.Fetch? then UserHitPc(j, o) else ListHitPc(j, o, at);
    GoTo(s, t, next)
  }

  /** The connection of a thread that has its guard. */
  function ConnOf(s: State, t: nat): nat
    requires t in s.pool.status && s.pool.status[t].Holding?
  {
    s.pool.status[t].conn
  }

  function SetSession(s: State, c: nat, ses: Session): State {
    s.(sessions := s.sessions[c := ses])
  }

  function Ready(s: State, c: nat): bool {
    c in s.sessions && !s.sessions[c].unread
  }

  function AppendRow(l: Ledger, row: Row, t: nat): Ledger {
    l.(rows := l.rows + [row], writers := l.writers + [Some(t)])
  }

  /** INSERT; it may also fail after having taken effect.  Out of sync, nothing reaches the server. */
  function InsertRow(s: State, t: nat, k: Luck): (s': State)
    requires CanWork(s, t) && s.threads[t].pc.Inserting?
    ensures Local(s, s', t)
  {
    var th := s.threads[t];
    var c := ConnOf(s, t);
    if !k.applied || !Ready(s, c) then GoTo(s, t, Returning(Failed))
    else
      var id := LastId(s.ledger.rows) + 1 + k.gap;
      var row := Row(id, th.call.name, th.call.email, th.pc.stamp);
      var s1 := SetSession(s, c, Session(false, id)).(ledger := AppendRow(s.ledger, row, t));
      GoTo(s1, t, if k.ok then ReadingId(th.pc.stamp, |s.ledger.rows|) else Returning(Failed))
  }

  function ReadId(s: State, t: nat): (s': State)
    requires CanWork(s, t) && s.threads[t].pc.ReadingId?
    ensures Local(s, s', t)
  {
    var th := s.threads[t];
    var c := ConnOf(s, t);
    var id := if c in s.sessions then s.sessions[c].insertId else 0;
    GoTo(s, t, Priming(User(Decimal.Text(id), th.call.name, th.call.email, th.pc.stamp), th.pc.row))
  }

  /** SET of a user under the key for the id string `asked`. */
  function StoreUser(s: State, asked: string, u: User, row: nat): State {
    var key := Cut(UserKey(asked));
    s.(cells := Put(s.cells, s.now, key, Doc(UserToJson(u)), CacheState.USER_CACHE_TTL),
       origins := s.origins[key := OfRow(row, asked)])
  }

  function Prime(s: State, t: nat, k: Luck): (s': State)
    requires CanWork(s, t) && s.threads[t].pc.Priming?
    ensures Local(s, s', t)
  {
    var pc := s.threads[t].pc;
    GoTo(if k.applied then StoreUser(s, pc.user.id, pc.user, pc.row) else s, t, Enumerating(pc.user, pc.row))
  }

  /** SMEMBERS; an unanswered one leaves nothing to delete. */
  function Enumerate(s: State, t: nat, k: Luck): (s': State)
    requires CanWork(s, t) && s.threads[t].pc.Enumerating?
    ensures Local(s, s', t)
  {
    var pc := s.threads[t].pc;
    GoTo(s, t, Deleting(pc.user, pc.row, if k.ok then k.members else []))
  }

  /** Deleting the keys one by one, then the index. */
  function DeleteNext(s: State, t: nat, k: Luck): (s': State)
    requires CanWork(s, t) && s.threads[t].pc.Deleting?
    ensures Local(s, s', t)
  {
    var pc := s.threads[t].pc;
    if pc.keys != [] then
      GoTo(if k.applied then s.(cells := s.cells - {pc.keys[0]}) else s, t, Deleting(pc.user, pc.row, pc.keys[1..]))
    else
      GoTo(if k.applied then s.(index := {}) else s, t, DroppingTotal(pc.user, pc.row))
  }

  function DropTotal(s: State, t: nat, k: Luck): (s': State)
    requires CanWork(s, t) && s.threads[t].pc.DroppingTotal?
    ensures Local(s, s', t)
  {
    var pc := s.threads[t].pc;
    GoTo(if k.applied then s.(cells := s.cells - {TotalKey}) else s, t, Returning(Created(pc.user, pc.row)))
  }

  /** Sending a SELECT: the server answers from the table of this moment. */
  function Send(s: State, t: nat, k: Luck, served: Pc, failure: Answer): (s': State)
    requires CanWork(s, t) && NeedsConn(s.threads[t].pc)
    requires PcAdvances(s.threads[t].pc, served) && PcAdvances(s.threads[t].pc, Returning(failure)) && Fetching(served)
    requires !Fetching(s.threads[t].pc)
    ensures Local(s, s', t)
  {
    var c := ConnOf(s, t);
    if !k.ok || !Ready(s, c) then GoTo(s, t, Returning(failure))
    else GoTo(SetSession(s, c, Session(true, 0)), t, served)
  }

  /** Storing a result set: the connection is ready again, whether or not the rows arrived. */
  function Receive(s: State, t: nat, k: Luck, received: Pc, failure: Answer): (s': State)
    requires CanWork(s, t) && NeedsConn(s.threads[t].pc)
    requires PcAdvances(s.threads[t].pc, received) && PcAdvances(s.threads[t].pc, Returning(failure))
    requires !Fetching(received) && !received.ReadingId?
    ensures Local(s, s', t)
  {
    GoTo(SetSession(s, ConnOf(s, t), Session(false, 0)), t, if k.ok then received else Returning(failure))
  }

  function Select(s: State, t: nat, k: Luck): (s': State)
    requires CanWork(s, t) && s.threads[t].pc.Selecting?
    ensures Local(s, s', t)
  {
    var found := Find(s.ledger.rows, s.resolve(s.threads[t].call.id));
    Send(s, t, k, FetchingRow(found, CurrentMoment(s)), Missing(SqlFailed))
  }

  function RowUser(rows: seq<Row>, i: nat): User {
    if i < |rows| then FromFields(Fields(rows[i])) else User("", "", "", 0)
  }

  function FetchRow(s: State, t: nat, k: Luck): (s': State)
    requires CanWork(s, t) && s.threads[t].pc.FetchingRow?
    ensures Local(s, s', t)
  {
    var pc := s.threads[t].pc;
    var next := match pc.found
      case None => Returning(Missing(NoRow(pc.at)))
      case Some(i) => FillingUser(RowUser(s.ledger.rows, i), i);
    Receive(s, t, k, next, Missing(SqlFailed))
  }

  function FillUser(s: State, t: nat, k: Luck): (s': State)
    requires CanWork(s, t) && s.threads[t].pc.FillingUser?
    ensures Local(s, s', t)
  {
    var th := s.threads[t];
    GoTo(if k.applied then StoreUser(s, th.call.id, th.pc.user, th.pc.row) else s,
         t, Returning(Found(th.pc.user, th.pc.row, th.call.id)))
  }

  function CountRows(s: State, t: nat, k: Luck): (s': State)
    requires CanWork(s, t) && s.threads[t].pc.CountingRows?
    ensures Local(s, s', t)
  {
    Send(s, t, k, FetchingCount(|s.ledger.rows|, CurrentMoment(s)), Failed)
  }

  function FetchCount(s: State, t: nat, k: Luck): (s': State)
    requires CanWork(s, t) && s.threads[t].pc.FetchingCount?
    ensures Local(s, s', t)
  {
    var th := s.threads[t];
    var total := Decimal.Strtoll(Decimal.Text(th.pc.n));
    Receive(s, t, k, if th.call.Browse? then SelectingPage(total, th.pc.at) else FillingTotal(total, th.pc.at), Failed)
  }

  function CallPage(rows: seq<Row>, c: Call): seq<Row>
    requires c.Browse?
  {
    Page(rows, Service.PageLimit(c.limit), Service.PageOffset(c.offset))
  }

  function SelectRows(s: State, t: nat, k: Luck): (s': State)
    requires CanWork(s, t) && s.threads[t].pc.SelectingPage?
    ensures Local(s, s', t)
  {
    var th := s.threads[t];
    Send(s, t, k, FetchingPage(th.pc.total, th.pc.countAt, CallPage(s.ledger.rows, th.call), CurrentMoment(s)), Failed)
  }

  function ReadUsers(page: seq<Row>): seq<User> {
    seq(|page|, i requires 0 <= i < |page| => FromFields(Fields(page[i])))
  }

  function FetchRows(s: State, t: nat, k: Luck): (s': State)
    requires CanWork(s, t) && s.threads[t].pc.FetchingPage?
    ensures Local(s, s', t)
  {
    var pc := s.threads[t].pc;
    Receive(s, t, k, FillingList(Listing(ReadUsers(pc.page), pc.total), pc.countAt, pc.pageAt), Failed)
  }

  function StoreList(s: State, key: Key, l: Listing, countAt: nat, pageAt: nat): State {
    s.(cells := Put(s.cells, s.now, key, Doc(EncodeListing(l)), CacheState.LIST_CACHE_TTL),
       origins := s.origins[key := OfPage(countAt, pageAt, CurrentMoment(s))])
  }

  function FillList(s: State, t: nat, k: Luck): (s': State)
    requires CanWork(s, t) && s.threads[t].pc.FillingList?
    ensures Local(s, s', t)
  {
    var th := s.threads[t];
    GoTo(if k.applied then StoreList(s, PageKey(th.call), th.pc.listing, th.pc.countAt, th.pc.pageAt) else s,
         t, Indexing(th.pc.listing, th.pc.countAt, th.pc.pageAt))
  }

  function IndexList(s: State, t: nat, k: Luck): (s': State)
    requires CanWork(s, t) && s.threads[t].pc.Indexing?
    ensures Local(s, s', t)
  {
    var th := s.threads[t];
    GoTo(if k.applied then s.(index := s.index + {PageKey(th.call)}) else s,
         t, Returning(Listed(th.pc.listing, Direct(th.pc.countAt, th.pc.pageAt))))
  }

  function StoreTotal(s: State, total: Decimal.int64, countAt: nat): State {
    s.(cells := Put(s.cells, s.now, TotalKey, Digits(Decimal.Text(total)), CacheState.STATS_CACHE_TTL),
       origins := s.origins[TotalKey := OfCount(countAt, CurrentMoment(s))])
  }

  function FillTotal(s: State, t: nat, k: Luck): (s': State)
    requires CanWork(s, t) && s.threads[t].pc.FillingTotal?
    ensures Local(s, s', t)
  {
    var pc := s.threads[t].pc;
    GoTo(if k.applied then StoreTotal(s, pc.total, pc.countAt) else s,
         t, ReturningTotal(pc.total, Direct(pc.countAt, pc.countAt)))
  }

  function ReadRequests(s: State, t: nat, k: Luck): (s': State)
    requires CanWork(s, t) && s.threads[t].pc.ReadingRequests?
    ensures Local(s, s', t)
  {
    var pc := s.threads[t].pc;
    var got := if k.ok then Visible(s.cells, s.now, RequestsKey) else None;
    GoTo(s, t, Done(Totals(pc.total, match got case Some(v) => ParseInt(v) case None => 0, k.ok, pc.src)))
  }

  /** What the environment may decide at this point. */
  predicate LuckFits(s: State, t: nat, k: Luck)
    requires CanWork(s, t)
  {
    match s.threads[t].pc
    case Counting => k.applied ==> Countable(s.cells, s.now, RequestsKey)
    case Inserting(_) => (k.ok ==> k.applied) && (k.applied ==> LastId(s.ledger.rows) + 1 + k.gap <= Decimal.INT64_MAX)
    case Enumerating(_, _) => k.ok ==> multiset(k.members) == multiset(s.index)
    case _ => true
  }

  function Work(s: State, t: nat, k: Luck): (s': State)
    requires CanWork(s, t)
    ensures Local(s, s', t)
  {
    match s.threads[t].pc
    case Counting => Count(s, t, k)
    case Probing => Probe(s, t, k)
    case Inserting(_) => InsertRow(s, t, k)
    case ReadingId(_, _) => ReadId(s, t)
    case Priming(_, _) => Prime(s, t, k)
    case Enumerating(_, _) => Enumerate(s, t, k)
    case Deleting(_, _, _) => DeleteNext(s, t, k)
    case DroppingTotal(_, _) => DropTotal(s, t, k)
    case Selecting => Select(s, t, k)
    case FetchingRow(_, _) => FetchRow(s, t, k)
    case FillingUser(_, _) => FillUser(s, t, k)
    case CountingRows => CountRows(s, t, k)
    case FetchingCount(_, _) => FetchCount(s, t, k)
    case SelectingPage(_, _) => SelectRows(s, t, k)
    case FetchingPage(_, _, _, _) => FetchRows(s, t, k)
    case FillingList(_, _, _) => FillList(s, t, k)
    case Indexing(_, _, _) => IndexList(s, t, k)
    case FillingTotal(_, _) => FillTotal(s, t, k)
    case ReadingRequests(_, _) => ReadRequests(s, t, k)
  }

  // ---------- Events ----------

  datatype Event =
    | Tick(ms: nat)
    | Evict(key: Key)
    | Arrive(tid: nat, call: Call)
    | InPool(tid: nat, move: Move)
    | AtWork(tid: nat, luck: Luck)
    | Restart(idle: seq<nat>)

  predicate Enabled(s: State, e: Event) {
    match e
    case Tick(_) => true
    case Evict(key) => key in s.cells && s.cells[key].expiry.Some?
    case Arrive(t, call) => t !in s.threads && t !in s.pool.status && CleanCall(call)
    case InPool(t, m) =>
      && t in s.threads && Can(s.pool, t, m)
      && (m.Enter? ==> WantsConn(s.threads[t].pc))
      && (m.GiveBack? ==> s.threads[t].pc.Returning? || s.threads[t].pc.ReturningTotal?)
    case AtWork(t, k) => CanWork(s, t) && LuckFits(s, t, k)
    case Restart(idle) => AllIdle(s.pool, idle)
  }

  /** What the end of its process leaves of a thread. */
  function Crash(th: Thread): Thread {
    if th.pc.Done? || th.pc.Crashed? then th else th.(pc := Crashed(!th.pc.Counting?))
  }

  /** The code position after the guard's scope ends. */
  function AfterGuard(pc: Pc): Pc {
    match pc
    case Returning(answer) => Done(answer)
    case ReturningTotal(total, src) => ReadingRequests(total, src)
    case _ => pc
  }

  function Effect(s: State, e: Event): State
    requires Enabled(s, e)
  {
    match e
    case Tick(ms) => s.(now := s.now + ms)
    case Evict(key) => s.(cells := s.cells - {key})
    case Arrive(t, call) =>
      s.(threads := s.threads[t := Thread(call, CurrentMoment(s), if call.Stats? then Probing else Counting)],
         pool := Join(s.pool, t))
    case InPool(t, m) =>
      var s' := s.(pool := Go(s.pool, t, m));
      if m.GiveBack? then GoTo(s', t, AfterGuard(s.threads[t].pc)) else s'
    case AtWork(t, k) => Work(s, t, k)
    case Restart(idle) =>
      s.(threads := map u | u in s.threads :: Crash(s.threads[u]),
         pool := Reset(s.pool, idle),
         sessions := map c | c in s.pool.conns :: Session(false, 0))
  }

  /** History: the moment a step leads to. */
  function Stamp(s: State): State {
    s.(ledger := s.ledger.(past := s.ledger.past + [Moment(s.now, |s.ledger.rows|)]))
  }

  function Step(s: State, e: Event): State
    requires Enabled(s, e)
  {
    Stamp(Effect(s, e))
  }

  /** A server right after start: any table, any counter value, cold caches, no calls yet. */
  ghost predicate Init(s: State) {
    && Ordered(s.ledger.rows) && NulFreeRows(s.ledger.rows)
    && |s.ledger.writers| == |s.ledger.rows| && (forall i :: 0 <= i < |s.ledger.writers| ==> s.ledger.writers[i].None?)
    && s.ledger.past == [Moment(s.now, |s.ledger.rows|)]
    && PoolProtocol.Fresh(s.pool)
    && (forall c :: c in s.pool.conns ==> Ready(s, c))
    && s.cells.Keys <= {RequestsKey} && (RequestsKey in s.cells ==> CounterEntry(s.cells[RequestsKey]))
    && s.index == {} && s.threads == map[] && s.lost == 0
    && CacheState.Resolves(s.resolve)
  }

  /** A run: the states of an initial state under a sequence of enabled events. */
  ghost predicate Run(tr: seq<State>, es: seq<Event>) {
    && |tr| == |es| + 1
    && Init(tr[0])
    && (forall i :: 0 <= i < |es| ==> Enabled(tr[i], es[i]) && tr[i + 1] == Step(tr[i], es[i]))
  }

  /** The call has been answered and its thread has left the pool. */
  predicate Returned(s: State, t: nat) {
    t in s.threads && t in s.pool.status && s.threads[t].pc.Done? && s.pool.status[t].Out?
  }
}
