/**
 What callers can rely on in every run, whatever the interleaving and whatever
 Redis commands and SQL statements fail.
 */
module Consistency {
  import opened Prelude
  import opened Users
  import opened Json
  import opened Redis
  import opened Keys
  import opened PoolProtocol
  import opened System
  import opened SystemInv
  import opened SystemKept
  import CacheState
  import Service
  import Decimal

  predicate HasAnswer(s: State, t: nat) {
    t in s.threads && s.threads[t].pc.Done?
  }

  function AnswerOf(s: State, t: nat): Answer
    requires HasAnswer(s, t)
  {
    s.threads[t].pc.answer
  }

  /** Moments of the history are states of the run. */
  lemma MomentInRun(tr: seq<State>, es: seq<Event>, i: nat, at: nat)
    requires Run(tr, es) && i < |tr| && at < |tr[i].ledger.past|
    ensures at <= i && IsMoment(tr[i].ledger, at)
    ensures tr[i].ledger.past[at] == Moment(tr[at].now, |tr[at].ledger.rows|)
    ensures RowsAt(tr[i].ledger, at) == tr[at].ledger.rows
  {
    hide Run, GrowsTo;
    RunHistory(tr, es, i);
    RunGrows(tr, es, at, i);
    GrownRows(WorldOf(tr[at]), WorldOf(tr[i]));
  }

  lemma GrownRows(w: World, w': World)
    requires GrowsTo(w, w')
    ensures w.ledger.rows <= w'.ledger.rows
  {
  }

  /** Time never runs backwards in a run. */
  lemma TimeGoesOn(tr: seq<State>, es: seq<Event>, i: nat, j: nat)
    requires Run(tr, es) && i <= j < |tr|
    ensures tr[i].now <= tr[j].now
  {
    hide Run;
    RunInv(tr, es, j);
    RunHistory(tr, es, j);
    assert LedgerOk(tr[j].ledger, tr[j].now);
  }

  lemma ThreadFacts(tr: seq<State>, es: seq<Event>, i: nat, t: nat)
    requires Run(tr, es) && i < |tr| && t in tr[i].threads
    ensures ThreadOk(WorldOf(tr[i]), t, tr[i].threads[t])
  {
    hide Run, ThreadOk;
    RunInv(tr, es, i);
  }

  lemma SameRows(tr: seq<State>, es: seq<Event>, m: nat, i: nat)
    requires Run(tr, es) && m <= i < |tr| && |tr[m].ledger.rows| == |tr[i].ledger.rows|
    ensures tr[m].ledger.rows == tr[i].ledger.rows
  {
    hide Run, GrowsTo;
    RunGrows(tr, es, m, i);
    GrownRows(WorldOf(tr[m]), WorldOf(tr[i]));
  }

  /** What ListUsers answers from a table alone. */
  function FreshFor(rows: seq<Row>, call: Call): Listing
    requires Ordered(rows) && call.Browse?
  {
    CacheState.FreshListing(rows, Service.PageLimit(call.limit), Service.PageOffset(call.offset))
  }

  // ---------- Pages are windows of an append-only table ----------

  /**
   A page, cached or not, is a contiguous slice of every later table, starts at
   its offset and is no longer than its limit; the total that comes with it was
   counted on a table no larger than the page's.
   */
  lemma PagesAreWindows(tr: seq<State>, es: seq<Event>, i: nat, t: nat, j: nat)
    requires Run(tr, es) && i <= j < |tr| && HasAnswer(tr[i], t) && AnswerOf(tr[i], t).Listed?
    ensures var call, l := tr[i].threads[t].call, AnswerOf(tr[i], t).listing;
            && call.Browse?
            && var size, o := if call.limit > 0 then call.limit else 10, if call.offset > 0 then call.offset else 0;
               var p := AnswerOf(tr[i], t).src.pageAt;
               && p <= i && |l.users| <= size
               && l.users == UsersOf(Page(tr[p].ledger.rows, size, o))
               && (l.users != [] ==>
                     && o + |l.users| <= |tr[j].ledger.rows|
                     && l.users == UsersOf(tr[j].ledger.rows[o..o + |l.users|]))
    ensures AnswerOf(tr[i], t).src.countAt <= AnswerOf(tr[i], t).src.pageAt <= i
    ensures AnswerOf(tr[i], t).listing.total <= |tr[AnswerOf(tr[i], t).src.pageAt].ledger.rows|
  {
    hide Run, GrowsTo;
    ThreadFacts(tr, es, i, t);
    var call := tr[i].threads[t].call;
    var src := AnswerOf(tr[i], t).src;
    MomentInRun(tr, es, i, src.countAt);
    MomentInRun(tr, es, i, src.pageAt);
    RunGrows(tr, es, src.pageAt, j);
    RunGrows(tr, es, src.countAt, src.pageAt);
    GrownRows(WorldOf(tr[src.pageAt]), WorldOf(tr[j]));
    GrownRows(WorldOf(tr[src.countAt]), WorldOf(tr[src.pageAt]));
    var rows := tr[j].ledger.rows;
    assert rows[..|tr[src.pageAt].ledger.rows|] == tr[src.pageAt].ledger.rows;
    PageIsSlice(rows, |tr[src.pageAt].ledger.rows|, Service.PageLimit(call.limit), Service.PageOffset(call.offset));
  }

  /** Two pages over disjoint windows never list the same user, whenever and however they were answered. */
  lemma DisjointWindows(tr: seq<State>, es: seq<Event>, i: nat, t: nat, u: nat)
    requires Run(tr, es) && i < |tr|
    requires HasAnswer(tr[i], t) && AnswerOf(tr[i], t).Listed? && HasAnswer(tr[i], u) && AnswerOf(tr[i], u).Listed?
    requires var a, b := tr[i].threads[t].call, tr[i].threads[u].call;
             && a.Browse? && b.Browse?
             && Service.PageOffset(a.offset) + Service.PageLimit(a.limit) <= Service.PageOffset(b.offset)
    ensures var p, q := AnswerOf(tr[i], t).listing.users, AnswerOf(tr[i], u).listing.users;
            forall x, y :: 0 <= x < |p| && 0 <= y < |q| ==> p[x].id != q[y].id
  {
    hide Run;
    ThreadFacts(tr, es, i, t);
    ThreadFacts(tr, es, i, u);
    RunInv(tr, es, i);
    var a, b, l := tr[i].threads[t].call, tr[i].threads[u].call, tr[i].ledger;
    var pa, pb := AnswerOf(tr[i], t).src.pageAt, AnswerOf(tr[i], u).src.pageAt;
    assert Ordered(l.rows);
    DisjointPages(l.rows, l.past[pa].rows, Service.PageLimit(a.limit), Service.PageOffset(a.offset),
                  l.past[pb].rows, Service.PageLimit(b.limit), Service.PageOffset(b.offset));
  }

  // ---------- Single users: exact ----------

  /** Two id strings that share a cache key select the same row. */
  ghost predicate OneRowPerKey(resolve: string -> nat) {
    forall a: string, b: string :: b != "" && SameKey(a, b) ==> resolve(a) == resolve(b)
  }

  /** A server that stops at a NUL when it compares ids is such. */
  lemma StoppingSuffices(resolve: string -> nat)
    requires CacheState.StopsAtNul(resolve)
    ensures OneRowPerKey(resolve)
  {
  }

  /** No phantom: in every state, every user entry is a committed row that matches an id string with that key. */
  lemma NoPhantomUser(tr: seq<State>, es: seq<Event>, i: nat, id: string) returns (row: nat, asked: string)
    requires Run(tr, es) && i < |tr| && UserKey(id) in tr[i].cells
    ensures row < |tr[i].ledger.rows| && SameKey(asked, id) && tr[i].ledger.rows[row].id == tr[i].resolve(asked)
    ensures tr[i].cells[UserKey(id)].value == Doc(UserToJson(UserOf(tr[i].ledger.rows[row])))
    ensures id != "" && OneRowPerKey(tr[i].resolve) ==> tr[i].ledger.rows[row].id == tr[i].resolve(id)
  {
    hide Run;
    RunInv(tr, es, i);
    var o := OriginOf(tr[i], UserKey(id));
    assert CellOk(WorldOf(tr[i]), UserKey(id), tr[i].cells[UserKey(id)], o);
    row, asked := o.row, o.asked;
  }

  /** Whom GetUser finds is the one committed user for an id string that has the cache key of the request. */
  lemma GetUserServed(tr: seq<State>, es: seq<Event>, i: nat, t: nat) returns (asked: string)
    requires Run(tr, es) && i < |tr| && HasAnswer(tr[i], t) && AnswerOf(tr[i], t).Found?
    ensures tr[i].threads[t].call.Fetch? && tr[i].threads[t].call.id != "" && SameKey(asked, tr[i].threads[t].call.id)
    ensures Some(AnswerOf(tr[i], t).user) == Lookup(tr[i].ledger.rows, tr[i].resolve(asked))
  {
    hide Run;
    ThreadFacts(tr, es, i, t);
    OrderedRows(tr, es, i);
    FindUnique(tr[i].ledger.rows, AnswerOf(tr[i], t).row);
    asked := AnswerOf(tr[i], t).asked;
  }

  lemma OrderedRows(tr: seq<State>, es: seq<Event>, i: nat)
    requires Run(tr, es) && i < |tr|
    ensures Ordered(tr[i].ledger.rows)
  {
    hide Run;
    RunInv(tr, es, i);
  }

  /** The user found is the one that the request selects. */
  predicate FoundRight(s: State, t: nat)
    requires HasAnswer(s, t) && AnswerOf(s, t).Found?
  {
    s.threads[t].call.Fetch? && Some(AnswerOf(s, t).user) == Lookup(s.ledger.rows, s.resolve(s.threads[t].call.id))
  }

  /** Where a cache key selects one row, whom GetUser finds is the one committed user with that id. */
  lemma GetUserExact(tr: seq<State>, es: seq<Event>, i: nat, t: nat)
    requires Run(tr, es) && i < |tr| && HasAnswer(tr[i], t) && AnswerOf(tr[i], t).Found?
    requires OneRowPerKey(tr[i].resolve)
    ensures FoundRight(tr[i], t)
  {
    hide Run, Lookup;
    var asked := GetUserServed(tr, es, i, t);
  }

  /** Nobody is reported missing who was there when the call began, unless the call's own SQL failed. */
  lemma MissingMeansAbsent(tr: seq<State>, es: seq<Event>, i: nat, t: nat)
    requires Run(tr, es) && i < |tr| && HasAnswer(tr[i], t) && AnswerOf(tr[i], t).Missing?
    requires AnswerOf(tr[i], t).why.NoRow?
    ensures tr[i].threads[t].startAt <= i && tr[i].threads[t].call.Fetch?
    ensures Lookup(tr[tr[i].threads[t].startAt].ledger.rows, tr[i].resolve(tr[i].threads[t].call.id)).None?
  {
    hide Run, GrowsTo;
    ThreadFacts(tr, es, i, t);
    var at, start := AnswerOf(tr[i], t).why.at, tr[i].threads[t].startAt;
    MomentInRun(tr, es, i, at);
    RunGrows(tr, es, start, at);
    GrownRows(WorldOf(tr[start]), WorldOf(tr[at]));
    FindGrows(tr[start].ledger.rows, tr[at].ledger.rows, tr[i].resolve(tr[i].threads[t].call.id));
  }

  lemma FindGrows(rows: seq<Row>, later: seq<Row>, id: nat)
    requires rows <= later
    ensures Find(rows, id).Some? ==> Find(later, id).Some?
  {
    if Find(rows, id).Some? {
      assert later[Find(rows, id).value].id == id;
    }
  }

  /** Calls that are not there yet start later. */
  lemma {:induction false} StartsLater(tr: seq<State>, es: seq<Event>, i: nat, j: nat, t: nat)
    requires Run(tr, es) && i <= j < |tr| && t !in tr[i].threads && t in tr[j].threads
    ensures i <= tr[j].threads[t].startAt
    decreases j - i
  {
    hide Enabled, Step, Init;
    if t in tr[j - 1].threads {
      StartsLater(tr, es, i, j - 1, t);
      SameStart(tr[j - 1], es[j - 1], t);
    } else {
      RunHistory(tr, es, j - 1);
      NewStart(tr[j - 1], es[j - 1], t);
    }
  }

  lemma SameStart(s: State, e: Event, t: nat)
    requires Enabled(s, e) && t in s.threads
    ensures t in Step(s, e).threads
    ensures Step(s, e).threads[t].startAt == s.threads[t].startAt && Step(s, e).threads[t].call == s.threads[t].call
  {
    hide Work;
  }

  lemma NewStart(s: State, e: Event, t: nat)
    requires Enabled(s, e) && t !in s.threads && t in Step(s, e).threads
    ensures Step(s, e).threads[t].startAt == CurrentMoment(s)
  {
    hide Work;
  }

  /** A created user is there, under its id, from then on. */
  lemma CreatedStays(tr: seq<State>, es: seq<Event>, i: nat, j: nat, writer: nat)
    requires Run(tr, es) && i <= j < |tr|
    requires HasAnswer(tr[i], writer) && AnswerOf(tr[i], writer).Created?
    ensures var u := AnswerOf(tr[i], writer).user;
            Lookup(tr[j].ledger.rows, tr[j].resolve(u.id)) == Some(u)
  {
    hide Run, GrowsTo;
    ThreadFacts(tr, es, i, writer);
    RunInv(tr, es, j);
    RunGrows(tr, es, i, j);
    GrownRows(WorldOf(tr[i]), WorldOf(tr[j]));
    assert LedgerOk(tr[j].ledger, tr[j].now) && CacheState.Resolves(tr[j].resolve);
    hide Inv;
    var row := AnswerOf(tr[i], writer).row;
    assert tr[j].ledger.rows[row] == tr[i].ledger.rows[row];
    FindUnique(tr[j].ledger.rows, row);
  }

  /**
   Read your writes: a GetUser that starts after CreateUser has returned, with
   the id of the new user, yields exactly that user unless its own SQL fails;
   this is where other requests with the same cache key must select the same row.
   */
  lemma ReadYourWrites(tr: seq<State>, es: seq<Event>, i: nat, j: nat, writer: nat, reader: nat)
    requires Run(tr, es) && i <= j < |tr|
    requires Returned(tr[i], writer) && AnswerOf(tr[i], writer).Created?
    requires reader !in tr[i].threads && HasAnswer(tr[j], reader)
    requires tr[j].threads[reader].call == Fetch(AnswerOf(tr[i], writer).user.id)
    requires OneRowPerKey(tr[j].resolve)
    ensures var a := AnswerOf(tr[j], reader);
            a == Missing(SqlFailed) || (a.Found? && a.user == AnswerOf(tr[i], writer).user)
  {
    hide Run, GrowsTo, Lookup, Find, OneRowPerKey;
    var start := tr[j].threads[reader].startAt;
    StartsLater(tr, es, i, j, reader);
    RunHistory(tr, es, j);
    ThreadFacts(tr, es, j, reader);
    CreatedStays(tr, es, i, j, writer);
    CreatedStays(tr, es, i, start, writer);
    RunGrows(tr, es, start, j);
    SameResolve(WorldOf(tr[start]), WorldOf(tr[j]));
    IdNotEmpty(tr, es, i, writer);
    var a := AnswerOf(tr[j], reader);
    if a.Found? {
      GetUserExact(tr, es, j, reader);
    } else if a.Missing? && a.why.NoRow? {
      MissingMeansAbsent(tr, es, j, reader);
    }
  }

  lemma IdNotEmpty(tr: seq<State>, es: seq<Event>, i: nat, t: nat)
    requires Run(tr, es) && i < |tr| && HasAnswer(tr[i], t) && AnswerOf(tr[i], t).Created?
    ensures AnswerOf(tr[i], t).user.id != ""
  {
    hide Run;
    ThreadFacts(tr, es, i, t);
  }

  lemma SameResolve(w: World, w': World)
    requires GrowsTo(w, w')
    ensures w.resolve == w'.resolve
  {
  }

  // ---------- CreateUser ----------

  /**
   CreateUser answers with the row this very call inserted: its id, name, email
   and time.
   */
  lemma CreatedIsOwnRow(tr: seq<State>, es: seq<Event>, i: nat, t: nat) returns (row: nat)
    requires Run(tr, es) && i < |tr| && HasAnswer(tr[i], t) && AnswerOf(tr[i], t).Created?
    ensures tr[i].threads[t].call.Create? && tr[i].threads[t].call.name != ""
    ensures row < |tr[i].ledger.rows| && row < |tr[i].ledger.writers| && tr[i].ledger.writers[row] == Some(t)
    ensures var u, r, call := AnswerOf(tr[i], t).user, tr[i].ledger.rows[row], tr[i].threads[t].call;
            && u == User(Decimal.Text(r.id), call.name, call.email, r.createdAt)
            && r.name == call.name && r.email == call.email
  {
    hide Run;
    ThreadFacts(tr, es, i, t);
    row := AnswerOf(tr[i], t).row;
  }

  /** Every row that a call of the run has written is its own, with a name that is not empty. */
  lemma RowsOfCalls(tr: seq<State>, es: seq<Event>, i: nat, row: nat)
    requires Run(tr, es) && i < |tr| && row < |tr[i].ledger.writers| && tr[i].ledger.writers[row].Some?
    ensures row < |tr[i].ledger.rows| && tr[i].ledger.writers[row].value in tr[i].threads
    ensures var r, call := tr[i].ledger.rows[row], tr[i].threads[tr[i].ledger.writers[row].value].call;
            call.Create? && r.name == call.name != "" && r.email == call.email
  {
    hide Run;
    RunInv(tr, es, i);
  }

  /** A CreateUser without a name is turned away and writes nothing, a GetUser without an id is turned away. */
  lemma EmptyIsRefused(tr: seq<State>, es: seq<Event>, i: nat, t: nat)
    requires Run(tr, es) && i < |tr| && t in tr[i].threads
    requires var call := tr[i].threads[t].call; (call.Create? && call.name == "") || call == Fetch("")
    ensures tr[i].threads[t].pc.Counting? || tr[i].threads[t].pc == Done(Rejected) || tr[i].threads[t].pc.Crashed?
    ensures Some(t) !in tr[i].ledger.writers
  {
    hide Run;
    ThreadFacts(tr, es, i, t);
    RunInv(tr, es, i);
  }

  /** A call writes at most one row. */
  lemma OneRowPerCall(tr: seq<State>, es: seq<Event>, i: nat, x: nat, y: nat)
    requires Run(tr, es) && i < |tr| && x < y < |tr[i].ledger.writers| && tr[i].ledger.writers[x].Some?
    ensures tr[i].ledger.writers[x] != tr[i].ledger.writers[y]
  {
    hide Run;
    RunInv(tr, es, i);
  }

  /** Different successful calls get different ids. */
  lemma CreatedIdsDiffer(tr: seq<State>, es: seq<Event>, i: nat, t: nat, u: nat)
    requires Run(tr, es) && i < |tr| && t != u
    requires HasAnswer(tr[i], t) && AnswerOf(tr[i], t).Created? && HasAnswer(tr[i], u) && AnswerOf(tr[i], u).Created?
    ensures AnswerOf(tr[i], t).user.id != AnswerOf(tr[i], u).user.id
  {
    hide Run;
    var x := CreatedIsOwnRow(tr, es, i, t);
    var y := CreatedIsOwnRow(tr, es, i, u);
    RunInv(tr, es, i);
    var rows := tr[i].ledger.rows;
    assert Ordered(rows) && x != y;
    hide Inv;
    Decimal.TextInjective(rows[x].id, rows[y].id);
  }

  // ---------- Connections ----------

  /** In every state a connection serves at most one thread, and idle ones are ready for the next. */
  lemma ConnectionsExclusive(tr: seq<State>, es: seq<Event>, i: nat)
    requires Run(tr, es) && i < |tr|
    ensures Exclusive(tr[i].pool)
    ensures forall c :: c in tr[i].pool.conns <==> c in tr[i].pool.idle || Held(tr[i].pool, c)
    ensures forall c :: c in tr[i].pool.idle ==> Ready(tr[i], c)
  {
    hide Run;
    RunInv(tr, es, i);
  }

  /** The steps that send a statement. */
  predicate Sends(pc: Pc) {
    pc.Inserting? || pc.Selecting? || pc.CountingRows? || pc.SelectingPage?
  }

  /** No statement is ever sent on a connection with an unread result set. */
  lemma NeverOutOfSync(tr: seq<State>, es: seq<Event>, i: nat, t: nat)
    requires Run(tr, es) && i < |tr| && CanWork(tr[i], t) && Sends(tr[i].threads[t].pc)
    ensures Ready(tr[i], ConnOf(tr[i], t))
  {
    hide Run;
    RunInv(tr, es, i);
    assert SessionFits(tr[i], t);
  }

  /** A guard returns its connection with nothing left to read, on error paths as well. */
  lemma ReturnedReady(tr: seq<State>, es: seq<Event>, i: nat, t: nat)
    requires Run(tr, es) && i < |tr| && Enabled(tr[i], InPool(t, GiveBack))
    ensures Ready(tr[i], ConnOf(tr[i], t))
  {
    hide Run;
    RunInv(tr, es, i);
    assert SessionFits(tr[i], t);
  }

  // ---------- Request counting ----------

  lemma WorkCounter(s: State, t: nat, k: Luck)
    requires CanWork(s, t) && !s.threads[t].pc.Counting?
    requires s.threads[t].pc.Deleting? ==> OnlyLists(s.threads[t].pc.keys)
    ensures Counter(Work(s, t, k).cells, s.now, RequestsKey) == Counter(s.cells, s.now, RequestsKey)
  {
    hide Count, Probe, InsertRow, ReadId, Enumerate, Select, FetchRow, CountRows;
    hide FetchCount, SelectRows, FetchRows, IndexList, ReadRequests, SessionFits, PcAdvances;
    if !WritesCache(s.threads[t].pc) {
      hide Work;
    }
  }

  lemma CountCounter(s: State, t: nat, k: Luck)
    requires CanWork(s, t) && s.threads[t].pc.Counting? && LuckFits(s, t, k)
    ensures var s' := Count(s, t, k);
            Counter(s'.cells, s.now, RequestsKey) + s'.lost == Counter(s.cells, s.now, RequestsKey) + s.lost + 1
    ensures k.applied ==> Count(s, t, k).lost == s.lost
  {
    Decimal.StrtollRoundTrip(Counter(s.cells, s.now, RequestsKey) + 1);
  }

  lemma WorkCounts(s: State, t: nat, k: Luck)
    requires CanWork(s, t) && LuckFits(s, t, k) && ThreadOk(WorldOf(s), t, s.threads[t])
    ensures var s' := Work(s, t, k);
            Counter(s'.cells, s.now, RequestsKey) + s'.lost - |CountedCalls(s'.threads)|
            == Counter(s.cells, s.now, RequestsKey) + s.lost - |CountedCalls(s.threads)|
  {
    var s' := Work(s, t, k);
    if s.threads[t].pc.Counting? {
      CountCounter(s, t, k);
      CountedOne(s, s', t);
    } else {
      WorkCounter(s, t, k);
      CountedSame(s, s', t);
    }
  }

  lemma CountedOne(s: State, s': State, t: nat)
    requires Local(s, s', t) && s.threads[t].pc.Counting? && !s.threads[t].call.Stats?
    ensures |CountedCalls(s'.threads)| == |CountedCalls(s.threads)| + 1
  {
    hide SessionFits;
    assert CountedCalls(s'.threads) == CountedCalls(s.threads) + {t};
  }

  lemma CountedSame(s: State, s': State, t: nat)
    requires Local(s, s', t) && !s.threads[t].pc.Counting?
    ensures CountedCalls(s'.threads) == CountedCalls(s.threads)
  {
    hide SessionFits;
  }

  lemma CounterHasNoTtl(s: State)
    requires CellsOk(WorldOf(s), s.cells, s.origins)
    ensures RequestsKey in s.cells ==> s.cells[RequestsKey].expiry.None?
  {
    if RequestsKey in s.cells {
      assert CellOk(WorldOf(s), RequestsKey, s.cells[RequestsKey], OriginOf(s, RequestsKey));
    }
  }

  /** The counter never expires. */
  lemma QuietCounter(s: State, e: Event)
    requires CellsOk(WorldOf(s), s.cells, s.origins) && Enabled(s, e) && !e.AtWork?
    ensures var s' := Effect(s, e);
            Counter(s'.cells, s'.now, RequestsKey) == Counter(s.cells, s.now, RequestsKey)
  {
    hide CellsOk, Work, Can, Go, ParseInt, CanWork, LuckFits, AllIdle;
    CounterHasNoTtl(s);
  }

  /** Nobody else gets counted. */
  lemma QuietCalls(s: State, e: Event)
    requires Enabled(s, e) && !e.AtWork?
    ensures var s' := Effect(s, e); s'.lost == s.lost && CountedCalls(s'.threads) == CountedCalls(s.threads)
  {
    hide Work, Can, Go;
  }

  lemma StepCounts(s: State, e: Event, base: int)
    requires Inv(s) && Enabled(s, e) && CountsOk(s, base)
    ensures CountsOk(Step(s, e), base)
  {
    hide Work, PoolInv, LedgerOk, CellsOk, SessionsOk, WritersOk, ThreadsPlaced, PcOk, Can, Go;
    if e.AtWork? {
      assert ThreadOk(WorldOf(s), e.tid, s.threads[e.tid]);
      WorkCounts(s, e.tid, e.luck);
    } else {
      QuietCounter(s, e);
      QuietCalls(s, e);
    }
  }

  /**
   Request conservation: the counter plus the INCRs that were lost is what it
   was at the start plus the number of CreateUser, GetUser and ListUsers calls
   past their counting step, rejected ones included and GetStats excluded.
   */
  lemma {:induction false} RequestsConserved(tr: seq<State>, es: seq<Event>, i: nat)
    requires Run(tr, es) && i < |tr|
    ensures Counter(tr[i].cells, tr[i].now, RequestsKey) + tr[i].lost
            == Counter(tr[0].cells, tr[0].now, RequestsKey) + |CountedCalls(tr[i].threads)|
  {
    hide Inv, Enabled, Step;
    if i > 0 {
      RequestsConserved(tr, es, i - 1);
      RunInv(tr, es, i - 1);
      StepCounts(tr[i - 1], es[i - 1], Counter(tr[0].cells, tr[0].now, RequestsKey));
    }
  }

  /** The answer of GetStats gives the counter as it stands, and 0 when it could not be read. */
  predicate GivesCounter(s: State, pc: Pc) {
    pc.Done? && pc.answer.Totals? ==>
      pc.answer.requests == if pc.answer.read then Counter(s.cells, s.now, RequestsKey) else 0
  }

  lemma WorkStats(s: State, t: nat, k: Luck)
    requires CanWork(s, t)
    ensures GivesCounter(s, Work(s, t, k).threads[t].pc)
  {
    if NeedsConn(s.threads[t].pc) {
      hide Work;
    }
  }

  /** Nobody is given a request count other than by reading it. */
  lemma StepStats(s: State, e: Event, t: nat)
    requires Inv(s) && Enabled(s, e) && t in s.threads
    ensures t in Step(s, e).threads
    ensures Step(s, e).threads[t] == s.threads[t] || GivesCounter(s, Step(s, e).threads[t].pc)
  {
    SameStart(s, e, t);
    assert ThreadOk(WorldOf(s), t, s.threads[t]);
    hide Inv, Work, GivesCounter, Can, Go, Local;
    if e.AtWork? && e.tid == t {
      WorkStats(s, t, e.luck);
    } else if e.InPool? && e.tid == t && e.move.GiveBack? {
      assert PcOk(WorldOf(s), t, s.threads[t]);
      assert GivesCounter(s, AfterGuard(s.threads[t].pc));
    }
  }

  /**
   The request count of GetStats is, if its GET was answered, at some moment of
   the call exactly the starting counter plus the calls counted by then, less the
   INCRs lost by then, and otherwise 0.
   */
  lemma {:induction false} StatsRequests(tr: seq<State>, es: seq<Event>, i: nat, t: nat) returns (m: nat)
    requires Run(tr, es) && i < |tr| && HasAnswer(tr[i], t) && AnswerOf(tr[i], t).Totals?
    ensures tr[i].threads[t].startAt <= m <= i
    ensures var n := AnswerOf(tr[i], t).requests;
            if AnswerOf(tr[i], t).read then
              n + tr[m].lost == Counter(tr[0].cells, tr[0].now, RequestsKey) + |CountedCalls(tr[m].threads)|
            else n == 0
  {
    StartsEmpty(tr, es);
    m := i - 1;
    RunInv(tr, es, m);
    RunStep(tr, es, m);
    RequestsConserved(tr, es, m);
    hide Run, Step, Enabled, Inv;
    if t in tr[m].threads {
      StepStats(tr[m], es[m], t);
      StartedBefore(tr, es, m, t);
      if tr[i].threads[t] == tr[m].threads[t] {
        m := StatsRequests(tr, es, m, t);
      }
    } else {
      NotYetAnswered(tr[m], es[m], t);
    }
  }

  lemma StartsEmpty(tr: seq<State>, es: seq<Event>)
    requires Run(tr, es)
    ensures tr[0].threads == map[]
  {
  }

  lemma StartedBefore(tr: seq<State>, es: seq<Event>, i: nat, t: nat)
    requires Run(tr, es) && i < |tr| && t in tr[i].threads
    ensures tr[i].threads[t].startAt <= i
  {
    hide Run;
    RunHistory(tr, es, i);
    ThreadFacts(tr, es, i, t);
  }

  lemma NotYetAnswered(s: State, e: Event, t: nat)
    requires Enabled(s, e) && t !in s.threads && t in Step(s, e).threads
    ensures !Step(s, e).threads[t].pc.Done?
  {
    hide Work;
  }
}
