/**
 Ids that share a cache key: the client library cuts a key at its first NUL, so
 GetUser is exact precisely where such ids select the same row.
 */
module SharedKey {
  import opened Prelude
  import opened Users
  import opened Json
  import opened Redis
  import opened Keys
  import opened PoolProtocol
  import opened System
  import opened SystemInv
  import opened SystemKept
  import opened Consistency
  import opened SmoothRun
  import CacheState
  import Decimal

  // ---------- The steps of a GetUser that misses, and of one that hits ----------

  lemma SelectsUser(s: State, t: nat)
    requires CanWork(s, t) && s.threads[t].pc.Selecting? && Ready(s, ConnOf(s, t))
    ensures LuckFits(s, t, Fortune) && CanWork(Stamp(Work(s, t, Fortune)), t)
    ensures var s' := Stamp(Work(s, t, Fortune));
            && WorkedQuietly(s, s', t)
            && s'.threads[t].pc == FetchingRow(Find(s.ledger.rows, s.resolve(s.threads[t].call.id)), CurrentMoment(s))
  {
    hide PcAdvances, SessionFits, Find;
  }

  lemma FetchesUser(s: State, t: nat)
    requires CanWork(s, t) && s.threads[t].pc.FetchingRow? && s.threads[t].pc.found.Some?
    ensures LuckFits(s, t, Fortune) && CanWork(Stamp(Work(s, t, Fortune)), t)
    ensures var s', i := Stamp(Work(s, t, Fortune)), s.threads[t].pc.found.value;
            WorkedQuietly(s, s', t) && s'.threads[t].pc == FillingUser(RowUser(s.ledger.rows, i), i)
  {
    hide PcAdvances, SessionFits, RowUser;
  }

  lemma FillsUser(s: State, t: nat)
    requires CanWork(s, t) && s.threads[t].pc.FillingUser?
    ensures LuckFits(s, t, Fortune)
    ensures var s', th := Stamp(Work(s, t, Fortune)), s.threads[t];
            && Worked(s, s', t) && s'.ledger.rows == s.ledger.rows
            && Visible(s'.cells, s'.now, ProbeKey(th.call)) == Some(Doc(UserToJson(th.pc.user)))
  {
    hide PcAdvances, SessionFits, UserToJson;
  }

  lemma ProbesUser(s: State, t: nat, u: User)
    requires CanWork(s, t) && s.threads[t].pc.Probing? && s.threads[t].call.Fetch?
    requires Visible(s.cells, s.now, ProbeKey(s.threads[t].call)) == Some(Doc(UserToJson(u)))
    ensures LuckFits(s, t, Fortune)
    ensures var s' := Stamp(Work(s, t, Fortune));
            && WorkedQuietly(s, s', t)
            && s'.threads[t].pc.Done? && s'.threads[t].pc.answer.Found? && s'.threads[t].pc.answer.user == u
  {
    UserRoundTrip(u);
    hide PcAdvances, SessionFits, UserToJson, DecodeUser;
  }

  // ---------- A run that answers with the wrong user ----------

  /** A server with one connection on a table of one row. */
  function Single(row: Row, resolve: string -> nat): State {
    State(0, Ledger([row], [None], [Moment(0, 1)]), map[0 := Session(false, 0)], map[], {},
          Pool({0}, [0], None, map[]), map[], resolve, map[], 0)
  }

  lemma SingleStarts(row: Row, resolve: string -> nat)
    requires 1 <= row.id <= Decimal.INT64_MAX && NulFree(row.name) && NulFree(row.email) && CacheState.Resolves(resolve)
    ensures Init(Single(row, resolve)) && Smooth([Single(row, resolve)], [])
    ensures var s := Single(row, resolve);
            && s.cells == map[] && s.threads == map[] && s.ledger.rows == [row] && s.resolve == resolve
            && s.pool.status == map[] && s.pool.owner.None? && s.pool.idle != []
            && Counter(s.cells, s.now, RequestsKey) == 0
  {
  }

  /** A first request misses the cache. */
  lemma Misses(row: Row, resolve: string -> nat, asked: string) returns (tr: seq<State>, es: seq<Event>)
    requires 1 <= row.id <= Decimal.INT64_MAX && NulFree(row.name) && NulFree(row.email) && CacheState.Resolves(resolve)
    requires asked != ""
    ensures Continues([Single(row, resolve)], tr, es)
    ensures var s' := Last(tr);
            && s'.pool == Join(Single(row, resolve).pool, 0) && s'.ledger.rows == [row] && s'.resolve == resolve
            && s'.threads.Keys == {0} && s'.threads[0].call == Fetch(asked) && s'.threads[0].pc == Selecting
  {
    hide Smooth, Init, Work, Stamp, LuckFits, CacheState.Resolves, Single, Counter;
    SingleStarts(row, resolve);
    tr, es := [Single(row, resolve)], [];
    tr, es := Begins(tr, es, 0, Fetch(asked));
    ProbesCold(Last(tr), 0);
    tr, es := Works(tr, es, 0);
  }

  /** It gets the connection. */
  lemma Asks(row: Row, resolve: string -> nat, asked: string) returns (tr: seq<State>, es: seq<Event>)
    requires 1 <= row.id <= Decimal.INT64_MAX && NulFree(row.name) && NulFree(row.email) && CacheState.Resolves(resolve)
    requires asked != ""
    ensures Continues([Single(row, resolve)], tr, es)
    ensures var s' := Last(tr);
            && s'.threads.Keys == s'.pool.status.Keys == {0} && s'.ledger.rows == [row] && s'.resolve == resolve
            && CanWork(s', 0) && s'.threads[0].call == Fetch(asked) && s'.threads[0].pc == Selecting
  {
    hide Smooth, CacheState.Resolves;
    tr, es := Misses(row, resolve, asked);
    tr, es := Acquires(tr, es, 0);
  }

  /** The row is fetched and cached for the id string `asked`. */
  lemma Caches(row: Row, resolve: string -> nat, asked: string) returns (tr: seq<State>, es: seq<Event>)
    requires 1 <= row.id <= Decimal.INT64_MAX && NulFree(row.name) && NulFree(row.email) && CacheState.Resolves(resolve)
    requires asked != "" && resolve(asked) == row.id
    ensures Continues([Single(row, resolve)], tr, es)
    ensures var s' := Last(tr);
            && s'.threads.Keys == s'.pool.status.Keys == {0} && s'.ledger.rows == [row] && s'.resolve == resolve
            && Visible(s'.cells, s'.now, Cut(UserKey(asked))) == Some(Doc(UserToJson(UserOf(row))))
  {
    hide Smooth, Work, Stamp, LuckFits, CacheState.Resolves, UserToJson, Cut, Visible, RowUser, Ready, Single, CanWork;
    OnlyRow(row);
    tr, es := Asks(row, resolve, asked);
    ReadyNow(tr, es, 0);
    SelectsUser(Last(tr), 0);
    tr, es := Works(tr, es, 0);
    FetchesUser(Last(tr), 0);
    tr, es := Works(tr, es, 0);
    FillsUser(Last(tr), 0);
    tr, es := Works(tr, es, 0);
  }

  lemma OnlyRow(row: Row)
    requires NulFree(row.name) && NulFree(row.email)
    ensures Find([row], row.id) == Some(0) && RowUser([row], 0) == UserOf(row)
    ensures forall id: nat :: id != row.id ==> Lookup([row], id).None?
  {
    ReadBackExact(row);
  }

  /** Whoever asks next, for an id string with the same key, is given that user. */
  lemma Misleads(row: Row, resolve: string -> nat, asked: string, id: string) returns (tr: seq<State>, es: seq<Event>)
    requires 1 <= row.id <= Decimal.INT64_MAX && NulFree(row.name) && NulFree(row.email) && CacheState.Resolves(resolve)
    requires asked != "" && id != "" && CString(asked) == CString(id) && resolve(asked) == row.id != resolve(id)
    ensures Run(tr, es) && |tr| > 0 && tr[0] == Single(row, resolve)
    ensures HasAnswer(Last(tr), 1) && AnswerOf(Last(tr), 1).Found? && !FoundRight(Last(tr), 1)
  {
    hide Smooth, Init, Work, Stamp, LuckFits, CacheState.Resolves, UserToJson, Visible, Increment, Lookup;
    SingleStarts(row, resolve);
    tr, es := Caches(row, resolve, asked);
    CountedElsewhere(Last(tr).cells, Last(tr).now, Cut(UserKey(id)));
    tr, es := Begins(tr, es, 1, Fetch(id));
    ProbesUser(Last(tr), 1, UserOf(row));
    tr, es := Works(tr, es, 1);
    OnlyRow(row);
    SmoothRuns(tr, es);
  }

  lemma SmoothRuns(tr: seq<State>, es: seq<Event>)
    requires Smooth(tr, es)
    ensures Run(tr, es)
  {
    hide Run;
  }

  /** In every state of every run whom GetUser has found is whom the request selects. */
  ghost predicate AlwaysRight(resolve: string -> nat) {
    forall tr: seq<State>, es: seq<Event>, i: nat, t: nat ::
      Run(tr, es) && i < |tr| && tr[0].resolve == resolve && HasAnswer(tr[i], t) && AnswerOf(tr[i], t).Found? ==>
        FoundRight(tr[i], t)
  }

  /** GetUser is exact if and only if all id strings with one cache key select one row. */
  lemma GetUserExactIff(resolve: string -> nat)
    requires CacheState.Resolves(resolve)
    ensures AlwaysRight(resolve) <==> OneRowPerKey(resolve)
  {
    if OneRowPerKey(resolve) {
      forall tr: seq<State>, es: seq<Event>, i: nat, t: nat
        | Run(tr, es) && i < |tr| && tr[0].resolve == resolve && HasAnswer(tr[i], t) && AnswerOf(tr[i], t).Found?
        ensures FoundRight(tr[i], t)
      {
        hide Run, OneRowPerKey;
        RunGrows(tr, es, 0, i);
        GetUserExact(tr, es, i, t);
      }
    } else {
      var a: string, b: string :| b != "" && SameKey(a, b) && resolve(a) != resolve(b);
      var asked, id := if resolve(a) != 0 then a else b, if resolve(a) != 0 then b else a;
      var tr, es := Misleads(Row(resolve(asked), "", "", 0), resolve, asked, id);
      assert !FoundRight(tr[|tr| - 1], 1);
    }
  }

  // ---------- Requests without NULs ----------

  /** No GetUser in the run is asked for an id with a NUL. */
  predicate CleanRequests(es: seq<Event>) {
    forall i :: 0 <= i < |es| && es[i].Arrive? && es[i].call.Fetch? ==> NulFree(es[i].call.id)
  }

  predicate CleanRequest(th: Thread) {
    th.call.Fetch? ==> NulFree(th.call.id)
  }

  /** The user was looked up under an id without a NUL. */
  predicate CleanAnswer(pc: Pc) {
    && (pc.Done? && pc.answer.Found? ==> NulFree(pc.answer.asked))
    && (pc.Returning? && pc.answer.Found? ==> NulFree(pc.answer.asked))
  }

  predicate CleanOrigin(o: Origin) {
    o.OfRow? ==> NulFree(o.asked)
  }

  ghost predicate CleanState(s: State) {
    && (forall t :: t in s.threads ==> CleanRequest(s.threads[t]) && CleanAnswer(s.threads[t].pc))
    && (forall k :: k in s.cells && k.UserKey? ==> CleanOrigin(OriginOf(s, k)))
  }

  lemma WorkAnswersClean(s: State, t: nat, k: Luck)
    requires Inv(s) && CanWork(s, t) && LuckFits(s, t, k) && CleanState(s)
    ensures CleanAnswer(Work(s, t, k).threads[t].pc)
  {
    hide Inv, Work, CleanState, LuckFits;
    if s.threads[t].call.Fetch? {
      FetchAnswersClean(s, t, k);
    } else {
      WorkerThread(s, t, k);
    }
  }

  lemma FetchAnswersClean(s: State, t: nat, k: Luck)
    requires CanWork(s, t) && CleanState(s) && s.threads[t].call.Fetch?
    ensures CleanAnswer(Work(s, t, k).threads[t].pc)
  {
    hide Local, SessionFits, PcAdvances, Find, RowUser, Increment;
    if s.threads[t].pc.Probing? {
      hide Count, Select, FetchRow, FillUser;
    } else {
      hide Probe, StoreUser, Ready, SetSession, CurrentMoment;
    }
  }

  /** An entry of a user is as before, or is the user of the call at work. */
  lemma WorkOriginsClean(s: State, t: nat, k: Luck, key: Key)
    requires CanWork(s, t) && ThreadOk(WorldOf(s), t, s.threads[t]) && CleanState(s)
    requires key in Work(s, t, k).cells && key.UserKey?
    ensures CleanOrigin(OriginOf(Work(s, t, k), key))
  {
    hide Work, ThreadOk;
    if s.threads[t].pc.Priming? {
      PrimedClean(s, t, k, key);
    } else if s.threads[t].pc.FillingUser? {
      FilledClean(s, t, k, key);
    } else if WritesCache(s.threads[t].pc) {
      OtherWrites(s, t, k, key);
    }
  }

  lemma PrimedClean(s: State, t: nat, k: Luck, key: Key)
    requires CanWork(s, t) && ThreadOk(WorldOf(s), t, s.threads[t]) && CleanState(s) && s.threads[t].pc.Priming?
    requires key in Work(s, t, k).cells && key.UserKey?
    ensures CleanOrigin(OriginOf(Work(s, t, k), key))
  {
    hide Local, SessionFits, PcAdvances, UserToJson, Decimal.Text;
    Decimal.TextIsNulFree(s.ledger.rows[s.threads[t].pc.row].id);
  }

  lemma FilledClean(s: State, t: nat, k: Luck, key: Key)
    requires CanWork(s, t) && CleanState(s) && s.threads[t].pc.FillingUser?
    requires key in Work(s, t, k).cells && key.UserKey?
    ensures CleanOrigin(OriginOf(Work(s, t, k), key))
  {
    hide Local, SessionFits, PcAdvances, UserToJson;
  }

  lemma OtherWrites(s: State, t: nat, k: Luck, key: Key)
    requires CanWork(s, t) && WritesCache(s.threads[t].pc) && !s.threads[t].pc.Priming? && !s.threads[t].pc.FillingUser?
    requires key in Work(s, t, k).cells && key.UserKey?
    ensures key in s.cells && OriginOf(Work(s, t, k), key) == OriginOf(s, key)
  {
    hide Local, SessionFits, PcAdvances, EncodeListing, Decimal.Text;
  }

  lemma WorkClean(s: State, t: nat, k: Luck)
    requires Inv(s) && CanWork(s, t) && LuckFits(s, t, k) && CleanState(s)
    ensures CleanState(Stamp(Work(s, t, k)))
  {
    hide Inv, Work, ThreadOk, CleanAnswer, CleanOrigin, SessionFits, LuckFits;
    InvFacts(s);
    var w, s' := Work(s, t, k), Stamp(Work(s, t, k));
    WorkAnswersClean(s, t, k);
    forall key | key in s'.cells && key.UserKey? ensures CleanOrigin(OriginOf(s', key)) {
      WorkOriginsClean(s, t, k, key);
    }
  }

  lemma QuietClean(s: State, e: Event)
    requires Enabled(s, e) && !e.AtWork? && CleanState(s)
    requires e.Arrive? && e.call.Fetch? ==> NulFree(e.call.id)
    ensures CleanState(Step(s, e))
  {
    hide Work, Can, Go, NulFree;
    var s' := Step(s, e);
    forall key | key in s'.cells && key.UserKey? ensures CleanOrigin(OriginOf(s', key)) {
      assert key in s.cells && OriginOf(s', key) == OriginOf(s, key);
    }
  }

  lemma StartsClean(tr: seq<State>, es: seq<Event>)
    requires Run(tr, es)
    ensures CleanState(tr[0]) && |tr| == |es| + 1
  {
  }

  lemma {:induction false} RunClean(tr: seq<State>, es: seq<Event>, i: nat)
    requires Run(tr, es) && i < |tr| && CleanRequests(es)
    ensures CleanState(tr[i])
  {
    hide Run, Inv, CleanState, Step, Work, LuckFits;
    StartsClean(tr, es);
    if i > 0 {
      RunClean(tr, es, i - 1);
      RunInv(tr, es, i - 1);
      RunStep(tr, es, i - 1);
      var s, e := tr[i - 1], es[i - 1];
      if e.AtWork? {
        WorkClean(s, e.tid, e.luck);
        WorkIsStep(s, e);
      } else {
        QuietClean(s, e);
      }
    }
  }

  lemma WorkIsStep(s: State, e: Event)
    requires Enabled(s, e) && e.AtWork?
    ensures Step(s, e) == Stamp(Work(s, e.tid, e.luck))
  {
    hide Work, LuckFits;
  }

  lemma SameId(a: string, b: string)
    requires SameKey(a, b) && NulFree(a) && NulFree(b)
    ensures a == b
  {
    CStringWhole(a);
    CStringWhole(b);
  }

  /** Whatever the database makes of NULs, GetUser is exact in every run in which no request has one in its id. */
  lemma GetUserExactClean(tr: seq<State>, es: seq<Event>, i: nat, t: nat)
    requires Run(tr, es) && i < |tr| && CleanRequests(es) && HasAnswer(tr[i], t) && AnswerOf(tr[i], t).Found?
    ensures FoundRight(tr[i], t)
  {
    hide Run, CleanRequests, Lookup;
    RunClean(tr, es, i);
    ThreadFacts(tr, es, i, t);
    OrderedRows(tr, es, i);
    SameId(AnswerOf(tr[i], t).asked, tr[i].threads[t].call.id);
    FoundRow(tr[i].ledger.rows, AnswerOf(tr[i], t).row);
  }

  lemma FoundRow(rows: seq<Row>, i: nat)
    requires Ordered(rows) && i < |rows|
    ensures Lookup(rows, rows[i].id) == Some(UserOf(rows[i]))
  {
    FindUnique(rows, i);
  }
}
