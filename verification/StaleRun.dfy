/**
 Deleting the list caches and the cached total on write does not keep them
 consistent, even when no command ever fails: a reader that counted before an
 INSERT may SET what it found after the writer has invalidated, and later
 callers are served from it.
 */
module StaleRun {
  import opened Prelude
  import opened Users
  import opened Json
  import opened Redis
  import opened Keys
  import opened PoolProtocol
  import opened System
  import opened Consistency
  import opened SmoothRun
  import Decimal

  /** ListUsers or GetStats. */
  predicate Scans(call: Call) {
    call.Browse? || call.Stats?
  }

  /** What such a call SETs when it has read `rows`. */
  function Stored(call: Call, rows: seq<Row>): Value
    requires Scans(call) && Ordered(rows)
  {
    if call.Browse? then Doc(EncodeListing(FreshFor(rows, call))) else Digits(Decimal.Text(|rows|))
  }

  /** The answer is the one that `rows` alone would give. */
  predicate AnsweredFrom(a: Answer, call: Call, rows: seq<Row>) {
    Ordered(rows) &&
    if call.Browse? then a.Listed? && a.listing == FreshFor(rows, call) else a.Totals? && a.total == |rows|
  }

  /** Thread 0 alone is there and holds a connection; another one is idle. */
  predicate Alone(s: State) {
    && s.threads.Keys == {0} && s.pool.status.Keys == {0} && s.pool.status[0].Holding?
    && s.pool.owner.None? && s.pool.idle != [] && s.index == {}
  }

  lemma StartFacts(s: State)
    requires Init(s)
    ensures Smooth([s], []) && Ordered(s.ledger.rows)
    ensures s.cells.Keys <= {RequestsKey} && s.threads == map[] && s.index == {}
    ensures s.pool.status == map[] && s.pool.owner.None?
  {
  }

  lemma NotTheCounter(call: Call)
    requires Scans(call)
    ensures ProbeKey(call) != RequestsKey
  {
  }

  lemma IncrementKeys(cells: map<Key, Entry>, now: nat)
    ensures Increment(cells, now, RequestsKey).Keys == cells.Keys + {RequestsKey}
  {
  }

  lemma ReaderBegins(s: State, call: Call) returns (tr: seq<State>, es: seq<Event>)
    requires Init(s) && Scans(call) && Counter(s.cells, s.now, RequestsKey) < Decimal.INT64_MAX - 3
    ensures Continues([s], tr, es)
    ensures var s' := Last(tr);
            && s'.threads.Keys == {0} && s'.threads[0].call == call && s'.threads[0].pc == Probing
            && s'.pool == Join(s.pool, 0) && s'.ledger.rows == s.ledger.rows && s'.index == {}
            && s'.cells.Keys <= {RequestsKey}
  {
    hide Smooth, Init, Counter, Increment, Join;
    StartFacts(s);
    IncrementKeys(s.cells, s.now);
    tr, es := [s], [];
    tr, es := Begins(tr, es, 0, call);
  }

  lemma ReaderMisses(s: State, call: Call) returns (tr: seq<State>, es: seq<Event>)
    requires Init(s) && Scans(call) && Counter(s.cells, s.now, RequestsKey) < Decimal.INT64_MAX - 3
    ensures Continues([s], tr, es)
    ensures var s' := Last(tr);
            && s'.threads.Keys == {0} && s'.threads[0].call == call && s'.threads[0].pc == CountingRows
            && s'.pool == Join(s.pool, 0) && s'.ledger.rows == s.ledger.rows && s'.index == {}
  {
    hide Smooth, Init, Work, Stamp, LuckFits, Counter, PageKey;
    NotTheCounter(call);
    tr, es := ReaderBegins(s, call);
    ProbesCold(Last(tr), 0);
    tr, es := Works(tr, es, 0);
  }

  lemma SlowReader(s: State, call: Call) returns (tr: seq<State>, es: seq<Event>)
    requires Init(s) && |s.pool.idle| >= 2 && Scans(call)
    requires Counter(s.cells, s.now, RequestsKey) < Decimal.INT64_MAX - 3
    ensures Continues([s], tr, es) && Alone(Last(tr)) && Last(tr).ledger.rows == s.ledger.rows
    ensures Last(tr).threads[0].call == call && Poised(Last(tr).threads[0], s.ledger.rows)
  {
    hide Smooth, Init, FreshFor, Poised, Counter;
    StartFacts(s);
    tr, es := ReaderMisses(s, call);
    tr, es := Acquires(tr, es, 0);
    tr, es := Loads(tr, es, 0);
  }

  /** Thread 1 creates a user while thread 0 is poised. */
  lemma QuickWriter(tr: seq<State>, es: seq<Event>, call: Call) returns (tr': seq<State>, es': seq<Event>)
    requires |tr| > 0 && Smooth(tr, es) && Alone(Last(tr))
    requires call.Create? && Valid(call) && LastId(Last(tr).ledger.rows) < Decimal.INT64_MAX
    requires Counter(tr[0].cells, tr[0].now, RequestsKey) < Decimal.INT64_MAX - 3
    ensures Continues(tr, tr', es')
    ensures var s, s' := Last(tr), Last(tr');
            && s'.threads.Keys == {0, 1} && s'.threads[0] == s.threads[0] && s'.pool.status == s.pool.status[1 := Out]
            && Returned(s', 1) && s'.threads[1].pc.answer.Created?
            && s.ledger.rows <= s'.ledger.rows && |s'.ledger.rows| == |s.ledger.rows| + 1
  {
    hide Smooth, Work, Stamp, LuckFits, Counter, Increment, LastId;
    tr', es' := Begins(tr, es, 1, call);
    tr', es' := Acquires(tr', es', 1);
    ReadyNow(tr', es', 1);
    Inserts(Last(tr'), 1);
    tr', es' := Works(tr', es', 1);
    tr', es' := MaintainsAll(tr', es', 1);
    tr', es' := Releases(tr', es', 1);
  }

  lemma Fills(s: State, t: nat, rows: seq<Row>)
    requires CanWork(s, t) && Scans(s.threads[t].call) && Poised(s.threads[t], rows)
    ensures LuckFits(s, t, Fortune)
    ensures var s', call := Stamp(Work(s, t, Fortune)), s.threads[t].call;
            && Worked(s, s', t) && s'.ledger.rows == s.ledger.rows
            && Visible(s'.cells, s'.now, ProbeKey(call)) == Some(Stored(call, rows))
  {
    hide PcAdvances, SessionFits, EncodeListing, FreshFor;
  }

  /** Thread 0 SETs what it found after all. */
  lemma LateFill(tr: seq<State>, es: seq<Event>, rows: seq<Row>) returns (tr': seq<State>, es': seq<Event>)
    requires |tr| > 0 && Smooth(tr, es) && CanWork(Last(tr), 0)
    requires Scans(Last(tr).threads[0].call) && Poised(Last(tr).threads[0], rows)
    ensures Continues(tr, tr', es') && Worked(Last(tr), Last(tr'), 0) && Last(tr').ledger.rows == Last(tr).ledger.rows
    ensures var call := Last(tr).threads[0].call;
            Visible(Last(tr').cells, Last(tr').now, ProbeKey(call)) == Some(Stored(call, rows))
  {
    hide Smooth, Work, Stamp, LuckFits, Visible, Stored, ProbeKey;
    Fills(Last(tr), 0, rows);
    tr', es' := Works(tr, es, 0);
  }

  lemma ProbesWarm(s: State, t: nat, rows: seq<Row>)
    requires CanWork(s, t) && s.threads[t].pc.Probing? && Scans(s.threads[t].call) && Ordered(rows)
    requires Visible(s.cells, s.now, ProbeKey(s.threads[t].call)) == Some(Stored(s.threads[t].call, rows))
    ensures LuckFits(s, t, Fortune)
    ensures var s', call := Stamp(Work(s, t, Fortune)), s.threads[t].call;
            && WorkedQuietly(s, s', t)
            && (call.Browse? ==> s'.threads[t].pc.Done? && AnsweredFrom(s'.threads[t].pc.answer, call, rows))
            && (call.Stats? ==> s'.threads[t].pc.ReadingRequests? && s'.threads[t].pc.total == |rows| && CanWork(s', t))
  {
    hide PcAdvances, SessionFits, EncodeListing, DecodeListing, FreshFor, Decimal.Text, Decimal.Strtoll;
    if s.threads[t].call.Browse? {
      ListingRoundTrip(FreshFor(rows, s.threads[t].call));
    } else {
      CountFits(rows);
      Decimal.StrtollRoundTrip(|rows|);
    }
  }

  lemma ReadsRequests(s: State, t: nat)
    requires CanWork(s, t) && s.threads[t].pc.ReadingRequests?
    ensures LuckFits(s, t, Fortune)
    ensures var s', pc := Stamp(Work(s, t, Fortune)), s.threads[t].pc;
            && WorkedQuietly(s, s', t)
            && s'.threads[t].pc.Done? && s'.threads[t].pc.answer.Totals? && s'.threads[t].pc.answer.total == pc.total
  {
    hide PcAdvances, SessionFits;
  }

  lemma CountedFrom(a: Answer, call: Call, rows: seq<Row>)
    requires call.Stats? && Ordered(rows) && a.Totals? && a.total == |rows|
    ensures AnsweredFrom(a, call, rows)
  {
  }

  lemma PoisedWorks(s: State, rows: seq<Row>)
    requires 0 in s.threads && Poised(s.threads[0], rows) && 0 in s.pool.status && s.pool.status[0].Holding?
    ensures CanWork(s, 0) && Scans(s.threads[0].call)
  {
  }

  /** A call that comes later is served from the cache. */
  lemma LateReader(tr: seq<State>, es: seq<Event>, call: Call, rows: seq<Row>)
      returns (tr': seq<State>, es': seq<Event>)
    requires |tr| > 0 && Smooth(tr, es) && Scans(call) && Ordered(rows)
    requires Visible(Last(tr).cells, Last(tr).now, ProbeKey(call)) == Some(Stored(call, rows))
    requires Last(tr).threads.Keys == Last(tr).pool.status.Keys == {0, 1}
    requires Counter(tr[0].cells, tr[0].now, RequestsKey) < Decimal.INT64_MAX - 3
    ensures Continues(tr, tr', es') && Last(tr').ledger.rows == Last(tr).ledger.rows
    ensures HasAnswer(Last(tr'), 2) && Last(tr').threads[2].call == call
    ensures AnsweredFrom(AnswerOf(Last(tr'), 2), call, rows)
  {
    hide Smooth, Work, Stamp, LuckFits, Counter, Increment, Visible, Stored, ProbeKey, AnsweredFrom;
    NotTheCounter(call);
    assert |Last(tr).threads.Keys| == 2;
    CountedElsewhere(Last(tr).cells, Last(tr).now, ProbeKey(call));
    tr', es' := Begins(tr, es, 2, call);
    ProbesWarm(Last(tr'), 2, rows);
    tr', es' := Works(tr', es', 2);
    if call.Stats? {
      ReadsRequests(Last(tr'), 2);
      tr', es' := Works(tr', es', 2);
      CountedFrom(AnswerOf(Last(tr'), 2), call, rows);
    }
  }

  /**
   From every start with two connections, and for every span of time, there is a
   run without a single failure in which a CreateUser (call 1) has been answered,
   that span passes, and only then a ListUsers or a GetStats (call 2) arrives, and
   its answer is still the one from before.
   */
  lemma GoesStale(s: State, read: Call, write: Call, ms: nat) returns (tr: seq<State>, es: seq<Event>, i: nat)
    requires Init(s) && |s.pool.idle| >= 2
    requires Scans(read) && write.Create? && Valid(write)
    requires LastId(s.ledger.rows) < Decimal.INT64_MAX && Counter(s.cells, s.now, RequestsKey) < Decimal.INT64_MAX - 3
    ensures Smooth(tr, es) && |tr| > 0 && tr[0] == s && i + 1 < |tr|
    ensures HasAnswer(tr[i], 1) && Returned(tr[i], 1) && AnswerOf(tr[i], 1).Created?
    ensures tr[i + 1].now == tr[i].now + ms && 2 !in tr[i].threads && 2 !in tr[i + 1].threads
    ensures |tr[i].ledger.rows| == |s.ledger.rows| + 1 && Last(tr).ledger.rows == tr[i].ledger.rows
    ensures HasAnswer(Last(tr), 2) && Last(tr).threads[2].call == read
    ensures AnsweredFrom(AnswerOf(Last(tr), 2), read, s.ledger.rows)
  {
    hide Smooth, Init, Poised, Counter, LastId, Ordered, AnsweredFrom, Stored;
    StartFacts(s);
    tr, es := SlowReader(s, read);
    tr, es := QuickWriter(tr, es, write);
    i := |tr| - 1;
    tr, es := Waits(tr, es, ms);
    PoisedWorks(Last(tr), s.ledger.rows);
    tr, es := LateFill(tr, es, s.ledger.rows);
    tr, es := LateReader(tr, es, read, s.ledger.rows);
  }
}
