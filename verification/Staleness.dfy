/**
 How old a list or a total can be, in every run: the answer is traced back to
 the step that filled the cache and to the states that step's call had read.
 */
module Staleness {
  import opened Prelude
  import opened Users
  import opened Json
  import opened Redis
  import opened Keys
  import opened PoolProtocol
  import opened System
  import opened SystemInv
  import opened SystemKept
  import opened Consistency
  import Service
  import Decimal

  /** At the start there is neither a list or total entry nor a call. */
  lemma EmptyStart(tr: seq<State>, es: seq<Event>)
    requires Run(tr, es)
    ensures tr[0].cells.Keys <= {RequestsKey} && tr[0].threads == map[]
  {
  }

  lemma MomentIs(tr: seq<State>, es: seq<Event>, i: nat)
    requires Run(tr, es) && i < |tr|
    ensures CurrentMoment(tr[i]) == i
  {
    hide Run;
    RunHistory(tr, es, i);
  }

  // ---------- From a cache entry to the step that filled it ----------

  /** Some call SETs this entry, having counted at c and read its page at p since it began. */
  ghost predicate ListFill(s: State, e: Event, key: Key, entry: Entry, c: nat, p: nat) {
    && e.AtWork? && e.luck.applied && e.tid in s.threads
    && var th := s.threads[e.tid];
       && th.call.Browse? && PageKey(th.call) == key && th.pc.FillingList?
       && th.pc.countAt == c && th.pc.pageAt == p && th.startAt <= c <= p
       && entry.value == Doc(EncodeListing(th.pc.listing))
  }

  ghost predicate TotalFill(s: State, e: Event, entry: Entry, c: nat) {
    && e.AtWork? && e.luck.applied && e.tid in s.threads
    && var th := s.threads[e.tid];
       && th.call.Stats? && th.pc.FillingTotal? && th.pc.countAt == c && th.startAt <= c
       && entry.value == Digits(Decimal.Text(th.pc.total))
  }

  /** The step fills this entry. */
  ghost predicate Fill(s: State, e: Event, key: Key, entry: Entry, o: Origin) {
    if key.ListKey? then o.OfPage? && ListFill(s, e, key, entry, o.countAt, o.pageAt)
    else key.TotalKey? && o.OfCount? && TotalFill(s, e, entry, o.countAt)
  }

  function SetAt(o: Origin): nat {
    match o
    case OfRow(_, _) => 0
    case OfPage(_, _, st) => st
    case OfCount(_, st) => st
  }

  lemma FillListEntry(s: State, t: nat, k: Luck, key: Key)
    requires CanWork(s, t) && s.threads[t].pc.FillingList? && ThreadOk(WorldOf(s), t, s.threads[t])
    requires key.ListKey? || key.TotalKey?
    ensures var s' := FillList(s, t, k);
            key in s'.cells ==>
              || (key in s.cells && s'.cells[key] == s.cells[key] && OriginOf(s', key) == OriginOf(s, key))
              || (&& Fill(s, AtWork(t, k), key, s'.cells[key], OriginOf(s', key))
                  && SetAt(OriginOf(s', key)) == CurrentMoment(s))
  {
  }

  lemma FillTotalEntry(s: State, t: nat, k: Luck, key: Key)
    requires CanWork(s, t) && s.threads[t].pc.FillingTotal? && ThreadOk(WorldOf(s), t, s.threads[t])
    requires key.ListKey? || key.TotalKey?
    ensures var s' := FillTotal(s, t, k);
            key in s'.cells ==>
              || (key in s.cells && s'.cells[key] == s.cells[key] && OriginOf(s', key) == OriginOf(s, key))
              || (&& Fill(s, AtWork(t, k), key, s'.cells[key], OriginOf(s', key))
                  && SetAt(OriginOf(s', key)) == CurrentMoment(s))
  {
  }

  lemma OtherEntry(s: State, t: nat, k: Luck, key: Key)
    requires CanWork(s, t) && WritesCache(s.threads[t].pc) && !s.threads[t].pc.FillingList?
    requires !s.threads[t].pc.FillingTotal?
    requires key.ListKey? || key.TotalKey?
    ensures var s' := Work(s, t, k);
            key in s'.cells ==> key in s.cells && s'.cells[key] == s.cells[key] && OriginOf(s', key) == OriginOf(s, key)
  {
    hide Local, UserToJson, SessionFits, Fits, Rank;
    hide Probe, InsertRow, ReadId, Enumerate, Select, FetchRow, CountRows, FetchCount, SelectRows, FetchRows, FillList;
    hide IndexList, FillTotal, ReadRequests;
    if s.threads[t].pc.Counting? { hide Prime, DeleteNext, DropTotal, FillUser; } else { hide Count; }
  }

  lemma WorkEntry(s: State, t: nat, k: Luck, key: Key)
    requires CanWork(s, t) && ThreadOk(WorldOf(s), t, s.threads[t])
    requires key.ListKey? || key.TotalKey?
    ensures var s' := Work(s, t, k);
            key in s'.cells ==>
              || (key in s.cells && s'.cells[key] == s.cells[key] && OriginOf(s', key) == OriginOf(s, key))
              || (&& Fill(s, AtWork(t, k), key, s'.cells[key], OriginOf(s', key))
                  && SetAt(OriginOf(s', key)) == CurrentMoment(s))
  {
    hide ThreadOk, Fill, SetAt, SessionFits, PcAdvances;
    hide Count, Probe, InsertRow, ReadId, Prime, Enumerate, DeleteNext, DropTotal, Select, FetchRow, FillUser;
    hide CountRows;
    hide FetchCount, SelectRows, FetchRows, FillList, IndexList, FillTotal, ReadRequests;
    if s.threads[t].pc.FillingList? {
      FillListEntry(s, t, k, key);
    } else if s.threads[t].pc.FillingTotal? {
      FillTotalEntry(s, t, k, key);
    } else if WritesCache(s.threads[t].pc) {
      OtherEntry(s, t, k, key);
    } else {
      hide Work;
    }
  }

  /** An entry is as before, or has just been filled. */
  lemma StepEntry(s: State, e: Event, key: Key)
    requires Inv(s) && Enabled(s, e) && (key.ListKey? || key.TotalKey?)
    ensures var s' := Step(s, e);
            key in s'.cells ==>
              || (key in s.cells && s'.cells[key] == s.cells[key] && OriginOf(s', key) == OriginOf(s, key))
              || (Fill(s, e, key, s'.cells[key], OriginOf(s', key)) && SetAt(OriginOf(s', key)) == CurrentMoment(s))
  {
    if key !in Step(s, e).cells {
      return;
    } else if e.AtWork? {
      assert ThreadOk(WorldOf(s), e.tid, s.threads[e.tid]);
      hide Inv, ThreadOk, Work, Fill, SetAt, Local;
      WorkEntry(s, e.tid, e.luck, key);
    } else {
      hide Inv, Fill, SetAt;
      QuietEntry(s, e, key);
    }
  }

  lemma QuietEntry(s: State, e: Event, key: Key)
    requires Enabled(s, e) && !e.AtWork? && key in Step(s, e).cells
    ensures var s' := Step(s, e);
            key in s.cells && s'.cells[key] == s.cells[key] && OriginOf(s', key) == OriginOf(s, key)
  {
    hide Work, Can, Go;
  }

  /** Every list and total entry was filled by a step of the run: the one its origin names. */
  lemma {:induction false} EntryFilled(tr: seq<State>, es: seq<Event>, i: nat, key: Key)
    requires Run(tr, es) && i < |tr| && (key.ListKey? || key.TotalKey?) && key in tr[i].cells
    ensures SetAt(OriginOf(tr[i], key)) < i
    ensures var st := SetAt(OriginOf(tr[i], key));
            Fill(tr[st], es[st], key, tr[i].cells[key], OriginOf(tr[i], key))
  {
    EmptyStart(tr, es);
    RunInv(tr, es, i - 1);
    MomentIs(tr, es, i - 1);
    RunStep(tr, es, i - 1);
    hide Run, Inv, Enabled, Step, Fill, OriginOf, CurrentMoment;
    StepEntry(tr[i - 1], es[i - 1], key);
    var o := OriginOf(tr[i], key);
    if !(Fill(tr[i - 1], es[i - 1], key, tr[i].cells[key], o) && SetAt(o) == i - 1) {
      EntryFilled(tr, es, i - 1, key);
    }
  }

  // ---------- From an answer to the cache entry it came from ----------

  /** The source of an answer, from the cache read on. */
  function SourceOf(pc: Pc): Option<Source> {
    match pc
    case Done(Listed(_, src)) => Some(src)
    case Done(Totals(_, _, _, src)) => Some(src)
    case ReadingRequests(_, src) => Some(src)
    case _ => None
  }

  ghost predicate SameOrigin(o: Origin, src: Source)
    requires src.ViaCache?
  {
    match o
    case OfRow(_, _) => false
    case OfPage(c, p, st) => src.countAt == c && src.pageAt == p && src.setAt == st
    case OfCount(c, st) => src.countAt == c && src.pageAt == c && src.setAt == st
  }

  /** In state s thread t finds the entry that the source names alive. */
  ghost predicate Hit(s: State, t: nat, src: Source)
    requires src.ViaCache?
  {
    && t in s.threads
    && var key := ProbeKey(s.threads[t].call);
       Live(s.cells, s.now, key) && SameOrigin(OriginOf(s, key), src)
  }

  lemma ProbeSource(s: State, t: nat, k: Luck)
    requires CanWork(s, t) && s.threads[t].pc.Probing?
    ensures var src := SourceOf(Probe(s, t, k).threads[t].pc);
            src.Some? && src.value.ViaCache? ==> Hit(s, t, src.value) && src.value.hitAt == CurrentMoment(s)
  {
  }

  lemma OtherSource(s: State, t: nat, k: Luck)
    requires CanWork(s, t) && !s.threads[t].pc.Probing?
    ensures var src := SourceOf(Work(s, t, k).threads[t].pc);
            src.Some? && src.value.ViaCache? ==> SourceOf(s.threads[t].pc) == src
  {
    if NeedsConn(s.threads[t].pc) {
      hide Work;
    }
  }

  lemma GuardSource(w: World, t: nat, th: Thread)
    requires ThreadOk(w, t, th) && (th.pc.Returning? || th.pc.ReturningTotal?)
    ensures var src := SourceOf(AfterGuard(th.pc)); src.Some? ==> src.value.Direct?
  {
    if th.pc.Returning? && th.pc.answer.Totals? {
      assert PcOk(w, t, th);
    }
  }

  /** A cached source is as before, or the step is the cache read that found it. */
  lemma StepSource(s: State, e: Event, t: nat, src: Source)
    requires Inv(s) && Enabled(s, e) && t in Step(s, e).threads && src.ViaCache?
    requires SourceOf(Step(s, e).threads[t].pc) == Some(src)
    ensures t in s.threads && Step(s, e).threads[t].call == s.threads[t].call
    ensures SourceOf(s.threads[t].pc) == Some(src) || (Hit(s, t, src) && src.hitAt == CurrentMoment(s))
  {
    if t in s.threads {
      assert ThreadOk(WorldOf(s), t, s.threads[t]);
      SameStart(s, e, t);
    }
    hide Inv, ThreadOk, Work, Hit, Probe, SourceOf, Can, Go, Local, AfterGuard;
    if e.AtWork? && e.tid == t {
      WorkSource(s, t, e.luck);
    } else if e.InPool? && e.tid == t && e.move.GiveBack? {
      GuardSource(WorldOf(s), t, s.threads[t]);
    } else if e.Arrive? && e.tid == t {
      NoSourceYet(e.call, src);
    } else {
      Bystander(s, e, t);
    }
  }

  lemma WorkSource(s: State, t: nat, k: Luck)
    requires CanWork(s, t)
    ensures var src := SourceOf(Work(s, t, k).threads[t].pc);
            src.Some? && src.value.ViaCache? ==>
              SourceOf(s.threads[t].pc) == src || (Hit(s, t, src.value) && src.value.hitAt == CurrentMoment(s))
  {
    hide Hit, Probe, SourceOf, Local;
    if s.threads[t].pc.Probing? { ProbeSource(s, t, k); } else { OtherSource(s, t, k); }
  }

  lemma NoSourceYet(call: Call, src: Source)
    ensures SourceOf(if call.Stats? then Probing else Counting) != Some(src)
  {
  }

  lemma Bystander(s: State, e: Event, t: nat)
    requires Enabled(s, e) && t in s.threads
    requires !(e.AtWork? && e.tid == t) && !(e.InPool? && e.tid == t && e.move.GiveBack?)
    ensures t in Step(s, e).threads
    ensures Step(s, e).threads[t] == s.threads[t] || SourceOf(Step(s, e).threads[t].pc).None?
  {
    hide Work, Can, Go;
  }

  /** An answer from the cache was found there, alive, in the state its source names, during the call. */
  lemma {:induction false} HitInRun(tr: seq<State>, es: seq<Event>, i: nat, t: nat, src: Source)
    requires Run(tr, es) && i < |tr| && t in tr[i].threads && src.ViaCache?
    requires SourceOf(tr[i].threads[t].pc) == Some(src)
    ensures src.hitAt < i && Hit(tr[src.hitAt], t, src) && tr[src.hitAt].threads[t].call == tr[i].threads[t].call
  {
    EmptyStart(tr, es);
    RunInv(tr, es, i - 1);
    MomentIs(tr, es, i - 1);
    RunStep(tr, es, i - 1);
    hide Run, Inv, Enabled, Step, Hit, SourceOf, CurrentMoment;
    StepSource(tr[i - 1], es[i - 1], t, src);
    if SourceOf(tr[i - 1].threads[t].pc) == Some(src) {
      HitInRun(tr, es, i - 1, t, src);
    }
  }

  // ---------- Bounded staleness ----------

  /** State `h` of the run lies within call t, which is answered in state i. */
  predicate Within(tr: seq<State>, i: nat, t: nat, h: nat) {
    i < |tr| && t in tr[i].threads && tr[i].threads[t].startAt <= h <= i
  }

  /** The listing is the exact total at state c and the exact page at state p of the run. */
  predicate ListedFrom(tr: seq<State>, c: nat, p: nat, limit: nat, offset: nat, l: Listing) {
    && c <= p < |tr|
    && l.total == |tr[c].ledger.rows|
    && l.users == UsersOf(Page(tr[p].ledger.rows, limit, offset))
  }

  /** Step k SETs the list of a call like `call`, from what the filling call counted at c and read at p. */
  ghost predicate ListFilledAt(tr: seq<State>, es: seq<Event>, k: nat, call: Call, c: nat, p: nat) {
    k < |tr| && k < |es| && call.Browse? && exists entry :: ListFill(tr[k], es[k], PageKey(call), entry, c, p)
  }

  ghost predicate TotalFilledAt(tr: seq<State>, es: seq<Event>, k: nat, c: nat) {
    k < |tr| && k < |es| && exists entry :: TotalFill(tr[k], es[k], entry, c)
  }

  /**
   The total and the page of a list answer are each exactly what the table said
   at some moment (c and p).  Either both moments lie within the call, or the
   answer was in the cache at a moment h of the call, at most 10 s after the
   step k that SET it, and the call that did so had read it at c and p.
   */
  lemma ListBoundedStaleness(tr: seq<State>, es: seq<Event>, i: nat, t: nat) returns (c: nat, p: nat, k: nat, h: nat)
    requires Run(tr, es) && i < |tr| && HasAnswer(tr[i], t) && AnswerOf(tr[i], t).Listed?
    ensures var call := tr[i].threads[t].call;
            && call.Browse? && p <= i
            && ListedFrom(tr, c, p, Service.PageLimit(call.limit), Service.PageOffset(call.offset),
                          AnswerOf(tr[i], t).listing)
            && Within(tr, i, t, h) && h < |tr|
            && ((h == k == c && Within(tr, i, t, p))
                || (p <= k <= h && ListFilledAt(tr, es, k, call, c, p) && tr[h].now <= tr[k].now + 10_000))
  {
    hide Run, GrowsTo, Hit;
    ThreadFacts(tr, es, i, t);
    var src := AnswerOf(tr[i], t).src;
    c, p := src.countAt, src.pageAt;
    h := if src.ViaCache? then src.hitAt else c;
    k := if src.ViaCache? then src.setAt else c;
    MomentInRun(tr, es, i, c);
    MomentInRun(tr, es, i, p);
    MomentInRun(tr, es, i, h);
    MomentInRun(tr, es, i, k);
    if src.ViaCache? {
      HitInRun(tr, es, i, t, src);
      ListHitFilled(tr, es, h, t, src);
    }
  }

  lemma ListHitFilled(tr: seq<State>, es: seq<Event>, h: nat, t: nat, src: Source)
    requires Run(tr, es) && h < |tr| && src.ViaCache? && Hit(tr[h], t, src) && tr[h].threads[t].call.Browse?
    ensures ListFilledAt(tr, es, src.setAt, tr[h].threads[t].call, src.countAt, src.pageAt)
  {
    var key := ProbeKey(tr[h].threads[t].call);
    hide Run;
    EntryFilled(tr, es, h, key);
    assert |tr| == |es| + 1 by { RunLengths(tr, es); }
    var o := OriginOf(tr[h], key);
    assert ListFill(tr[SetAt(o)], es[SetAt(o)], key, tr[h].cells[key], o.countAt, o.pageAt);
  }

  lemma RunLengths(tr: seq<State>, es: seq<Event>)
    requires Run(tr, es)
    ensures |tr| == |es| + 1
  {
  }

  /** The same for the total of GetStats, with 30 s. */
  lemma TotalBoundedStaleness(tr: seq<State>, es: seq<Event>, i: nat, t: nat) returns (c: nat, k: nat, h: nat)
    requires Run(tr, es) && i < |tr| && HasAnswer(tr[i], t) && AnswerOf(tr[i], t).Totals?
    ensures tr[i].threads[t].call.Stats? && c <= i && AnswerOf(tr[i], t).total == |tr[c].ledger.rows|
    ensures Within(tr, i, t, h) && h < |tr|
    ensures h == k == c || (c <= k <= h && TotalFilledAt(tr, es, k, c) && tr[h].now <= tr[k].now + 30_000)
  {
    hide Run, GrowsTo, Hit;
    ThreadFacts(tr, es, i, t);
    var src := AnswerOf(tr[i], t).src;
    c := src.countAt;
    h := if src.ViaCache? then src.hitAt else c;
    k := if src.ViaCache? then src.setAt else c;
    MomentInRun(tr, es, i, c);
    MomentInRun(tr, es, i, h);
    MomentInRun(tr, es, i, k);
    if src.ViaCache? {
      HitInRun(tr, es, i, t, src);
      TotalHitFilled(tr, es, h, t, src);
    }
  }

  lemma TotalHitFilled(tr: seq<State>, es: seq<Event>, h: nat, t: nat, src: Source)
    requires Run(tr, es) && h < |tr| && src.ViaCache? && Hit(tr[h], t, src) && tr[h].threads[t].call.Stats?
    ensures TotalFilledAt(tr, es, src.setAt, src.countAt)
  {
    hide Run;
    EntryFilled(tr, es, h, TotalKey);
    assert |tr| == |es| + 1 by { RunLengths(tr, es); }
    var o := OriginOf(tr[h], TotalKey);
    assert TotalFill(tr[SetAt(o)], es[SetAt(o)], tr[h].cells[TotalKey], o.countAt);
  }

  /**
   When a list answer is exact: precisely when no INSERT has taken effect
   between the COUNT its total comes from and now.
   */
  lemma ListExactIff(tr: seq<State>, es: seq<Event>, i: nat, t: nat)
    requires Run(tr, es) && i < |tr| && HasAnswer(tr[i], t) && AnswerOf(tr[i], t).Listed?
    ensures var call, rows, c := tr[i].threads[t].call, tr[i].ledger.rows, AnswerOf(tr[i], t).src.countAt;
            && call.Browse? && Ordered(rows) && c <= i
            && (AnswerOf(tr[i], t).listing == FreshFor(rows, call) <==> |tr[c].ledger.rows| == |rows|)
  {
    hide Run, GrowsTo, FreshFor;
    ThreadFacts(tr, es, i, t);
    OrderedRows(tr, es, i);
    var src := AnswerOf(tr[i], t).src;
    MomentInRun(tr, es, i, src.countAt);
    MomentInRun(tr, es, i, src.pageAt);
    RunGrows(tr, es, src.countAt, src.pageAt);
    GrownRows(WorldOf(tr[src.countAt]), WorldOf(tr[src.pageAt]));
    FreshIff(tr[i].ledger.rows, tr[i].ledger.past[src.pageAt].rows, tr[i].threads[t].call, AnswerOf(tr[i], t).listing);
  }

  lemma FreshIff(rows: seq<Row>, n: nat, call: Call, l: Listing)
    requires Ordered(rows) && call.Browse? && l.total <= n <= |rows|
    requires l.users == UsersOf(Page(rows[..n], Service.PageLimit(call.limit), Service.PageOffset(call.offset)))
    ensures l == FreshFor(rows, call) <==> l.total == |rows|
  {
    if n == |rows| {
      assert rows[..n] == rows;
    }
  }

  // ---------- Quiescence ----------

  /** No list was SET in the run later than `lag` after its total was counted. */
  ghost predicate ListFillsWithin(tr: seq<State>, es: seq<Event>, lag: nat) {
    forall k: nat, call, c: nat, p: nat :: ListFilledAt(tr, es, k, call, c, p) && c < |tr| ==>
      tr[k].now <= tr[c].now + lag
  }

  ghost predicate TotalFillsWithin(tr: seq<State>, es: seq<Event>, lag: nat) {
    forall k: nat, c: nat :: TotalFilledAt(tr, es, k, c) && c < |tr| ==> tr[k].now <= tr[c].now + lag
  }

  /** The table has not changed in any state of the run, up to i, that is no more than `span` older than state a. */
  ghost predicate QuietFor(tr: seq<State>, a: nat, i: nat, span: nat) {
    a <= i < |tr| && forall m :: 0 <= m <= i && tr[a].now <= tr[m].now + span ==>
      |tr[m].ledger.rows| == |tr[i].ledger.rows|
  }

  /** Once writes have stopped for 10 s plus the longest fill delay, list answers are exact. */
  lemma QuietListsExact(tr: seq<State>, es: seq<Event>, i: nat, t: nat, lag: nat)
    requires Run(tr, es) && i < |tr| && HasAnswer(tr[i], t) && AnswerOf(tr[i], t).Listed?
    requires ListFillsWithin(tr, es, lag)
    requires QuietFor(tr, tr[i].threads[t].startAt, i, 10_000 + lag)
    ensures var call, l := tr[i].threads[t].call, AnswerOf(tr[i], t).listing;
            && call.Browse? && l.total == |tr[i].ledger.rows|
            && l.users
               == UsersOf(Page(tr[i].ledger.rows, Service.PageLimit(call.limit), Service.PageOffset(call.offset)))
  {
    hide Run, ListFilledAt;
    var c, p, k, h := ListBoundedStaleness(tr, es, i, t);
    TimeGoesOn(tr, es, tr[i].threads[t].startAt, h);
    TimeGoesOn(tr, es, c, p);
    SameRows(tr, es, p, i);
  }

  /** And so are the totals of GetStats after 30 s plus theirs. */
  lemma QuietTotalsExact(tr: seq<State>, es: seq<Event>, i: nat, t: nat, lag: nat)
    requires Run(tr, es) && i < |tr| && HasAnswer(tr[i], t) && AnswerOf(tr[i], t).Totals?
    requires TotalFillsWithin(tr, es, lag)
    requires QuietFor(tr, tr[i].threads[t].startAt, i, 30_000 + lag)
    ensures AnswerOf(tr[i], t).total == |tr[i].ledger.rows|
  {
    hide Run, TotalFilledAt;
    var c, k, h := TotalBoundedStaleness(tr, es, i, t);
    TimeGoesOn(tr, es, tr[i].threads[t].startAt, h);
  }
}
