/**
 What becomes of a call: it fails exactly when one of its own SQL exchanges did,
 and otherwise has the answer its kind promises.  And what time a CreateUser
 writes: the one it read when it began.
 */
module Outcomes {
  import opened Prelude
  import opened Users
  import opened Redis
  import opened PoolProtocol
  import opened System
  import opened SystemInv
  import opened SystemKept
  import opened Consistency
  import Decimal

  // ---------- Failing ----------

  /** Steps at which the call waits for the database. */
  predicate AtSql(pc: Pc) {
    || pc.Inserting? || pc.Selecting? || pc.FetchingRow? || pc.CountingRows?
    || pc.FetchingCount? || pc.SelectingPage? || pc.FetchingPage?
  }

  /** In this step an SQL exchange of call t is not answered. */
  predicate SqlFails(s: State, e: Event, t: nat) {
    e.AtWork? && e.tid == t && t in s.threads && AtSql(s.threads[t].pc) && !e.luck.ok
  }

  /** Some SQL exchange of call t was not answered before state i. */
  ghost predicate LostSql(tr: seq<State>, es: seq<Event>, i: nat, t: nat) {
    exists m :: 0 <= m < i && m < |tr| && m < |es| && SqlFails(tr[m], es[m], t)
  }

  predicate IsFailure(a: Answer) {
    a == Failed || a == Missing(SqlFailed)
  }

  /** The call is going to be answered with a failure, or has been. */
  predicate Fails(pc: Pc) {
    (pc.Returning? && IsFailure(pc.answer)) || (pc.Done? && IsFailure(pc.answer))
  }

  lemma ReadyToSend(s: State, t: nat)
    requires Inv(s) && CanWork(s, t) && Sends(s.threads[t].pc)
    ensures Ready(s, ConnOf(s, t))
  {
    hide PoolInv, ThreadOk, CellsOk, WritersOk, LedgerOk;
    assert SessionFits(s, t);
  }

  lemma SendFails(s: State, t: nat, k: Luck)
    requires CanWork(s, t) && LuckFits(s, t, k) && Sends(s.threads[t].pc) && Ready(s, ConnOf(s, t))
    ensures Fails(Work(s, t, k).threads[t].pc) <==> !k.ok
  {
    hide Local, SessionFits, PcAdvances, Ready, SetSession, CallPage, LastId;
  }

  lemma ReceiveFails(s: State, t: nat, k: Luck)
    requires CanWork(s, t) && Fetching(s.threads[t].pc)
    ensures Fails(Work(s, t, k).threads[t].pc) <==> !k.ok
  {
    hide Local, SessionFits, PcAdvances, SetSession, ReadUsers, RowUser, Decimal.Text, Decimal.Strtoll;
  }

  /** No other step makes a call fail. */
  lemma OthersSucceed(s: State, t: nat, k: Luck)
    requires CanWork(s, t) && !AtSql(s.threads[t].pc)
    ensures !Fails(Work(s, t, k).threads[t].pc)
  {
    hide Local, SessionFits, PcAdvances, Increment, StoreUser, StoreList, StoreTotal, PageKey, Ready, SetSession;
    if s.threads[t].pc.Probing? {
      ProbeSucceeds(s, t, k);
    } else {
      hide Probe;
    }
  }

  lemma ProbeSucceeds(s: State, t: nat, k: Luck)
    requires CanWork(s, t) && s.threads[t].pc.Probing?
    ensures !Fails(Work(s, t, k).threads[t].pc)
  {
    hide Local, SessionFits, PcAdvances, Visible;
  }

  lemma WorkFails(s: State, t: nat, k: Luck)
    requires Inv(s) && CanWork(s, t) && LuckFits(s, t, k)
    ensures Fails(Work(s, t, k).threads[t].pc) <==> SqlFails(s, AtWork(t, k), t)
  {
    hide Inv, Work, LuckFits, Fails;
    if Sends(s.threads[t].pc) {
      ReadyToSend(s, t);
      SendFails(s, t, k);
    } else if Fetching(s.threads[t].pc) {
      ReceiveFails(s, t, k);
    } else {
      OthersSucceed(s, t, k);
    }
  }

  /** What happens to a call in a step that is not its own work. */
  lemma QuietPc(s: State, e: Event, t: nat)
    requires Enabled(s, e) && t in s.threads && !(e.AtWork? && e.tid == t)
    ensures t in Step(s, e).threads
    ensures var pc, pc' := s.threads[t].pc, Step(s, e).threads[t].pc;
            pc' == pc || pc'.Crashed? || pc' == AfterGuard(pc)
  {
    hide Work, Can, Go, AfterGuard;
  }

  lemma StepFails(s: State, e: Event, t: nat)
    requires Inv(s) && Enabled(s, e) && t in s.threads && t in Step(s, e).threads
    ensures var pc, pc' := s.threads[t].pc, Step(s, e).threads[t].pc;
            && (pc.Crashed? ==> pc'.Crashed?)
            && (!pc'.Crashed? ==> (Fails(pc') <==> Fails(pc) || SqlFails(s, e, t)))
  {
    hide Inv, Work, Can, Go, LuckFits;
    if e.AtWork? && e.tid == t {
      WorkFails(s, t, e.luck);
      WorkPc(s, e);
    } else {
      QuietPc(s, e, t);
    }
  }

  lemma WorkPc(s: State, e: Event)
    requires Enabled(s, e) && e.AtWork?
    ensures Step(s, e).threads[e.tid].pc == Work(s, e.tid, e.luck).threads[e.tid].pc
    ensures IsWork(s.threads[e.tid].pc) && !Fails(s.threads[e.tid].pc)
    ensures !Work(s, e.tid, e.luck).threads[e.tid].pc.Crashed?
  {
    hide Work, LuckFits, SessionFits;
  }

  /** A call that has arrived stays known. */
  lemma {:induction false} StaysKnown(tr: seq<State>, es: seq<Event>, m: nat, i: nat, t: nat)
    requires Run(tr, es) && m <= i < |tr| && t in tr[m].threads
    ensures t in tr[i].threads
    decreases i - m
  {
    hide Run, Step, Enabled;
    if m < i {
      StaysKnown(tr, es, m, i - 1, t);
      RunLength(tr, es);
      RunStep(tr, es, i - 1);
      SameStart(tr[i - 1], es[i - 1], t);
    }
  }

  lemma RunLength(tr: seq<State>, es: seq<Event>)
    requires Run(tr, es)
    ensures |tr| == |es| + 1
  {
  }

  lemma NewIsFresh(s: State, e: Event, t: nat)
    requires Enabled(s, e) && t !in s.threads && t in Step(s, e).threads
    ensures !Fails(Step(s, e).threads[t].pc)
  {
    hide Work;
  }

  lemma NotBefore(tr: seq<State>, es: seq<Event>, i: nat, t: nat)
    requires Run(tr, es) && i < |tr| && t !in tr[i].threads
    ensures !LostSql(tr, es, i + 1, t)
  {
    hide Run;
    forall m | 0 <= m < i + 1 && m < |tr| && m < |es| ensures !SqlFails(tr[m], es[m], t) {
      if t in tr[m].threads {
        StaysKnown(tr, es, m, i, t);
      }
    }
  }

  lemma FailedNext(tr: seq<State>, es: seq<Event>, i: nat, t: nat)
    requires i < |es| && i < |tr|
    ensures LostSql(tr, es, i + 1, t) <==> LostSql(tr, es, i, t) || SqlFails(tr[i], es[i], t)
  {
    hide SqlFails;
    if SqlFails(tr[i], es[i], t) {
      assert LostSql(tr, es, i + 1, t);
    }
  }

  /** A call fails exactly when one of its own SQL exchanges has not been answered. */
  lemma {:induction false} FailsIff(tr: seq<State>, es: seq<Event>, i: nat, t: nat)
    requires Run(tr, es) && i < |tr| && t in tr[i].threads && !tr[i].threads[t].pc.Crashed?
    ensures Fails(tr[i].threads[t].pc) <==> LostSql(tr, es, i, t)
  {
    hide Run, Inv, Step, Enabled, Fails, LostSql, SqlFails;
    StartsEmpty(tr, es);
    RunLength(tr, es);
    RunStep(tr, es, i - 1);
    RunInv(tr, es, i - 1);
    if t in tr[i - 1].threads {
      StepFails(tr[i - 1], es[i - 1], t);
      FailsIff(tr, es, i - 1, t);
      FailedNext(tr, es, i - 1, t);
    } else {
      NewIsFresh(tr[i - 1], es[i - 1], t);
      NotBefore(tr, es, i - 1, t);
    }
  }

  /** What a call is answered that has not failed. */
  predicate Succeeds(call: Call, a: Answer) {
    match call
    case Create(name, _) => if name == "" then a == Rejected else a.Created?
    case Fetch(id) => if id == "" then a == Rejected else a.Found? || (a.Missing? && a.why.NoRow?)
    case Browse(_, _) => a.Listed?
    case Stats => a.Totals?
  }

  /** And one that has. */
  predicate IsFailureOf(call: Call, a: Answer) {
    a == if call.Fetch? then Missing(SqlFailed) else Failed
  }

  /**
   The kind of every answer: a failure if and only if one of the call's own SQL
   exchanges was not answered, and otherwise what the call asked for, or a
   rejection if and only if it came without a name or an id.
   */
  lemma EveryOutcome(tr: seq<State>, es: seq<Event>, i: nat, t: nat)
    requires Run(tr, es) && i < |tr| && HasAnswer(tr[i], t)
    ensures var call, a := tr[i].threads[t].call, AnswerOf(tr[i], t);
            if LostSql(tr, es, i, t) then IsFailureOf(call, a) else Succeeds(call, a)
  {
    hide Run, LostSql;
    FailsIff(tr, es, i, t);
    ThreadFacts(tr, es, i, t);
  }

  // ---------- The time of a CreateUser ----------

  /** The creation time a call carries. */
  function StampOf(pc: Pc): Option<Decimal.int64> {
    match pc
    case Inserting(stamp) => Some(stamp)
    case ReadingId(stamp, _) => Some(stamp)
    case Priming(u, _) => Some(u.createdAt)
    case Enumerating(u, _) => Some(u.createdAt)
    case Deleting(u, _, _) => Some(u.createdAt)
    case DroppingTotal(u, _) => Some(u.createdAt)
    case Returning(Created(u, _)) => Some(u.createdAt)
    case Done(Created(u, _)) => Some(u.createdAt)
    case _ => None
  }

  /** In this step call t begins, and reads this time off the clock. */
  predicate ReadsClock(s: State, e: Event, t: nat, time: Decimal.int64) {
    e.AtWork? && e.tid == t && t in s.threads && s.threads[t].pc.Counting? && e.luck.stamp == time
  }

  lemma StampChange(s: State, t: nat, k: Luck)
    requires CanWork(s, t) && s.threads[t].call.Create?
    ensures var stamp := StampOf(Work(s, t, k).threads[t].pc);
            || stamp.None?
            || stamp == StampOf(s.threads[t].pc)
            || (s.threads[t].pc.Counting? && stamp == Some(k.stamp))
  {
    hide Work;
    if s.threads[t].pc.Counting? || s.threads[t].pc.Inserting? || s.threads[t].pc.ReadingId? {
      EarlyStamp(s, t, k);
    } else {
      LateStamp(s, t, k);
    }
  }

  lemma EarlyStamp(s: State, t: nat, k: Luck)
    requires CanWork(s, t) && s.threads[t].call.Create?
    requires s.threads[t].pc.Counting? || s.threads[t].pc.Inserting? || s.threads[t].pc.ReadingId?
    ensures var stamp := StampOf(Work(s, t, k).threads[t].pc);
            || stamp.None?
            || stamp == StampOf(s.threads[t].pc)
            || (s.threads[t].pc.Counting? && stamp == Some(k.stamp))
  {
    hide Local, SessionFits, PcAdvances, Increment, Ready, LastId, SetSession, AppendRow, Decimal.Text;
  }

  lemma LateStamp(s: State, t: nat, k: Luck)
    requires CanWork(s, t) && s.threads[t].call.Create?
    requires !s.threads[t].pc.Counting? && !s.threads[t].pc.Inserting? && !s.threads[t].pc.ReadingId?
    ensures StampOf(Work(s, t, k).threads[t].pc) == StampOf(s.threads[t].pc)
  {
    hide Local, SessionFits, PcAdvances, StoreUser, Count, Probe, InsertRow, ReadId;
    hide Select, FetchRow, FillUser, CountRows, FetchCount, SelectRows, FetchRows, FillList, IndexList, FillTotal;
    hide ReadRequests;
    if s.threads[t].pc.Deleting? {
      hide Prime, Enumerate, DropTotal;
    } else {
      hide DeleteNext;
    }
  }

  lemma StampsAreCreates(w: World, t: nat, th: Thread)
    requires ThreadOk(w, t, th)
    ensures StampOf(th.pc).Some? ==> th.call.Create?
  {
  }

  lemma StepStamp(s: State, e: Event, t: nat)
    requires Inv(s) && Enabled(s, e) && t in s.threads && t in Step(s, e).threads
    requires StampOf(Step(s, e).threads[t].pc).Some?
    ensures var stamp := StampOf(Step(s, e).threads[t].pc);
            stamp == StampOf(s.threads[t].pc) || ReadsClock(s, e, t, stamp.value)
  {
    hide Inv, Work, Can, Go, LuckFits, StampOf, ThreadOk, PcOk;
    if e.AtWork? && e.tid == t {
      WorkPc(s, e);
      if s.threads[t].call.Create? {
        StampChange(s, t, e.luck);
      } else {
        WorkerThread(s, t, e.luck);
        WorkCall(s, e);
        StampsAreCreates(WorldOf(Stamp(Work(s, t, e.luck))), t, Work(s, t, e.luck).threads[t]);
      }
    } else {
      QuietPc(s, e, t);
      GuardStamp(s.threads[t].pc);
    }
  }

  lemma WorkCall(s: State, e: Event)
    requires Enabled(s, e) && e.AtWork?
    ensures Work(s, e.tid, e.luck).threads[e.tid].call == s.threads[e.tid].call
  {
    hide Work, LuckFits, SessionFits;
  }

  lemma GuardStamp(pc: Pc)
    ensures StampOf(AfterGuard(pc)) == StampOf(pc)
    ensures forall counted :: StampOf(Crashed(counted)).None?
  {
  }

  lemma NewHasNoStamp(s: State, e: Event, t: nat)
    requires Enabled(s, e) && t !in s.threads && t in Step(s, e).threads
    ensures StampOf(Step(s, e).threads[t].pc).None?
  {
    hide Work;
  }

  /** The time a CreateUser carries was read in a step m of its own, its first. */
  lemma {:induction false} StampRead(tr: seq<State>, es: seq<Event>, i: nat, t: nat) returns (m: nat)
    requires Run(tr, es) && i < |tr| && t in tr[i].threads && StampOf(tr[i].threads[t].pc).Some?
    ensures m < i && m < |es| && ReadsClock(tr[m], es[m], t, StampOf(tr[i].threads[t].pc).value)
  {
    hide Run, Inv, Step, Enabled, StampOf;
    StartsEmpty(tr, es);
    RunLength(tr, es);
    m := i - 1;
    RunStep(tr, es, m);
    RunInv(tr, es, m);
    if t in tr[m].threads {
      StepStamp(tr[m], es[m], t);
      if !ReadsClock(tr[m], es[m], t, StampOf(tr[i].threads[t].pc).value) {
        m := StampRead(tr, es, m, t);
      }
    } else {
      NewHasNoStamp(tr[m], es[m], t);
    }
  }

  /** The created user, and the row, bear the time that the clock gave in the first step of that very call. */
  lemma CreatedOnTime(tr: seq<State>, es: seq<Event>, i: nat, t: nat) returns (m: nat, row: nat)
    requires Run(tr, es) && i < |tr| && HasAnswer(tr[i], t) && AnswerOf(tr[i], t).Created?
    ensures m < i && m < |es| && ReadsClock(tr[m], es[m], t, AnswerOf(tr[i], t).user.createdAt)
    ensures row < |tr[i].ledger.rows| && row < |tr[i].ledger.writers| && tr[i].ledger.writers[row] == Some(t)
    ensures tr[i].ledger.rows[row].createdAt == AnswerOf(tr[i], t).user.createdAt
  {
    hide Run;
    m := StampRead(tr, es, i, t);
    row := CreatedIsOwnRow(tr, es, i, t);
  }
}
