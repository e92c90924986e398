/**
 The two layers agree: uninterrupted and without failures, the steps of System
 do to the cache exactly what the methods of UserRepository do, once keys are
 written out as text.
 */
module Layers {
  import opened Prelude
  import opened Users
  import opened Json
  import opened Redis
  import opened Keys
  import opened PoolProtocol
  import opened System
  import opened SystemInv
  import CacheState
  import Decimal

  lemma VisibleOnWire(cells: map<Key, Entry>, now: nat, k: Key)
    requires Cut(k) == k
    ensures Live(OnWire(cells), now, Sent(k)) <==> Live(cells, now, k)
    ensures Visible(OnWire(cells), now, Sent(k)) == Visible(cells, now, k)
  {
    SentIsCut(k);
    if Wire(k) in OnWire(cells) {
      var k' :| k' in cells && Wire(k) == Wire(k');
      WireInjective(k, k');
    }
  }

  /** SET under a key is SET under its text. */
  lemma PutOnWire(cells: map<Key, Entry>, now: nat, k: Key, v: Value, ttl: int)
    ensures OnWire(Put(cells, now, Cut(k), v, ttl)) == Put(OnWire(cells), now, Sent(k), v, ttl)
  {
    hide Wire, Sent;
    SentIsCut(k);
    OnWirePut(cells, Cut(k), Put(cells, now, Cut(k), v, ttl)[Cut(k)]);
  }

  // ---------- Reads ----------

  /** GetUser and GetStats see the same entry, and GetUser and ListUsers decode the same payload. */
  lemma ProbeOnWire(s: State, call: Call)
    ensures Visible(OnWire(s.cells), s.now, Sent(BuiltKey(call))) == Visible(s.cells, s.now, ProbeKey(call))
    ensures call.Fetch? ==>
              CacheState.CachedUser(OnWire(s.cells), s.now, call.id)
              == match Visible(s.cells, s.now, ProbeKey(call))
                 case None => Thrown
                 case Some(v) => match ParseJson(v) case Ok(j) => DecodeUser(j) case Thrown => Thrown
    ensures call.Browse? ==>
              var key := PageKey(call);
              CacheState.CachedListing(OnWire(s.cells), s.now, key.limit, key.offset)
              == match Visible(s.cells, s.now, key)
                 case None => Thrown
                 case Some(v) => match ParseJson(v) case Ok(j) => DecodeListing(j) case Thrown => Thrown
  {
    hide Wire, CString, OnWire;
    SentIsCut(BuiltKey(call));
    BuiltAndCut(call);
    VisibleOnWire(s.cells, s.now, ProbeKey(call));
  }

  lemma BuiltAndCut(call: Call)
    ensures ProbeKey(call) == Cut(BuiltKey(call)) && Cut(ProbeKey(call)) == ProbeKey(call)
    ensures Sent(ProbeKey(call)) == Sent(BuiltKey(call))
  {
    if call.Fetch? { CStringCut(call.id); }
    CollideIff(ProbeKey(call), BuiltKey(call));
  }

  // ---------- Backfills and the counter ----------

  lemma CountOnWire(s: State, t: nat, k: Luck)
    requires CanWork(s, t) && s.threads[t].pc.Counting? && k.applied
    ensures OnWire(Work(s, t, k).cells) == Increment(OnWire(s.cells), s.now, Sent(RequestsKey))
  {
    hide Local, OnWire, Sent, Increment;
    IncrementOnWire(s.cells, s.now, RequestsKey);
  }

  lemma IncrementOnWire(cells: map<Key, Entry>, now: nat, k: Key)
    requires Cut(k) == k
    ensures OnWire(Increment(cells, now, k)) == Increment(OnWire(cells), now, Sent(k))
  {
    hide Wire, Sent;
    SentIsCut(k);
    VisibleOnWire(cells, now, k);
    OnWirePut(cells, k, Increment(cells, now, k)[k]);
  }

  lemma FillUserOnWire(s: State, t: nat, k: Luck)
    requires CanWork(s, t) && s.threads[t].pc.FillingUser? && k.applied
    ensures OnWire(Work(s, t, k).cells)
            == CacheState.UserFilled(OnWire(s.cells), s.now, s.threads[t].call.id, Some(s.threads[t].pc.user))
  {
    hide Local, OnWire, Sent;
    var th := s.threads[t];
    PutOnWire(s.cells, s.now, UserKey(th.call.id), Doc(UserToJson(th.pc.user)), CacheState.USER_CACHE_TTL);
  }

  lemma FillListOnWire(s: State, t: nat, k: Luck)
    requires CanWork(s, t) && s.threads[t].pc.FillingList? && k.applied
    ensures var key := PageKey(s.threads[t].call);
            OnWire(Work(s, t, k).cells)
            == CacheState.ListFilled(OnWire(s.cells), s.now, key.limit, key.offset, s.threads[t].pc.listing)
  {
    hide Local, OnWire, Sent;
    var th := s.threads[t];
    PutOnWire(s.cells, s.now, PageKey(th.call), Doc(EncodeListing(th.pc.listing)), CacheState.LIST_CACHE_TTL);
  }

  lemma FillTotalOnWire(s: State, t: nat, k: Luck)
    requires CanWork(s, t) && s.threads[t].pc.FillingTotal? && k.applied
    ensures OnWire(Work(s, t, k).cells) == CacheState.TotalFilled(OnWire(s.cells), s.now, s.threads[t].pc.total)
  {
    hide Local, OnWire, Sent;
    PutOnWire(s.cells, s.now, TotalKey, Digits(Decimal.Text(s.threads[t].pc.total)), CacheState.STATS_CACHE_TTL);
  }

  function WireSet(keys: set<Key>): set<string> {
    set k | k in keys :: Wire(k)
  }

  /** The index under its text, as the class keeps it. */
  function IndexOnWire(index: set<Key>): CacheState.Sets {
    map[Sent(IndexKey) := WireSet(index)]
  }

  /** The SADD step is the class's SADD. */
  lemma IndexListOnWire(s: State, t: nat, k: Luck)
    requires CanWork(s, t) && s.threads[t].pc.Indexing? && k.applied
    ensures var key := PageKey(s.threads[t].call);
            IndexOnWire(Work(s, t, k).index) == CacheState.AddIndexed(IndexOnWire(s.index), Sent(key))
  {
    hide Local, Sent, Wire;
    var key := PageKey(s.threads[t].call);
    SentIsCut(key);
    assert Work(s, t, k).index == s.index + {key};
    assert WireSet(s.index + {key}) == WireSet(s.index) + {Wire(key)};
  }

  // ---------- The upkeep of CreateUser ----------

  const Applied: Luck := Luck(true, true, 0, 0, [])

  function KeySet(keys: seq<Key>): set<Key> {
    set k | k in keys
  }

  /** Thread t deletes its remaining keys and the index, uninterrupted. */
  function Deleted(s: State, t: nat): (s': State)
    requires CanWork(s, t) && s.threads[t].pc.Deleting?
    ensures CanWork(s', t) && s'.threads[t].pc.DroppingTotal? && s'.now == s.now
    ensures s'.threads[t].pc.user == s.threads[t].pc.user
    ensures s'.index == {} && s'.cells == s.cells - KeySet(s.threads[t].pc.keys)
    decreases |s.threads[t].pc.keys|
  {
    var s1 := Work(s, t, Applied);
    if s.threads[t].pc.keys == [] then s1 else Deleted(s1, t)
  }

  /** The cache side of CreateUser from the SET of the user on, uninterrupted. */
  function Upkept(s: State, t: nat, members: seq<Key>): State
    requires CanWork(s, t) && s.threads[t].pc.Priming?
  {
    var s1 := Work(s, t, Applied);
    var s2 := Work(s1, t, Applied.(members := members));
    Work(Deleted(s2, t), t, Applied)
  }

  lemma OnWireRemove(m: map<Key, Entry>, keys: set<Key>)
    ensures OnWire(m - keys) == OnWire(m) - WireSet(keys)
  {
    var u, w := OnWire(m - keys), OnWire(m) - WireSet(keys);
    forall x | x in u ensures x in w && u[x] == w[x] {
      var k :| k in m - keys && x == Wire(k);
      if x in WireSet(keys) {
        var k' :| k' in keys && Wire(k') == x;
        WireInjective(k, k');
      }
    }
    forall x | x in w ensures x in u {
      var k :| k in m && x == Wire(k);
      assert k in keys ==> Wire(k) in WireSet(keys);
      assert k in m - keys;
    }
  }

  lemma SameKeys(members: seq<Key>, index: set<Key>)
    requires multiset(members) == multiset(index)
    ensures KeySet(members) == index
  {
    forall k ensures k in KeySet(members) <==> k in index {
      assert k in multiset(members) <==> k in multiset(index);
    }
  }

  /** What the upkeep leaves in the cache. */
  lemma UpkeptCells(s: State, t: nat, members: seq<Key>)
    requires CanWork(s, t) && s.threads[t].pc.Priming? && multiset(members) == multiset(s.index)
    ensures var u := s.threads[t].pc.user;
            Upkept(s, t, members).cells
            == Put(s.cells, s.now, Cut(UserKey(u.id)), Doc(UserToJson(u)), CacheState.USER_CACHE_TTL)
               - s.index - {TotalKey}
  {
    hide Local, KeySet, UserToJson, PcAdvances, SessionFits, CString, Fits;
    SameKeys(members, s.index);
  }

  /**
   The steps of CreateUser after its INSERT, uninterrupted and with every
   command applied, leave the cache that MaintainCache leaves, and no index.
   */
  lemma UpkeepOnWire(s: State, t: nat, members: seq<Key>)
    requires CanWork(s, t) && s.threads[t].pc.Priming? && multiset(members) == multiset(s.index)
    ensures OnWire(Upkept(s, t, members).cells)
            == CacheState.Maintained(OnWire(s.cells), IndexOnWire(s.index), s.now, s.threads[t].pc.user)
    ensures Upkept(s, t, members).index == {}
  {
    hide Upkept, OnWire, Wire, Sent, UserToJson;
    var u := s.threads[t].pc.user;
    var primed := Put(s.cells, s.now, Cut(UserKey(u.id)), Doc(UserToJson(u)), CacheState.USER_CACHE_TTL);
    UpkeptCells(s, t, members);
    PutOnWire(s.cells, s.now, UserKey(u.id), Doc(UserToJson(u)), CacheState.USER_CACHE_TTL);
    OnWireRemove(primed, s.index);
    OnWireDelete(primed - s.index, TotalKey);
    SentIsCut(TotalKey);
    UpkeptIndex(s, t, members);
  }

  lemma UpkeptIndex(s: State, t: nat, members: seq<Key>)
    requires CanWork(s, t) && s.threads[t].pc.Priming?
    ensures Upkept(s, t, members).index == {}
  {
    hide Local;
  }

  // ---------- What a process leaves behind ----------

  lemma UsersOnWire(s: State, id: string)
    requires LedgerOk(s.ledger, s.now) && CellsOk(WorldOf(s), s.cells, s.origins)
    requires Sent(UserKey(id)) in OnWire(s.cells)
    ensures CacheState.UserCached(OnWire(s.cells)[Sent(UserKey(id))].value, s.ledger.rows, s.resolve, id)
  {
    hide OnWire, Wire, Sent, UserToJson, Lookup;
    var k := Cut(UserKey(id));
    SentIsCut(UserKey(id));
    OnWireCommutes(s.cells, UserKey(id), Entry(Digits(""), None));
    var o := OriginOf(s, k);
    assert CellOk(WorldOf(s), k, s.cells[k], o);
    OnWireValue(s.cells, k);
    CStringCut(id);
    var u := UserOf(s.ledger.rows[o.row]);
    RowFound(s.ledger.rows, o.row);
    assert CString(o.asked) == CString(id) && Lookup(s.ledger.rows, s.resolve(o.asked)) == Some(u);
    assert CacheState.UserBehind(u, s.ledger.rows, s.resolve, id);
  }

  lemma RowFound(rows: seq<Row>, i: nat)
    requires Ordered(rows) && i < |rows|
    ensures Lookup(rows, rows[i].id) == Some(UserOf(rows[i]))
  {
    FindUnique(rows, i);
  }

  lemma OnWireValue(cells: map<Key, Entry>, k: Key)
    requires k in cells
    ensures Wire(k) in OnWire(cells) && OnWire(cells)[Wire(k)] == cells[k]
  {
  }

  lemma CounterOnWire(s: State)
    requires CellsOk(WorldOf(s), s.cells, s.origins)
    ensures var cells := OnWire(s.cells); Sent(RequestsKey) in cells ==> CounterEntry(cells[Sent(RequestsKey)])
    ensures Sent(IndexKey) !in OnWire(s.cells)
  {
    hide OnWire, Wire, Sent, CounterEntry, CellsOk;
    SentIsCut(RequestsKey);
    OnWireCommutes(s.cells, RequestsKey, Entry(Digits(""), None));
    OnWireCommutes(s.cells, IndexKey, Entry(Digits(""), None));
    FixedCells(s);
    if RequestsKey in s.cells {
      OnWireValue(s.cells, RequestsKey);
    }
  }

  lemma FixedCells(s: State)
    requires CellsOk(WorldOf(s), s.cells, s.origins)
    ensures RequestsKey in s.cells ==> CounterEntry(s.cells[RequestsKey])
    ensures IndexKey !in s.cells
  {
    forall k | k in s.cells ensures CellOk(WorldOf(s), k, s.cells[k], OriginOf(s, k)) {
    }
  }

  lemma MemberOnWire(index: set<Key>, m: string)
    requires m in WireSet(index) && forall k :: k in index ==> k.ListKey?
    ensures NulFree(m) && m != Sent(RequestsKey) && m != Sent(IndexKey)
  {
    hide Wire, Sent, CString;
    var k :| k in index && m == Wire(k);
    SentIsCut(k);
    CacheState.MemberIsWhole(k);
    CacheState.Apart(k, RequestsKey);
    CacheState.Apart(k, IndexKey);
  }

  /** The counter and the index are in their places. */
  lemma KeysOnWire(s: State)
    requires CellsOk(WorldOf(s), s.cells, s.origins) && forall k :: k in s.index ==> k.ListKey?
    ensures CacheState.KeysInPlace(OnWire(s.cells), IndexOnWire(s.index))
  {
    hide OnWire, Wire, Sent, CString, CellsOk, CounterEntry, WireSet, NulFree;
    CounterOnWire(s);
    forall m | m in WireSet(s.index) ensures NulFree(m) && m != Sent(RequestsKey) && m != Sent(IndexKey) {
      MemberOnWire(s.index, m);
    }
  }

  /**
   In every state of the concurrent model the table and Redis are as the class
   layer requires of what it starts on.
   */
  lemma StoreOnWire(s: State)
    requires Inv(s)
    ensures CacheState.StoreOk(OnWire(s.cells), IndexOnWire(s.index), s.ledger.rows, s.resolve)
  {
    hide OnWire, Wire, Sent, CellsOk, CacheState.UserCached, CacheState.KeysInPlace, PoolInv, SessionsOk, ThreadOk;
    KeysOnWire(s);
    forall id: string | Sent(UserKey(id)) in OnWire(s.cells)
      ensures CacheState.UserCached(OnWire(s.cells)[Sent(UserKey(id))].value, s.ledger.rows, s.resolve, id)
    {
      UsersOnWire(s, id);
    }
  }
}
