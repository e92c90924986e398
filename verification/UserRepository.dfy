/**
 What the cache of src/store/user_repository.cpp may hold next to a given
 table, and what each command of the repository does to that.
 */
module CacheState {
  import opened Prelude
  import opened Users
  import opened Json
  import opened Redis
  import opened Keys
  import Decimal

  const USER_CACHE_TTL: int := 60
  const LIST_CACHE_TTL: int := 10
  const STATS_CACHE_TTL: int := 30

  type Cells = map<string, Entry>
  type Sets = map<string, set<string>>

  // ---------- What the cache may hold ----------

  /** `WHERE id='s'` on the decimal text of an id selects that id; 0 stands for none. */
  ghost predicate Resolves(resolve: string -> nat) {
    && (forall n: nat :: n <= Decimal.INT64_MAX ==> resolve(Decimal.Text(n)) == n)
    && (forall s: string :: resolve(s) <= Decimal.INT64_MAX)
  }

  /** The server takes no notice of what follows a NUL in an id string, as a comparison of numbers does. */
  ghost predicate StopsAtNul(resolve: string -> nat) {
    forall s: string :: resolve(s) == resolve(CString(s))
  }

  /** `u` is the committed user for some id string that has the cache key of `id`. */
  ghost predicate UserBehind(u: User, rows: seq<Row>, resolve: string -> nat, id: string) {
    exists asked: string :: CString(asked) == CString(id) && Lookup(rows, resolve(asked)) == Some(u)
  }

  lemma BehindSelf(u: User, rows: seq<Row>, resolve: string -> nat, id: string)
    requires Lookup(rows, resolve(id)) == Some(u)
    ensures UserBehind(u, rows, resolve, id)
  {
  }

  /** Under the proviso, there is only one such user: the one `id` selects. */
  lemma OneBehind(u: User, rows: seq<Row>, resolve: string -> nat, id: string)
    requires UserBehind(u, rows, resolve, id) && StopsAtNul(resolve)
    ensures Lookup(rows, resolve(id)) == Some(u)
  {
    hide Lookup;
  }

  /** The entry is a committed user for its key. */
  ghost predicate UserCached(v: Value, rows: seq<Row>, resolve: string -> nat, id: string) {
    exists u: User :: v == Doc(UserToJson(u)) && UserBehind(u, rows, resolve, id)
  }

  /** Every user entry, live or not, is a committed user for its key. */
  ghost predicate UsersCached(cells: Cells, rows: seq<Row>, resolve: string -> nat) {
    forall id: string :: Sent(UserKey(id)) in cells ==> UserCached(cells[Sent(UserKey(id))].value, rows, resolve, id)
  }

  /** What ListUsers answers from the table alone. */
  function FreshListing(rows: seq<Row>, limit: nat, offset: nat): Listing
    requires Ordered(rows)
  {
    CountFits(rows);
    Listing(UsersOf(Page(rows, limit, offset)), |rows|)
  }

  /** Index coverage: every live list key is a member of the index (which may also name expired keys). */
  ghost predicate ListsIndexed(cells: Cells, index: set<string>, now: nat) {
    forall limit, offset :: Live(cells, now, Sent(ListKey(limit, offset))) ==> Sent(ListKey(limit, offset)) in index
  }

  /** Every live list entry is indexed and is the answer of the present table. */
  ghost predicate ListsCached(cells: Cells, index: set<string>, now: nat, rows: seq<Row>)
    requires Ordered(rows)
  {
    && ListsIndexed(cells, index, now)
    && forall limit, offset :: Live(cells, now, Sent(ListKey(limit, offset))) ==>
      && limit >= 0 && offset >= 0
      && cells[Sent(ListKey(limit, offset))].value == Doc(EncodeListing(FreshListing(rows, limit, offset)))
  }

  ghost predicate TotalCached(cells: Cells, now: nat, rows: seq<Row>) {
    Live(cells, now, Sent(TotalKey)) ==> cells[Sent(TotalKey)].value == Digits(Decimal.Text(|rows|))
  }

  /** The counter is one, has no TTL and is not indexed, and the name of the index is used for nothing else. */
  ghost predicate KeysInPlace(cells: Cells, sets: Sets) {
    && (Sent(RequestsKey) in cells ==> CounterEntry(cells[Sent(RequestsKey)]))
    && (forall m :: m in Members(sets, Sent(IndexKey)) ==> NulFree(m))
    && (forall k :: k in sets ==> k == Sent(IndexKey))
    && Sent(IndexKey) !in cells
    && Sent(RequestsKey) !in Members(sets, Sent(IndexKey))
    && Sent(IndexKey) !in Members(sets, Sent(IndexKey))
  }

  /** What the client library makes of a key that the repository has built. */
  lemma SentText(k: Key)
    ensures CString(Wire(k)) == Sent(k)
    ensures k.ListKey? ==> CString(ListCacheKey(k.limit, k.offset)) == Sent(k)
  {
    hide CString, Sent, ListCacheKey;
    SentIsCut(k);
  }

  lemma Apart(k: Key, k': Key)
    requires Cut(k) != Cut(k')
    ensures Sent(k) != Sent(k')
  {
    CollideIff(k, k');
  }

  /** A user key is none of the fixed keys. */
  lemma OtherKeys(k: Key)
    requires k.UserKey? || k.ListKey?
    ensures Sent(k) != Sent(RequestsKey) && Sent(k) != Sent(IndexKey) && Sent(k) != Sent(TotalKey)
  {
    hide Sent;
    Apart(k, RequestsKey);
    Apart(k, IndexKey);
    Apart(k, TotalKey);
  }

  /** Right whatever commands were lost: user entries, and the two bookkeeping keys. */
  ghost predicate StoreOk(cells: Cells, sets: Sets, rows: seq<Row>, resolve: string -> nat) {
    NulFreeRows(rows) && Resolves(resolve) && UsersCached(cells, rows, resolve) && KeysInPlace(cells, sets)
  }

  ghost predicate Indexed(cells: Cells, sets: Sets, now: nat) {
    ListsIndexed(cells, Members(sets, Sent(IndexKey)), now)
  }

  /** Lists and total agree with the table; this is what a lost command can break. */
  ghost predicate Agrees(cells: Cells, sets: Sets, now: nat, rows: seq<Row>)
    requires Ordered(rows)
  {
    ListsCached(cells, Members(sets, Sent(IndexKey)), now, rows) && TotalCached(cells, now, rows)
  }

  function RequestsIn(cells: Cells, now: nat): int {
    Counter(cells, now, Sent(RequestsKey))
  }

  lemma NoListKey(k: Key)
    requires !k.ListKey?
    ensures forall l, o :: Sent(ListKey(l, o)) != Sent(k)
  {
    forall l, o ensures Sent(ListKey(l, o)) != Sent(k) { Apart(ListKey(l, o), k); }
  }

  lemma NoUserKey(k: Key)
    requires !k.UserKey?
    ensures forall id: string :: Sent(UserKey(id)) != Sent(k)
  {
    forall id: string ensures Sent(UserKey(id)) != Sent(k) { Apart(UserKey(id), k); }
  }

  /** An INSERT, before any cache command, keeps user entries right and makes the new row findable. */
  lemma RowAppended(rows: seq<Row>, row: Row, cells: Cells, sets: Sets, resolve: string -> nat)
    requires Ordered(rows) && StoreOk(cells, sets, rows, resolve)
    requires LastId(rows) < row.id <= Decimal.INT64_MAX
    requires NulFree(row.name) && NulFree(row.email)
    ensures Ordered(rows + [row]) && StoreOk(cells, sets, rows + [row], resolve)
    ensures Lookup(rows + [row], resolve(Decimal.Text(row.id))) == Some(UserOf(row))
  {
    hide Sent, UserCached;
    var later := rows + [row];
    FindUnique(later, |rows|);
    forall id: string | Sent(UserKey(id)) in cells
      ensures UserCached(cells[Sent(UserKey(id))].value, later, resolve, id)
    {
      UserStays(cells[Sent(UserKey(id))].value, rows, later, resolve, id);
    }
  }

  lemma UserStays(v: Value, rows: seq<Row>, later: seq<Row>, resolve: string -> nat, id: string)
    requires UserCached(v, rows, resolve, id) && Ordered(later) && rows <= later
    ensures UserCached(v, later, resolve, id)
  {
    var u :| v == Doc(UserToJson(u)) && UserBehind(u, rows, resolve, id);
    var asked: string :| CString(asked) == CString(id) && Lookup(rows, resolve(asked)) == Some(u);
    FindStable(rows, later, resolve(asked));
    assert Lookup(later, resolve(asked)) == Some(u);
    assert UserBehind(u, later, resolve, id);
  }

  function UserEntry(rows: seq<Row>, resolve: string -> nat, id: string): Value
    requires Lookup(rows, resolve(id)).Some?
  {
    Doc(UserToJson(Lookup(rows, resolve(id)).value))
  }

  lemma UsersAfterUserPut(cells: Cells, now: nat, rows: seq<Row>, resolve: string -> nat, id: string)
    requires UsersCached(cells, rows, resolve) && Lookup(rows, resolve(id)).Some?
    ensures UsersCached(Put(cells, now, Sent(UserKey(id)), UserEntry(rows, resolve, id), USER_CACHE_TTL), rows, resolve)
  {
    var cells' := Put(cells, now, Sent(UserKey(id)), UserEntry(rows, resolve, id), USER_CACHE_TTL);
    var u := Lookup(rows, resolve(id)).value;
    hide Lookup, UserToJson;
    forall id': string | Sent(UserKey(id')) in cells'
      ensures UserCached(cells'[Sent(UserKey(id'))].value, rows, resolve, id')
    {
      CollideIff(UserKey(id), UserKey(id'));
      if CString(id') == CString(id) {
        assert UserBehind(u, rows, resolve, id');
      }
    }
  }

  /** The cache after the backfill of GetUser: nothing is cached for a user who is not there. */
  function UserFilled(cells: Cells, now: nat, id: string, user: Option<User>): Cells {
    match user
    case Some(u) => Put(cells, now, Sent(UserKey(id)), Doc(UserToJson(u)), USER_CACHE_TTL)
    case None => cells
  }

  /** The cache after the backfill of ListUsers. */
  function ListFilled(cells: Cells, now: nat, limit: int, offset: int, l: Listing): Cells {
    Put(cells, now, Sent(ListKey(limit, offset)), Doc(EncodeListing(l)), LIST_CACHE_TTL)
  }

  /** The cache after the backfill of GetStats. */
  function TotalFilled(cells: Cells, now: nat, total: int): Cells {
    Put(cells, now, Sent(TotalKey), Digits(Decimal.Text(total)), STATS_CACHE_TTL)
  }

  /** What the backfills store can be seen for 60, 10 and 30 seconds, and not a millisecond longer. */
  lemma FilledFor(cells: Cells, now: nat, t: nat, id: string, u: User, limit: int, offset: int, l: Listing, total: int)
    ensures Visible(UserFilled(cells, now, id, Some(u)), t, Sent(UserKey(id)))
            == if t <= now + 60_000 then Some(Doc(UserToJson(u))) else None
    ensures Visible(ListFilled(cells, now, limit, offset, l), t, Sent(ListKey(limit, offset)))
            == if t <= now + 10_000 then Some(Doc(EncodeListing(l))) else None
    ensures Visible(TotalFilled(cells, now, total), t, Sent(TotalKey))
            == if t <= now + 30_000 then Some(Digits(Decimal.Text(total))) else None
  {
    hide Sent, UserToJson, EncodeListing, Decimal.Text;
    PutLives(cells, now, Sent(UserKey(id)), Doc(UserToJson(u)), USER_CACHE_TTL, t);
    PutLives(cells, now, Sent(ListKey(limit, offset)), Doc(EncodeListing(l)), LIST_CACHE_TTL, t);
    PutLives(cells, now, Sent(TotalKey), Digits(Decimal.Text(total)), STATS_CACHE_TTL, t);
  }

  /** A SET of the matching user under any id's key disturbs nothing. */
  lemma UserPut(cells: Cells, sets: Sets, now: nat, rows: seq<Row>, resolve: string -> nat, id: string)
    requires Ordered(rows) && StoreOk(cells, sets, rows, resolve) && Lookup(rows, resolve(id)).Some?
    ensures var k := Sent(UserKey(id));
            var cells' := Put(cells, now, k, UserEntry(rows, resolve, id), USER_CACHE_TTL);
            && StoreOk(cells', sets - {k}, rows, resolve)
            && RequestsIn(cells', now) == RequestsIn(cells, now)
            && (Indexed(cells, sets, now) ==> Indexed(cells', sets - {k}, now))
            && (Agrees(cells, sets, now, rows) ==> Agrees(cells', sets - {k}, now, rows))
  {
    hide Sent, UsersCached, UserEntry, FreshListing, EncodeListing;
    UsersAfterUserPut(cells, now, rows, resolve, id);
    OtherKeys(UserKey(id));
    NoListKey(UserKey(id));
  }

  lemma TotalPut(cells: Cells, sets: Sets, now: nat, rows: seq<Row>, resolve: string -> nat)
    requires Ordered(rows) && StoreOk(cells, sets, rows, resolve)
    ensures var k := Sent(TotalKey);
            var cells' := Put(cells, now, k, Digits(Decimal.Text(|rows|)), STATS_CACHE_TTL);
            && StoreOk(cells', sets - {k}, rows, resolve)
            && RequestsIn(cells', now) == RequestsIn(cells, now)
            && (Agrees(cells, sets, now, rows) ==> Agrees(cells', sets - {k}, now, rows))
  {
    hide Sent, UserCached, FreshListing, EncodeListing, Decimal.Text;
    Apart(TotalKey, RequestsKey);
    Apart(TotalKey, IndexKey);
    NoListKey(TotalKey);
    NoUserKey(TotalKey);
  }

  lemma TotalDeleted(cells: Cells, sets: Sets, now: nat, rows: seq<Row>, resolve: string -> nat)
    requires Ordered(rows) && StoreOk(cells, sets, rows, resolve)
    ensures var k := Sent(TotalKey);
            && StoreOk(cells - {k}, sets - {k}, rows, resolve)
            && RequestsIn(cells - {k}, now) == RequestsIn(cells, now)
            && (NoLists(cells, now) ==> Agrees(cells - {k}, sets - {k}, now, rows))
  {
    hide Sent, UserCached, FreshListing, EncodeListing, Decimal.Text;
    Apart(TotalKey, RequestsKey);
    Apart(TotalKey, IndexKey);
  }

  lemma NeverASet(cells: Cells, sets: Sets, rows: seq<Row>, resolve: string -> nat)
    requires StoreOk(cells, sets, rows, resolve)
    ensures Sent(RequestsKey) !in sets
  {
    Apart(RequestsKey, IndexKey);
  }

  lemma CounterUnindexed(cells: Cells, sets: Sets, rows: seq<Row>, resolve: string -> nat)
    requires StoreOk(cells, sets, rows, resolve)
    ensures Sent(RequestsKey) !in Members(sets, Sent(IndexKey)) && Sent(RequestsKey) != Sent(IndexKey)
    ensures Sent(IndexKey) !in Members(sets, Sent(IndexKey)) && forall k :: k in sets ==> k == Sent(IndexKey)
    ensures Sent(IndexKey) !in cells
  {
    Apart(RequestsKey, IndexKey);
  }

  lemma NulFreeStore(cells: Cells, sets: Sets, rows: seq<Row>, resolve: string -> nat)
    requires StoreOk(cells, sets, rows, resolve)
    ensures NulFreeRows(rows)
  {
  }

  lemma CoversIndex(cells: Cells, sets: Sets, now: nat, rows: seq<Row>)
    requires Ordered(rows)
    ensures Agrees(cells, sets, now, rows) ==> Indexed(cells, sets, now)
  {
  }

  /** The cache after a CreateUser none of whose commands was lost. */
  function Maintained(cells: Cells, sets: Sets, now: nat, u: User): Cells {
    Put(cells, now, Sent(UserKey(u.id)), Doc(UserToJson(u)), USER_CACHE_TTL)
      - Members(sets, Sent(IndexKey)) - {Sent(TotalKey)}
  }

  /** No set has a key but the index. */
  lemma OnlyIndexIsSet(cells: Cells, sets: Sets, rows: seq<Row>, resolve: string -> nat, k: Key)
    requires StoreOk(cells, sets, rows, resolve) && (k.UserKey? || k.ListKey?)
    ensures Sent(k) !in sets
    ensures Members(sets - {Sent(k)}, Sent(IndexKey)) == Members(sets, Sent(IndexKey))
  {
    hide Sent, UsersCached, Resolves, NulFreeRows;
    OtherKeys(k);
  }

  lemma TotalIsNoSet(cells: Cells, sets: Sets, rows: seq<Row>, resolve: string -> nat)
    requires StoreOk(cells, sets, rows, resolve)
    ensures Sent(TotalKey) !in sets
  {
    Apart(TotalKey, IndexKey);
  }

  /** Those of the keys whose DEL reaches the server. */
  function Reached(keys: seq<string>, faults: seq<Fault>): set<string> {
    set i | 0 <= i < |keys| && !FaultAt(faults, i).Lost? :: keys[i]
  }

  lemma ReachedAreKeys(keys: seq<string>, faults: seq<Fault>)
    ensures forall m :: m in Reached(keys, faults) ==> m in keys
    ensures Reached([], faults) == {}
  {
  }

  lemma NoFaults()
    ensures Later([], 1) == [] && FaultAt([], 0) == Answered
  {
  }

  lemma NoFaultsLater(n: nat, m: nat)
    ensures Later([], n) == [] && FaultAt([], m) == Answered
  {
  }

  lemma AllReached(keys: seq<string>, elements: set<string>)
    requires Lists(keys, elements)
    ensures Reached(keys, []) == elements
  {
    forall m | m in elements ensures m in Reached(keys, []) {
      var i :| 0 <= i < |keys| && keys[i] == m;
    }
  }

  lemma ReachedNext(keys: seq<string>, faults: seq<Fault>, i: nat)
    requires i < |keys|
    ensures Reached(keys[..i + 1], faults)
            == Reached(keys[..i], faults) + (if FaultAt(faults, i).Lost? then {} else {keys[i]})
  {
    var longer, shorter := keys[..i + 1], keys[..i];
    forall m | m in Reached(shorter, faults) ensures m in Reached(longer, faults) {
      var j :| 0 <= j < |shorter| && !FaultAt(faults, j).Lost? && shorter[j] == m;
      assert longer[j] == m;
    }
    if !FaultAt(faults, i).Lost? {
      assert longer[i] == keys[i];
    }
  }

  /**
   The cache after the upkeep of CreateUser, whatever becomes of its commands:
   SET, SMEMBERS, a DEL for each key listed, DEL of the index, DEL of the total.
   */
  function UpkeptUnder(cells: Cells, now: nat, u: User, keys: seq<string>, faults: seq<Fault>): Cells {
    (if FaultAt(faults, 0).Lost? then cells
     else Put(cells, now, Sent(UserKey(u.id)), Doc(UserToJson(u)), USER_CACHE_TTL))
      - Reached(keys, Later(faults, 2))
      - (if FaultAt(faults, 3 + |keys|).Lost? then {} else {Sent(TotalKey)})
  }

  /** The same, in whatever order the server lists the index. */
  ghost predicate UpkeptSomehow(cells: Cells, sets: Sets, cells': Cells, now: nat, u: User, faults: seq<Fault>) {
    exists keys: seq<string> ::
      && ListedUnder(keys, sets, faults)
      && cells' == UpkeptUnder(cells, now, u, keys, faults)
  }

  ghost predicate ListedUnder(keys: seq<string>, sets: Sets, faults: seq<Fault>) {
    if FaultAt(faults, 1).Answered? then Lists(keys, Members(sets, Sent(IndexKey))) else keys == []
  }

  lemma InSomeOrder(cells: Cells, sets: Sets, now: nat, u: User, keys: seq<string>, faults: seq<Fault>)
    requires ListedUnder(keys, sets, faults)
    ensures UpkeptSomehow(cells, sets, UpkeptUnder(cells, now, u, keys, faults), now, u, faults)
  {
  }

  /** After InvalidateListCache no list key is live. */
  ghost predicate NoLists(cells: Cells, now: nat) {
    forall limit, offset :: !Live(cells, now, Sent(ListKey(limit, offset)))
  }

  lemma CountedStore(cells: Cells, sets: Sets, now: nat, rows: seq<Row>, resolve: string -> nat)
    requires StoreOk(cells, sets, rows, resolve) && Countable(cells, now, Sent(RequestsKey))
    ensures StoreOk(Increment(cells, now, Sent(RequestsKey)), sets, rows, resolve)
  {
    hide Sent, UserCached, Counter, Resolves, NulFreeRows, Countable, Decimal.Text, Decimal.Strtoll;
    IncrementCounts(cells, now, Sent(RequestsKey));
    Apart(RequestsKey, IndexKey);
    NoUserKey(RequestsKey);
  }

  lemma CountedAgrees(cells: Cells, sets: Sets, now: nat, rows: seq<Row>)
    requires Ordered(rows) && Agrees(cells, sets, now, rows)
    ensures Agrees(Increment(cells, now, Sent(RequestsKey)), sets, now, rows)
  {
    hide Sent, Counter, EncodeListing, FreshListing, Decimal.Text;
    Apart(RequestsKey, TotalKey);
    NoListKey(RequestsKey);
  }

  lemma Counted(cells: Cells, sets: Sets, now: nat, rows: seq<Row>, resolve: string -> nat)
    requires Ordered(rows) && StoreOk(cells, sets, rows, resolve)
    ensures Countable(cells, now, Sent(RequestsKey)) <==> RequestsIn(cells, now) < Decimal.INT64_MAX
    ensures var cells' := Increment(cells, now, Sent(RequestsKey));
            RequestsIn(cells, now) < Decimal.INT64_MAX ==>
              && StoreOk(cells', sets, rows, resolve)
              && RequestsIn(cells', now) == RequestsIn(cells, now) + 1
              && (Agrees(cells, sets, now, rows) ==> Agrees(cells', sets, now, rows))
  {
    assert Countable(cells, now, Sent(RequestsKey)) <==> RequestsIn(cells, now) < Decimal.INT64_MAX;
    if RequestsIn(cells, now) < Decimal.INT64_MAX {
      CountedStore(cells, sets, now, rows, resolve);
      if Agrees(cells, sets, now, rows) {
        CountedAgrees(cells, sets, now, rows);
      }
      IncrementCounts(cells, now, Sent(RequestsKey));
    }
  }

  /** Deleting anything but the counter keeps the store right. */
  lemma Shrunk(cells: Cells, sets: Sets, cells': Cells, sets': Sets, now: nat, rows: seq<Row>, resolve: string -> nat)
    requires StoreOk(cells, sets, rows, resolve)
    requires forall k :: k in cells' ==> k in cells && cells'[k] == cells[k]
    requires Sent(RequestsKey) in cells ==> Sent(RequestsKey) in cells'
    requires forall k :: k in sets' ==> k in sets && sets'[k] == sets[k]
    ensures StoreOk(cells', sets', rows, resolve)
    ensures RequestsIn(cells', now) == RequestsIn(cells, now)
  {
  }

  function ListEntry(rows: seq<Row>, limit: nat, offset: nat): Value
    requires Ordered(rows)
  {
    Doc(EncodeListing(FreshListing(rows, limit, offset)))
  }

  lemma ListsAfterListPut(cells: Cells, index: set<string>, now: nat, rows: seq<Row>, limit: nat, offset: nat)
    requires Ordered(rows) && ListsCached(cells, index, now, rows)
    ensures ListsCached(Put(cells, now, Sent(ListKey(limit, offset)), ListEntry(rows, limit, offset), LIST_CACHE_TTL),
                        index + {Sent(ListKey(limit, offset))}, now, rows)
  {
    hide Sent, EncodeListing, FreshListing;
    var k := Sent(ListKey(limit, offset));
    var cells' := Put(cells, now, k, ListEntry(rows, limit, offset), LIST_CACHE_TTL);
    forall l, o | Live(cells', now, Sent(ListKey(l, o)))
      ensures Sent(ListKey(l, o)) in index + {k} && l >= 0 && o >= 0
      ensures cells'[Sent(ListKey(l, o))].value == Doc(EncodeListing(FreshListing(rows, l, o)))
    {
      if Sent(ListKey(l, o)) == k {
        CollideIff(ListKey(l, o), ListKey(limit, offset));
      } else {
        assert Live(cells, now, Sent(ListKey(l, o)));
      }
    }
  }

  /** The SET of a page: right on its own, and in agreement once its key is in the index. */
  lemma ListPut(cells: Cells, sets: Sets, now: nat, rows: seq<Row>, resolve: string -> nat, limit: nat, offset: nat)
    requires Ordered(rows) && StoreOk(cells, sets, rows, resolve)
    ensures var k := Sent(ListKey(limit, offset));
            var cells' := Put(cells, now, k, ListEntry(rows, limit, offset), LIST_CACHE_TTL);
            && StoreOk(cells', sets - {k}, rows, resolve)
            && RequestsIn(cells', now) == RequestsIn(cells, now)
            && (Agrees(cells, sets, now, rows) ==>
                  Agrees(cells', AddIndexed(sets - {k}, k), now, rows))
  {
    hide Sent, UserCached, FreshListing, EncodeListing;
    var k := ListKey(limit, offset);
    OtherKeys(k);
    NoUserKey(k);
    MemberIsWhole(k);
    if Agrees(cells, sets, now, rows) {
      ListsAfterListPut(cells, Members(sets, Sent(IndexKey)), now, rows, limit, offset);
    }
  }

  function AddIndexed(sets: Sets, key: string): Sets {
    sets[Sent(IndexKey) := Members(sets, Sent(IndexKey)) + {key}]
  }

  lemma IndexGrown(cells: Cells, sets: Sets, rows: seq<Row>, resolve: string -> nat, limit: int, offset: int)
    requires StoreOk(cells, sets, rows, resolve)
    ensures StoreOk(cells, AddIndexed(sets, Sent(ListKey(limit, offset))), rows, resolve)
  {
    hide Sent, UsersCached;
    OtherKeys(ListKey(limit, offset));
    MemberIsWhole(ListKey(limit, offset));
  }

  /** A key that has been sent is sent whole the next time. */
  lemma MemberIsWhole(k: Key)
    ensures NulFree(Sent(k)) && CString(Sent(k)) == Sent(k)
  {
    hide Sent, Wire;
    SentIsCut(k);
    CStringCut(Wire(k));
  }

  lemma MembersAreWhole(cells: Cells, sets: Sets, rows: seq<Row>, resolve: string -> nat)
    requires StoreOk(cells, sets, rows, resolve)
    ensures forall m :: m in Members(sets, Sent(IndexKey)) ==> CString(m) == m
  {
    forall m | m in Members(sets, Sent(IndexKey)) ensures CString(m) == m {
      CStringWhole(m);
    }
  }

  /** Time passing and keys with a TTL dropping out break nothing. */
  lemma EnvironmentMoves(cells: Cells, sets: Sets, now: nat, rows: seq<Row>, resolve: string -> nat, key: string,
                         now': nat)
    requires Ordered(rows) && StoreOk(cells, sets, rows, resolve) && now <= now'
    ensures RequestsIn(cells, now') == RequestsIn(cells, now)
    ensures Agrees(cells, sets, now, rows) ==> Agrees(cells, sets, now', rows)
    ensures key in cells && cells[key].expiry.Some? ==>
              && StoreOk(cells - {key}, sets, rows, resolve)
              && RequestsIn(cells - {key}, now) == RequestsIn(cells, now)
              && (Agrees(cells, sets, now, rows) ==> Agrees(cells - {key}, sets, now, rows))
  {
  }

  /** The cached total, if there is one. */
  function CachedTotal(cells: Cells, now: nat): Option<int> {
    match Visible(cells, now, Sent(TotalKey))
    case Some(v) => Some(ParseInt(v))
    case None => None
  }

  /** In a state that agrees, a cached total is the size of the table. */
  lemma TotalHit(cells: Cells, sets: Sets, now: nat, rows: seq<Row>)
    requires Ordered(rows) && Agrees(cells, sets, now, rows) && Live(cells, now, Sent(TotalKey))
    ensures ParseInt(cells[Sent(TotalKey)].value) == |rows|
  {
    CountFits(rows);
    Decimal.StrtollRoundTrip(|rows|);
  }

  /** What a cached user decodes to, if there is one. */
  function CachedUser(cells: Cells, now: nat, id: string): Result<User> {
    match Visible(cells, now, Sent(UserKey(id)))
    case None => Thrown
    case Some(v) => match ParseJson(v) case Ok(j) => DecodeUser(j) case Thrown => Thrown
  }

  lemma FilledDecodes(cells: Cells, now: nat, id: string, u: User)
    ensures CachedUser(UserFilled(cells, now, id, Some(u)), now, id) == Ok(u)
  {
    UserRoundTrip(u);
    hide UserToJson, DecodeUser, Sent;
  }

  lemma NothingFilled(cells: Cells, now: nat, id: string)
    ensures UserFilled(cells, now, id, None) == cells
  {
  }

  /** Counting a request touches no user entry. */
  lemma CountedElsewhere(cells: Cells, now: nat, id: string)
    ensures CachedUser(Increment(cells, now, Sent(RequestsKey)), now, id) == CachedUser(cells, now, id)
  {
    hide Sent, DecodeUser;
    Apart(UserKey(id), RequestsKey);
  }

  /** Nor a list. */
  lemma CountedOffLists(cells: Cells, now: nat, limit: int, offset: int)
    ensures CachedListing(Increment(cells, now, Sent(RequestsKey)), now, limit, offset)
            == CachedListing(cells, now, limit, offset)
  {
    hide Sent, DecodeListing;
    Apart(ListKey(limit, offset), RequestsKey);
  }

  /** Every live user entry decodes, to a committed user for its key. */
  lemma UserHit(cells: Cells, sets: Sets, now: nat, rows: seq<Row>, resolve: string -> nat, id: string)
    requires StoreOk(cells, sets, rows, resolve)
    ensures CachedUser(cells, now, id).Ok? <==> Live(cells, now, Sent(UserKey(id)))
    ensures CachedUser(cells, now, id).Ok? ==> UserBehind(CachedUser(cells, now, id).value, rows, resolve, id)
  {
    if Live(cells, now, Sent(UserKey(id))) {
      var v := cells[Sent(UserKey(id))].value;
      var u :| v == Doc(UserToJson(u)) && UserBehind(u, rows, resolve, id);
      UserRoundTrip(u);
    }
  }

  /** What a cached list payload decodes to, if there is one. */
  function CachedListing(cells: Cells, now: nat, limit: int, offset: int): Result<Listing> {
    match Visible(cells, now, Sent(ListKey(limit, offset)))
    case None => Thrown
    case Some(v) => match ParseJson(v) case Ok(j) => DecodeListing(j) case Thrown => Thrown
  }

  /** In a state that agrees, a payload that decodes is the fresh answer. */
  lemma HitIsFresh(cells: Cells, sets: Sets, now: nat, rows: seq<Row>, limit: int, offset: int)
    requires Ordered(rows)
    ensures CachedListing(cells, now, limit, offset).Ok? && Agrees(cells, sets, now, rows) ==>
              && limit >= 0 && offset >= 0
              && CachedListing(cells, now, limit, offset) == Ok(FreshListing(rows, limit, offset))
  {
    if CachedListing(cells, now, limit, offset).Ok? && Agrees(cells, sets, now, rows) {
      assert Live(cells, now, Sent(ListKey(limit, offset)));
      ListingRoundTrip(FreshListing(rows, limit, offset));
    }
  }
}

/**
 The cache-aside data access layer (src/store/user_repository.cpp), run by one
 caller at a time.  System covers concurrent callers.
 */
module Repository {
  import opened Prelude
  import opened Users
  import opened Json
  import opened Redis
  import opened Mysql
  import opened Keys
  import opened CacheState
  import Decimal

  /** The out-parameters of ListUsers. */
  class ListingBuffer {
    var users: seq<User>
    var total: Decimal.int64

    constructor ()
      ensures users == [] && total == 0
    {
      users, total := [], 0;
    }

    function Contents(): Listing
      reads this
    {
      Listing(users, total)
    }
  }

  lemma {:induction false} ThrownPrefix(items: seq<Json>, k: nat)
    requires k <= |items| && DecodeUsers(items[..k]).Thrown?
    ensures DecodeUsers(items).Thrown?
    decreases |items|
  {
    if k < |items| {
      var rest := items[..|items| - 1];
      assert rest[..k] == items[..k];
      ThrownPrefix(rest, k);
    } else {
      assert items[..k] == items;
    }
  }

  /**
   The cache-hit branch of ListUsers: fills `out` user by user and stops at the
   first throw, which leaves the users decoded so far in `out`.
   */
  method DecodeInto(j: Json, out: ListingBuffer) returns (thrown: bool)
    modifies out
    ensures thrown <==> DecodeListing(j).Thrown?
    ensures !thrown ==> DecodeListing(j) == Ok(out.Contents())
  {
    hide DecodeUser, UsersField, Elements, IntAt, StringAt;
    out.users := [];
    var field := UsersField(j);
    if field.Thrown? { return true; }
    var items := Elements(field.value);
    for i := 0 to |items|
      invariant DecodeUsers(items[..i]) == Ok(out.users)
    {
      var u := new UserBuffer();
      thrown := JsonToUser(items[i], u);
      assert items[..i + 1][..i] == items[..i];
      if thrown {
        ThrownPrefix(items, i + 1);
        return true;
      }
      out.users := out.users + [u.Contents()];
    }
    assert items[..|items|] == items;
    var total := if j.JNull? then Ok(0) else IntAt(j, "total", 0);
    if total.Thrown? { return true; }
    out.total := total.value;
    thrown := false;
  }

  /** The users a page of fetched rows stands for. */
  predicate IsFetched(page: seq<Row>, res: ResultSet) {
    |res| == |page| && forall i :: 0 <= i < |page| ==> res[i] == Fields(page[i])
  }

  lemma FetchedUser(row: Row, f: seq<string>)
    requires NulFree(row.name) && NulFree(row.email) && f == Fields(row)
    ensures |f| == 4 && FromFields(f) == UserOf(row)
  {
    ReadBackExact(row);
  }

  /** The row loop of ListUsers. */
  method FetchUsers(ghost page: seq<Row>, res: ResultSet) returns (users: seq<User>)
    requires NulFreeRows(page) && IsFetched(page, res)
    ensures users == UsersOf(page)
  {
    hide FromFields, UserOf, Fields;
    users := [];
    for i := 0 to |res|
      invariant |users| == i && forall k :: 0 <= k < i ==> users[k] == UserOf(page[k])
    {
      FetchedUser(page[i], res[i]);
      users := users + [FromFields(res[i])];
    }
  }

  /** The single cell of a COUNT(*) answer, 0 without a row. */
  function FirstCount(res: ResultSet): Decimal.int64 {
    if res == [] || res[0] == [] then 0 else Decimal.Strtoll(res[0][0])
  }

  /** A count survives its trip through decimal text. */
  lemma CountReadBack(rows: seq<Row>)
    requires Ordered(rows)
    ensures |rows| <= Decimal.INT64_MAX
    ensures Decimal.Strtoll(Decimal.Text(|rows|)) == |rows|
  {
    CountFits(rows);
    Decimal.StrtollRoundTrip(|rows|);
  }

  /** The next two statements are served. */
  predicate BothServed(script: seq<Outcome>) {
    OutcomeAt(script, 0).Served? && OutcomeAt(script, 1).Served?
  }

  /** The counter has room and the next command reaches the server. */
  predicate OneMore(requests: int, faults: seq<Fault>) {
    requests < Decimal.INT64_MAX && !FaultAt(faults, 0).Lost?
  }

  class UserRepository {
    const pool: MysqlPool
    const redis: RedisClient
    const db: Database

    constructor (pool: MysqlPool, redis: RedisClient)
      ensures this.pool == pool && this.redis == redis && this.db == pool.db
    {
      this.pool := pool;
      this.redis := redis;
      this.db := pool.db;
    }

    /** Kept by every call, whatever Redis commands or SQL statements fail. */
    ghost predicate Valid()
      reads this, pool, pool.conns, pool.guards, redis, db
    {
      pool.db == db && pool.Valid() && pool.idle != [] && StoreValid()
    }

    /** The part of Valid that says nothing about connections. */
    ghost predicate StoreValid()
      reads this, redis, db
    {
      Ordered(db.rows) && StoreOk(redis.cells, redis.sets, db.rows, db.resolve)
    }

    /** Lists and totals agree with the table; kept as long as no Redis command fails. */
    ghost predicate Coherent()
      requires Ordered(db.rows)
      reads this, redis, db
    {
      Agrees(redis.cells, redis.sets, redis.now, db.rows)
    }

    function Requests(): int
      reads this, redis
    {
      RequestsIn(redis.cells, redis.now)
    }

    method CountRequest()
      requires Valid()
      modifies redis`faults, redis`cells
      ensures Valid()
      ensures old(redis.Reliable()) ==> redis.Reliable()
      ensures old(Coherent()) ==> Coherent()
      ensures || redis.cells == old(redis.cells)
              || redis.cells == Increment(old(redis.cells), redis.now, Sent(RequestsKey))
      ensures redis.faults == Later(old(redis.faults), 1)
      ensures Requests() == old(Requests())
                            + (if OneMore(old(Requests()), old(redis.faults)) then 1 else 0)
    {
      hide StoreOk, Agrees, Ordered, Sent, Wire, CString, Countable, Increment;
      SentText(RequestsKey);
      Counted(redis.cells, redis.sets, redis.now, db.rows, db.resolve);
      NeverASet(redis.cells, redis.sets, db.rows, db.resolve);
      var _ := redis.Incr(Wire(RequestsKey));
    }

    /**
     Deletes every indexed list key, then the index, whether or not it could be
     read and whatever becomes of a command.  `keys` is the order in which the
     server lists the index.
     */
    method InvalidateListCache() returns (ghost keys: seq<string>)
      requires StoreValid()
      modifies redis`faults, redis`cells, redis`sets
      ensures StoreValid() && Requests() == old(Requests())
      ensures if FaultAt(old(redis.faults), 0).Answered? then Lists(keys, Members(old(redis.sets), Sent(IndexKey)))
              else keys == []
      ensures redis.faults == Later(old(redis.faults), 2 + |keys|)
      ensures redis.cells == old(redis.cells) - Reached(keys, Later(old(redis.faults), 1))
      ensures redis.sets == if FaultAt(old(redis.faults), 1 + |keys|).Lost? then old(redis.sets)
                            else old(redis.sets) - {Sent(IndexKey)}
      ensures old(redis.Reliable()) ==> redis.cells == old(redis.cells) - Members(old(redis.sets), Sent(IndexKey))
      ensures old(redis.Reliable() && Indexed(redis.cells, redis.sets, redis.now)) ==> NoLists(redis.cells, redis.now)
    {
      hide StoreOk, Ordered, RequestsIn, Sent, Wire, CString, Reached, FaultAt, Later;
      SentText(IndexKey);
      MembersAreWhole(redis.cells, redis.sets, db.rows, db.resolve);
      CounterUnindexed(redis.cells, redis.sets, db.rows, db.resolve);
      var index := Wire(IndexKey);
      ghost var faults := Later(redis.faults, 1);
      var listed := redis.SMembers(index);
      keys := if listed.Some? then listed.value else [];
      ReachedAreKeys(keys, faults);
      LaterAdds(faults, 0, 0);
      if listed.Some? {
        assert keys[..0] == [];
        if old(redis.Reliable()) {
          NoFaults();
          AllReached(keys, Members(old(redis.sets), Sent(IndexKey)));
        }
        for i := 0 to |listed.value|
          invariant redis.faults == Later(faults, i)
          invariant redis.cells == old(redis.cells) - Reached(keys[..i], faults)
          invariant redis.sets == old(redis.sets)
        {
          LaterAdds(faults, i, 0);
          LaterAdds(faults, i, 1);
          ReachedNext(keys, faults, i);
          assert listed.value[i] in listed.value;
          var _ := redis.Del(listed.value[i]);
        }
        assert keys[..|keys|] == keys;
      }
      LaterAdds(faults, |keys|, 0);
      LaterAdds(faults, |keys|, 1);
      LaterAdds(old(redis.faults), 1, |keys|);
      LaterAdds(old(redis.faults), 1, |keys| + 1);
      NoFaults();
      var _ := redis.Del(index);
      Shrunk(old(redis.cells), old(redis.sets), redis.cells, redis.sets, redis.now, db.rows, db.resolve);
    }

    /** The cache side of CreateUser: prime the user, drop the lists, drop the total. */
    method MaintainCache(u: User) returns (ghost keys: seq<string>)
      requires StoreValid() && Lookup(db.rows, db.resolve(u.id)) == Some(u)
      modifies redis`faults, redis`cells, redis`sets
      ensures StoreValid()
      ensures ListedUnder(keys, old(redis.sets), old(redis.faults))
      ensures redis.faults == Later(old(redis.faults), 4 + |keys|)
      ensures redis.cells == UpkeptUnder(old(redis.cells), redis.now, u, keys, old(redis.faults))
      ensures redis.sets == if FaultAt(old(redis.faults), 2 + |keys|).Lost? then old(redis.sets)
                            else old(redis.sets) - {Sent(IndexKey)}
      ensures old(redis.Reliable()) ==> redis.Reliable()
      ensures old(redis.Reliable() && Indexed(redis.cells, redis.sets, redis.now)) ==> Coherent()
      ensures old(redis.Reliable()) ==> redis.cells == Maintained(old(redis.cells), old(redis.sets), redis.now, u)
      ensures Requests() == old(Requests())
    {
      hide StoreOk, Agrees, Indexed, RequestsIn, NoLists, Ordered, Find, Lookup, Sent, Wire, CString, Reached;
      hide FaultAt, Later, Lists, Members;
      NoFaults();
      SentText(UserKey(u.id));
      SentText(TotalKey);
      OnlyIndexIsSet(redis.cells, redis.sets, db.rows, db.resolve, UserKey(u.id));
      UserPut(redis.cells, redis.sets, redis.now, db.rows, db.resolve, u.id);
      var _ := redis.Set(Wire(UserKey(u.id)), Doc(UserToJson(u)), USER_CACHE_TTL);
      keys := InvalidateListCache();
      LaterAdds(old(redis.faults), 1, 0);
      LaterAdds(old(redis.faults), 1, 1);
      LaterAdds(old(redis.faults), 1, 1 + |keys|);
      LaterAdds(old(redis.faults), 1, 2 + |keys|);
      LaterAdds(old(redis.faults), 3 + |keys|, 0);
      LaterAdds(old(redis.faults), 3 + |keys|, 1);
      if old(redis.Reliable()) {
        NoFaultsLater(2, 3 + |keys|);
        NoFaultsLater(4 + |keys|, 0);
        AllReached(keys, Members(old(redis.sets), Sent(IndexKey)));
      }
      TotalDeleted(redis.cells, redis.sets, redis.now, db.rows, db.resolve);
      TotalIsNoSet(redis.cells, redis.sets, db.rows, db.resolve);
      var _ := redis.Del(Wire(TotalKey));
    }

    /**
     `stamp` is the wall clock in seconds.  On success the new row is the last
     one and the answer is that row's user.  On failure the cache is untouched,
     and so is the table unless the INSERT's answer was lost.
     */
    method CreateUser(name: string, email: string, stamp: Decimal.int64) returns (user: Option<User>)
      requires Valid() && NulFree(name) && NulFree(email)
      modifies redis`faults, redis`cells, redis`sets, db, pool`idle, pool`lent, pool`guards, pool.conns
      ensures Valid() && pool.conns == old(pool.conns) && pool.guards == old(pool.guards)
      ensures old(redis.Reliable()) ==> redis.Reliable()
      ensures old(db.Healthy()) ==> db.Healthy()
      ensures user.None? ==> redis.cells == old(redis.cells) && redis.sets == old(redis.sets)
      ensures var row := Row(LastId(old(db.rows)) + 1 + old(db.NextGap()), name, email, stamp);
              var o := OutcomeAt(old(db.script), 0);
              && db.rows == (if o.Refused? || row.id > Decimal.INT64_MAX then old(db.rows) else old(db.rows) + [row])
              && user == if o.Served? && row.id <= Decimal.INT64_MAX then Some(UserOf(row)) else None
      ensures old(redis.Reliable() && Coherent()) && (user.Some? || db.rows == old(db.rows)) ==> Coherent()
      ensures user.Some? ==>
                UpkeptSomehow(old(redis.cells), old(redis.sets), redis.cells, redis.now, user.value, old(redis.faults))
      ensures old(redis.Reliable()) && user.Some? ==>
                redis.cells == Maintained(old(redis.cells), old(redis.sets), redis.now, user.value)
      ensures Requests() == old(Requests())
    {
      hide StoreOk, Agrees, Indexed, RequestsIn, NoLists, Ordered, Find, Lookup, Maintained, Sent;
      hide UpkeptUnder, UpkeptSomehow, ListedUnder;
      hide MysqlPool.Accounted, MysqlPool.GuardsOk, MysqlPool.Conserved;
      var guard := pool.Acquire();
      user := InsertUser(guard.conn, name, email, stamp);
      if db.rows != old(db.rows) {
        RowAppended(old(db.rows), db.rows[|old(db.rows)|], redis.cells, redis.sets, db.resolve);
      }
      if user.None? {
        guard.Destroy();
        return;
      }
      CoversIndex(redis.cells, redis.sets, redis.now, old(db.rows));
      ghost var keys := MaintainCache(user.value);
      InSomeOrder(old(redis.cells), old(redis.sets), redis.now, user.value, keys, old(redis.faults));
      guard.Destroy();
    }

    /** The statement of CreateUser; the connection's insert id is that of the new row. */
    method InsertUser(conn: MysqlConn, name: string, email: string, stamp: Decimal.int64) returns (user: Option<User>)
      requires conn.Ready() && conn.db == db
      modifies conn, db
      ensures conn.Ready()
      ensures old(db.Healthy()) ==> db.Healthy()
      ensures var row := Row(LastId(old(db.rows)) + 1 + old(db.NextGap()), name, email, stamp);
              var o := OutcomeAt(old(db.script), 0);
              && db.rows == (if o.Refused? || row.id > Decimal.INT64_MAX then old(db.rows) else old(db.rows) + [row])
              && user == if o.Served? && row.id <= Decimal.INT64_MAX then Some(UserOf(row)) else None
    {
      var inserted := conn.Execute(Insert(name, email, stamp));
      if !inserted {
        return None;
      }
      var id := conn.LastInsertId();
      user := Some(User(Decimal.Text(id), name, email, stamp));
    }

    /**
     Cache first, then the table with backfill.  Whatever Redis commands fail,
     whom it finds is a committed user for the key of `id`, hence the one that
     `id` selects wherever the server stops at a NUL as the cache keys do.
     */
    method GetUser(id: string) returns (user: Option<User>)
      requires Valid()
      modifies redis`faults, redis`cells, redis`sets, db`script, pool`idle, pool`lent, pool`guards, pool.conns
      ensures Valid() && pool.conns == old(pool.conns) && pool.guards == old(pool.guards)
      ensures old(redis.Reliable()) ==> redis.Reliable()
      ensures old(db.Healthy()) ==> db.Healthy()
      ensures user.Some? ==> UserBehind(user.value, db.rows, db.resolve, id)
      ensures user.Some? && StopsAtNul(db.resolve) ==> user == Lookup(db.rows, db.resolve(id))
      ensures OutcomeAt(old(db.script), 0).Served? && user.None? ==> Lookup(db.rows, db.resolve(id)).None?
      ensures var cached := CachedUser(old(redis.cells), redis.now, id);
              var hit := FaultAt(old(redis.faults), 0).Answered? && cached.Ok?;
              && (hit ==> user == Some(cached.value))
              && (!hit && OutcomeAt(old(db.script), 0).Served? ==> user == Lookup(db.rows, db.resolve(id)))
      ensures old(redis.Reliable()) && user.Some? ==> CachedUser(redis.cells, redis.now, id) == Ok(user.value)
      ensures old(Coherent()) ==> Coherent()
      ensures var hit := FaultAt(old(redis.faults), 0).Answered?
                         && Live(old(redis.cells), redis.now, Sent(UserKey(id)));
              redis.cells == if hit || FaultAt(old(redis.faults), 1).Lost? then old(redis.cells)
                             else UserFilled(old(redis.cells), redis.now, id, user)
      ensures Requests() == old(Requests())
    {
      hide StoreOk, Agrees, Indexed, RequestsIn, NoLists, Ordered, Find, Lookup, UserFilled, UserBehind, StopsAtNul;
      hide Sent;
      LaterAdds(redis.faults, 1, 0);
      NothingFilled(redis.cells, redis.now, id);
      OnlyIndexIsSet(redis.cells, redis.sets, db.rows, db.resolve, UserKey(id));
      UserHit(redis.cells, redis.sets, redis.now, db.rows, db.resolve, id);
      user := ProbeUser(id);
      if user.None? {
        user := LoadUser(id);
        if user.Some? {
          FilledDecodes(old(redis.cells), redis.now, id, user.value);
        }
      }
      if user.Some? && StopsAtNul(db.resolve) {
        OneBehind(user.value, db.rows, db.resolve, id);
      }
    }

    /** GetUser, step 1: the cache. */
    method ProbeUser(id: string) returns (user: Option<User>)
      requires StoreValid()
      modifies redis`faults
      ensures redis.faults == Later(old(redis.faults), 1)
      ensures Sent(UserKey(id)) !in redis.sets ==>
                (user.Some? <==> FaultAt(old(redis.faults), 0).Answered? && CachedUser(redis.cells, redis.now, id).Ok?)
      ensures user.Some? ==> CachedUser(redis.cells, redis.now, id) == Ok(user.value)
      ensures user.Some? ==> UserBehind(user.value, db.rows, db.resolve, id)
    {
      hide StoreOk, Agrees, Indexed, RequestsIn, NoLists, Ordered, Find, Lookup, UserBehind, Sent, Wire, CString;
      SentText(UserKey(id));
      var cached := redis.Get(Wire(UserKey(id)));
      if cached.Some? {
        UserHit(redis.cells, redis.sets, redis.now, db.rows, db.resolve, id);
        var j := ParseJson(cached.value);
        if j.Ok? {
          var u := new UserBuffer();
          var thrown := JsonToUser(j.value, u);
          if !thrown {
            return Some(u.Contents());
          }
        }
      }
      user := None;
    }

    /** GetUser, steps 2 and 3: the table, then the backfill. */
    method LoadUser(id: string) returns (user: Option<User>)
      requires Valid()
      modifies redis`faults, redis`cells, redis`sets, db`script, pool`idle, pool`lent, pool`guards, pool.conns
      ensures Valid() && pool.conns == old(pool.conns) && pool.guards == old(pool.guards)
      ensures redis.faults == Later(old(redis.faults), if user.Some? then 1 else 0)
      ensures redis.cells == if user.Some? && FaultAt(old(redis.faults), 0).Lost? then old(redis.cells)
                             else UserFilled(old(redis.cells), redis.now, id, user)
      ensures old(db.Healthy()) ==> db.Healthy()
      ensures user.Some? ==> user == Lookup(db.rows, db.resolve(id)) && UserBehind(user.value, db.rows, db.resolve, id)
      ensures user == if OutcomeAt(old(db.script), 0).Served? then Lookup(db.rows, db.resolve(id)) else None
      ensures old(Coherent()) ==> Coherent()
      ensures Requests() == old(Requests())
    {
      hide StoreOk, Agrees, Indexed, RequestsIn, NoLists, Ordered, Find, Lookup, Sent, MysqlPool.Accounted;
      hide MysqlPool.GuardsOk, MysqlPool.Conserved;
      hide FaultAt, Later;
      LaterAdds(redis.faults, 0, 0);
      NoFaults();
      NulFreeStore(redis.cells, redis.sets, db.rows, db.resolve);
      var guard := pool.Acquire();
      user := SelectUser(guard.conn, id);
      if user.Some? {
        BehindSelf(user.value, db.rows, db.resolve, id);
        CacheUser(id, user.value);
      }
      guard.Destroy();
    }

    /** The statement of GetUser and the reading of its row. */
    method SelectUser(conn: MysqlConn, id: string) returns (user: Option<User>)
      requires conn.Ready() && conn.db == db && NulFreeRows(db.rows)
      modifies conn, db`script
      ensures conn.Ready()
      ensures old(db.Healthy()) ==> db.Healthy()
      ensures user == if OutcomeAt(old(db.script), 0).Served? then Lookup(db.rows, db.resolve(id)) else None
    {
      var res := conn.Query(SelectById(id));
      if res.None? || res.value == [] {
        return None;
      }
      ghost var row := db.rows[Find(db.rows, db.resolve(id)).value];
      FetchedUser(row, res.value[0]);
      user := Some(FromFields(res.value[0]));
    }

    method CacheUser(id: string, u: User)
      requires StoreValid() && Lookup(db.rows, db.resolve(id)) == Some(u)
      modifies redis`faults, redis`cells, redis`sets
      ensures StoreValid()
      ensures redis.faults == Later(old(redis.faults), 1) && redis.sets == old(redis.sets)
      ensures redis.cells == if FaultAt(old(redis.faults), 0).Lost? then old(redis.cells)
                             else UserFilled(old(redis.cells), redis.now, id, Some(u))
      ensures old(Coherent()) ==> Coherent()
      ensures Requests() == old(Requests())
    {
      hide StoreOk, Agrees, Indexed, RequestsIn, NoLists, Ordered, Find, Lookup, Sent, Wire, CString;
      SentText(UserKey(id));
      OnlyIndexIsSet(redis.cells, redis.sets, db.rows, db.resolve, UserKey(id));
      UserPut(redis.cells, redis.sets, redis.now, db.rows, db.resolve, id);
      var _ := redis.Set(Wire(UserKey(id)), Doc(UserToJson(u)), USER_CACHE_TTL);
    }

    /**
     A success answers either with what the cached payload decodes to or with
     the fresh page and total, and with nothing left over from a payload that
     failed to decode half-way; in a coherent state both are the fresh answer.
     */
    method ListUsers(limit: int, offset: int, out: ListingBuffer) returns (ok: bool)
      requires Valid()
      modifies redis`faults, redis`cells, redis`sets, db`script, pool`idle, pool`lent, pool`guards, pool.conns, out
      ensures Valid() && pool.conns == old(pool.conns) && pool.guards == old(pool.guards)
      ensures old(redis.Reliable()) ==> redis.Reliable()
      ensures old(db.Healthy()) ==> db.Healthy()
      ensures ok && old(Coherent()) ==>
                limit >= 0 && offset >= 0 && out.Contents() == FreshListing(db.rows, limit, offset)
      ensures limit >= 0 && offset >= 0 && BothServed(old(db.script)) ==> ok
      ensures old(redis.Reliable() && Coherent()) ==> Coherent()
      ensures var hit := FaultAt(old(redis.faults), 0).Answered?
                         && CachedListing(old(redis.cells), redis.now, limit, offset).Ok?;
              && (hit ==> ok && Ok(out.Contents()) == CachedListing(old(redis.cells), redis.now, limit, offset))
              && (ok && !hit ==> limit >= 0 && offset >= 0 && out.Contents() == FreshListing(db.rows, limit, offset))
              && redis.cells == (if hit || !ok || FaultAt(old(redis.faults), 1).Lost? then old(redis.cells)
                                 else ListFilled(old(redis.cells), redis.now, limit, offset, out.Contents()))
              && redis.sets == (if hit || !ok || FaultAt(old(redis.faults), 2).Lost? then old(redis.sets)
                                else AddIndexed(old(redis.sets), Sent(ListKey(limit, offset))))
      ensures Requests() == old(Requests())
    {
      hide StoreOk, Agrees, Indexed, RequestsIn, NoLists, Ordered, Find, Lookup, ListFilled;
      LaterAdds(redis.faults, 1, 0);
      LaterAdds(redis.faults, 1, 1);
      OnlyIndexIsSet(redis.cells, redis.sets, db.rows, db.resolve, ListKey(limit, offset));
      ok := ProbeListing(limit, offset, out);
      if !ok {
        ok := LoadListing(limit, offset, out);
      }
    }

    /** ListUsers, step 1: the cache. */
    method ProbeListing(limit: int, offset: int, out: ListingBuffer) returns (hit: bool)
      requires StoreValid()
      modifies redis`faults, out
      ensures redis.faults == Later(old(redis.faults), 1)
      ensures Sent(ListKey(limit, offset)) !in redis.sets ==>
                (hit <==> && FaultAt(old(redis.faults), 0).Answered?
                          && CachedListing(redis.cells, redis.now, limit, offset).Ok?)
      ensures hit ==> Ok(out.Contents()) == CachedListing(redis.cells, redis.now, limit, offset)
      ensures hit && Coherent() ==> limit >= 0 && offset >= 0 && out.Contents() == FreshListing(db.rows, limit, offset)
    {
      hide StoreOk, Agrees, Indexed, RequestsIn, NoLists, Ordered, Find, Lookup, Sent, Wire, CString, ListCacheKey;
      SentText(ListKey(limit, offset));
      var cached := redis.Get(ListCacheKey(limit, offset));
      if cached.Some? {
        var j := ParseJson(cached.value);
        if j.Ok? {
          var thrown := DecodeInto(j.value, out);
          if !thrown {
            HitIsFresh(redis.cells, redis.sets, redis.now, db.rows, limit, offset);
            return true;
          }
        }
      }
      hit := false;
    }

    /** ListUsers, steps 2 and 3: count, page, then the backfill; nothing of `out` is kept. */
    method LoadListing(limit: int, offset: int, out: ListingBuffer) returns (ok: bool)
      requires Valid()
      modifies redis`faults, redis`cells, redis`sets, db`script, pool`idle, pool`lent, pool`guards, pool.conns, out
      ensures Valid() && pool.conns == old(pool.conns) && pool.guards == old(pool.guards)
      ensures redis.faults == Later(old(redis.faults), if ok then 2 else 0)
      ensures redis.cells == if !ok || FaultAt(old(redis.faults), 0).Lost? then old(redis.cells)
                             else ListFilled(old(redis.cells), redis.now, limit, offset, out.Contents())
      ensures redis.sets == if !ok || FaultAt(old(redis.faults), 1).Lost? then old(redis.sets)
                            else AddIndexed(old(redis.sets), Sent(ListKey(limit, offset)))
      ensures old(db.Healthy()) ==> db.Healthy()
      ensures ok ==> limit >= 0 && offset >= 0 && out.Contents() == FreshListing(db.rows, limit, offset)
      ensures ok <==> limit >= 0 && offset >= 0 && BothServed(old(db.script))
      ensures old(redis.Reliable() && Coherent()) ==> Coherent()
      ensures Requests() == old(Requests())
    {
      hide StoreOk, Agrees, Indexed, RequestsIn, NoLists, Ordered, Find, Lookup, ListFilled, Sent;
      hide MysqlPool.Accounted, MysqlPool.GuardsOk, MysqlPool.Conserved;
      hide FaultAt, Later, AddIndexed, FreshListing;
      LaterAdds(redis.faults, 0, 0);
      NoFaultsLater(2, 0);
      NoFaultsLater(2, 1);
      NulFreeStore(redis.cells, redis.sets, db.rows, db.resolve);
      var guard := pool.Acquire();
      var l := SelectListing(guard.conn, limit, offset);
      if l.Some? {
        CacheListing(limit, offset, l.value);
      }
      guard.Destroy();
      if l.None? {
        return false;
      }
      out.users := l.value.users;
      out.total := l.value.total;
      ok := true;
    }

    /** The two statements of ListUsers, in order, and the reading of their rows. */
    method SelectListing(conn: MysqlConn, limit: int, offset: int) returns (l: Option<Listing>)
      requires conn.Ready() && conn.db == db && Ordered(db.rows) && NulFreeRows(db.rows)
      modifies conn, db`script
      ensures conn.Ready()
      ensures old(db.Healthy()) ==> db.Healthy()
      ensures l.Some? ==> limit >= 0 && offset >= 0 && l.value == FreshListing(db.rows, limit, offset)
      ensures l.Some? <==> limit >= 0 && offset >= 0 && BothServed(old(db.script))
    {
      RestAdds(db.script, 1, 0);
      var totalCount := SelectCount(conn);
      if totalCount.None? {
        return None;
      }
      var res := conn.Query(SelectPage(limit, offset));
      if res.None? {
        return None;
      }
      var users := FetchUsers(Page(db.rows, limit, offset), res.value);
      l := Some(Listing(users, totalCount.value));
    }

    /** The last step of ListUsers: store the payload, then enter its key in the index. */
    method CacheListing(limit: nat, offset: nat, l: Listing)
      requires StoreValid() && l == FreshListing(db.rows, limit, offset)
      modifies redis`faults, redis`cells, redis`sets
      ensures StoreValid()
      ensures redis.faults == Later(old(redis.faults), 2)
      ensures redis.cells == if FaultAt(old(redis.faults), 0).Lost? then old(redis.cells)
                             else ListFilled(old(redis.cells), redis.now, limit, offset, l)
      ensures redis.sets == if FaultAt(old(redis.faults), 1).Lost? then old(redis.sets)
                            else AddIndexed(old(redis.sets), Sent(ListKey(limit, offset)))
      ensures old(redis.Reliable() && Coherent()) ==> Coherent()
      ensures Requests() == old(Requests())
    {
      hide StoreOk, Agrees, Indexed, RequestsIn, NoLists, Ordered, Find, Lookup, Sent, Wire, CString, ListCacheKey;
      SentText(ListKey(limit, offset));
      SentText(IndexKey);
      MemberIsWhole(ListKey(limit, offset));
      OnlyIndexIsSet(redis.cells, redis.sets, db.rows, db.resolve, ListKey(limit, offset));
      LaterAdds(redis.faults, 1, 0);
      LaterAdds(redis.faults, 1, 1);
      var cacheKey := ListCacheKey(limit, offset);
      ListPut(redis.cells, redis.sets, redis.now, db.rows, db.resolve, limit, offset);
      var _ := redis.Set(cacheKey, Doc(EncodeListing(l)), LIST_CACHE_TTL);
      CounterUnindexed(redis.cells, redis.sets, db.rows, db.resolve);
      IndexGrown(redis.cells, redis.sets, db.rows, db.resolve, limit, offset);
      var _ := redis.SAdd(Wire(IndexKey), cacheKey);
    }

    /** The cached or counted number of users, and the request counter as it stands. */
    method GetStats() returns (ok: bool, totalUsers: Decimal.int64, requestCount: Decimal.int64)
      requires Valid()
      modifies redis`faults, redis`cells, redis`sets, db`script, pool`idle, pool`lent, pool`guards, pool.conns
      ensures Valid() && pool.conns == old(pool.conns) && pool.guards == old(pool.guards)
      ensures old(redis.Reliable()) ==> redis.Reliable()
      ensures old(db.Healthy()) ==> db.Healthy()
      ensures OutcomeAt(old(db.script), 0).Served? ==> ok
      ensures var hit := FaultAt(old(redis.faults), 0).Answered?
                         && Live(old(redis.cells), redis.now, Sent(TotalKey));
              redis.cells == if hit || !ok || FaultAt(old(redis.faults), 1).Lost? then old(redis.cells)
                             else TotalFilled(old(redis.cells), redis.now, totalUsers)
      ensures var cached := CachedTotal(old(redis.cells), redis.now);
              var hit := FaultAt(old(redis.faults), 0).Answered? && cached.Some?;
              (hit ==> ok && totalUsers == cached.value) && (ok && !hit ==> totalUsers == |db.rows|)
      ensures ok && old(Coherent()) ==> totalUsers == |db.rows|
      ensures ok ==> requestCount == Requests() || (requestCount == 0 && !old(redis.Reliable()))
      ensures old(Coherent()) ==> Coherent()
      ensures Requests() == old(Requests())
    {
      hide StoreOk, Agrees, Ordered, TotalFilled, Sent, Wire, CString;
      SentText(RequestsKey);
      requestCount := 0;
      ok, totalUsers := ReadTotal();
      if !ok {
        return;
      }
      NeverASet(redis.cells, redis.sets, db.rows, db.resolve);
      var rc := redis.Get(Wire(RequestsKey));
      requestCount := if rc.Some? then ParseInt(rc.value) else 0;
    }

    /** The first half of GetStats: the cached total, or COUNT(*) and backfill. */
    method ReadTotal() returns (ok: bool, totalUsers: Decimal.int64)
      requires Valid()
      modifies redis`faults, redis`cells, redis`sets, db`script, pool`idle, pool`lent, pool`guards, pool.conns
      ensures Valid() && pool.conns == old(pool.conns) && pool.guards == old(pool.guards)
      ensures old(redis.Reliable()) ==> redis.Reliable()
      ensures var hit := FaultAt(old(redis.faults), 0).Answered?
                         && Live(old(redis.cells), redis.now, Sent(TotalKey));
              redis.cells == if hit || !ok || FaultAt(old(redis.faults), 1).Lost? then old(redis.cells)
                             else TotalFilled(old(redis.cells), redis.now, totalUsers)
      ensures old(db.Healthy()) ==> db.Healthy()
      ensures OutcomeAt(old(db.script), 0).Served? ==> ok
      ensures var cached := CachedTotal(old(redis.cells), redis.now);
              var hit := FaultAt(old(redis.faults), 0).Answered? && cached.Some?;
              (hit ==> ok && totalUsers == cached.value) && (ok && !hit ==> totalUsers == |db.rows|)
      ensures ok && old(Coherent()) ==> totalUsers == |db.rows|
      ensures old(Coherent()) ==> Coherent()
      ensures Requests() == old(Requests())
    {
      hide StoreOk, Agrees, Indexed, RequestsIn, NoLists, Ordered, Find, Lookup, TotalFilled, Sent, Wire, CString;
      hide MysqlPool.Accounted, MysqlPool.GuardsOk, MysqlPool.Conserved;
      SentText(TotalKey);
      LaterAdds(redis.faults, 1, 0);
      TotalIsNoSet(redis.cells, redis.sets, db.rows, db.resolve);
      var cached := redis.Get(Wire(TotalKey));
      if cached.Some? {
        if Coherent() {
          TotalHit(redis.cells, redis.sets, redis.now, db.rows);
        }
        return true, ParseInt(cached.value);
      }
      var total := LoadTotal();
      if total.None? {
        return false, 0;
      }
      return true, total.value;
    }

    /** GetStats, the miss: COUNT(*), then the backfill. */
    method LoadTotal() returns (total: Option<Decimal.int64>)
      requires Valid()
      modifies redis`faults, redis`cells, redis`sets, db`script, pool`idle, pool`lent, pool`guards, pool.conns
      ensures Valid() && pool.conns == old(pool.conns) && pool.guards == old(pool.guards)
      ensures redis.faults == Later(old(redis.faults), if total.Some? then 1 else 0)
      ensures redis.cells == if total.None? || FaultAt(old(redis.faults), 0).Lost? then old(redis.cells)
                             else TotalFilled(old(redis.cells), redis.now, total.value)
      ensures redis.sets == old(redis.sets)
      ensures old(db.Healthy()) ==> db.Healthy()
      ensures total.Some? <==> OutcomeAt(old(db.script), 0).Served?
      ensures total.Some? ==> total.value == |db.rows|
      ensures old(Coherent()) ==> Coherent()
      ensures Requests() == old(Requests())
    {
      hide StoreOk, Agrees, Indexed, RequestsIn, NoLists, Ordered, Find, Lookup, TotalFilled, Sent, FaultAt, Later;
      hide MysqlPool.Accounted, MysqlPool.GuardsOk, MysqlPool.Conserved;
      LaterAdds(redis.faults, 0, 0);
      var guard := pool.Acquire();
      total := SelectCount(guard.conn);
      if total.Some? {
        CacheTotal(total.value);
      }
      guard.Destroy();
    }

    /** COUNT(*) and the reading of its single cell. */
    method SelectCount(conn: MysqlConn) returns (total: Option<Decimal.int64>)
      requires conn.Ready() && conn.db == db && Ordered(db.rows)
      modifies conn, db`script
      ensures conn.Ready()
      ensures old(db.Healthy()) ==> db.Healthy()
      ensures db.script == Rest(old(db.script), 1) && (total.Some? <==> OutcomeAt(old(db.script), 0).Served?)
      ensures total.Some? ==> total.value == |db.rows|
    {
      var res := conn.Query(CountAll);
      if res.None? {
        return None;
      }
      CountReadBack(db.rows);
      total := Some(FirstCount(res.value));
    }

    /** The backfill of GetStats. */
    method CacheTotal(total: Decimal.int64)
      requires StoreValid() && total == |db.rows|
      modifies redis`faults, redis`cells, redis`sets
      ensures StoreValid()
      ensures redis.faults == Later(old(redis.faults), 1) && redis.sets == old(redis.sets)
      ensures redis.cells == if FaultAt(old(redis.faults), 0).Lost? then old(redis.cells)
                             else TotalFilled(old(redis.cells), redis.now, total)
      ensures old(Coherent()) ==> Coherent()
      ensures Requests() == old(Requests())
    {
      hide StoreOk, Agrees, Indexed, RequestsIn, NoLists, Ordered, Find, Lookup, Sent, Wire, CString;
      SentText(TotalKey);
      TotalIsNoSet(redis.cells, redis.sets, db.rows, db.resolve);
      TotalPut(redis.cells, redis.sets, redis.now, db.rows, db.resolve);
      var _ := redis.Set(Wire(TotalKey), Digits(Decimal.Text(total)), STATS_CACHE_TTL);
    }
  }
}
