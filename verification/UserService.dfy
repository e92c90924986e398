/**
 The RPC layer (src/grpc_server/user_service.cpp), its cache-free
 specification, and whole sequences of calls.
 */
module Service {
  import opened Prelude
  import opened Users
  import opened Json
  import opened Redis
  import opened Mysql
  import opened Repository
  import opened CacheState
  import opened Keys
  import Decimal

  /** A gRPC status together with the reply message it comes with. */
  datatype Reply =
    | InvalidArgument
    | Internal
    | NotFound
    | OneUser(user: User)
    | ManyUsers(listing: Listing)
    | Counts(totalUsers: int, requestCount: int)
    | Nothing

  const DEFAULT_LIMIT: nat := 10

  function PageLimit(limit: int): nat {
    if limit > 0 then limit else DEFAULT_LIMIT
  }

  function PageOffset(offset: int): nat {
    if offset > 0 then offset else 0
  }

  // ---------- The specification: a table and a counter, no cache ----------

  datatype Store = Store(rows: seq<Row>, requests: int)

  function Counted(st: Store): Store {
    if st.requests < Decimal.INT64_MAX then st.(requests := st.requests + 1) else st
  }

  /**
   One RPC, or one event of the environment between RPCs.  `gap` is how many ids
   the server skips, `stamp` the wall clock.
   */
  datatype Op =
    | Create(name: string, email: string, stamp: Decimal.int64, gap: nat)
    | Fetch(id: string)
    | Browse(limit: int, offset: int)
    | Stats
    | Wait(ms: nat)
    | Expire(key: string)

  predicate TextClean(op: Op) {
    op.Create? ==> NulFree(op.name) && NulFree(op.email)
  }

  /** What a store without a cache does. */
  function SpecStep(st: Store, op: Op, resolve: string -> nat): (r: (Store, Reply))
    requires Ordered(st.rows)
    ensures Ordered(r.0.rows) && st.rows <= r.0.rows
  {
    match op
    case Create(name, email, stamp, gap) =>
      var row := Row(LastId(st.rows) + 1 + gap, name, email, stamp);
      if name == "" then (Counted(st), InvalidArgument)
      else if row.id > Decimal.INT64_MAX then (Counted(st), Internal)
      else (Counted(st).(rows := st.rows + [row]), OneUser(UserOf(row)))
    case Fetch(id) =>
      var reply := if id == "" then InvalidArgument
                   else match Lookup(st.rows, resolve(id)) case Some(u) => OneUser(u) case None => NotFound;
      (Counted(st), reply)
    case Browse(limit, offset) =>
      (Counted(st), ManyUsers(FreshListing(st.rows, PageLimit(limit), PageOffset(offset))))
    case Stats => (st, Counts(|st.rows|, st.requests))
    case Wait(_) => (st, Nothing)
    case Expire(_) => (st, Nothing)
  }

  function SpecRun(st: Store, ops: seq<Op>, resolve: string -> nat): (r: (Store, seq<Reply>))
    requires Ordered(st.rows)
    ensures Ordered(r.0.rows) && st.rows <= r.0.rows && |r.1| == |ops|
  {
    if ops == [] then (st, [])
    else
      var (st1, replies) := SpecRun(st, ops[..|ops| - 1], resolve);
      var (st2, reply) := SpecStep(st1, ops[|ops| - 1], resolve);
      (st2, replies + [reply])
  }

  /** How many of the operations are RPCs that count as requests. */
  function CountedOps(ops: seq<Op>): nat {
    if ops == [] then 0
    else
      var last := ops[|ops| - 1];
      CountedOps(ops[..|ops| - 1]) + (if last.Create? || last.Fetch? || last.Browse? then 1 else 0)
  }

  // ---------- The service ----------

  /** Moves the users into the reply one by one. */
  method CopyUsers(users: seq<User>) returns (copy: seq<User>)
    ensures copy == users
  {
    copy := [];
    for i := 0 to |users|
      invariant copy == users[..i]
    {
      copy := copy + [users[i]];
    }
  }

  class UserServiceImpl {
    const repo: UserRepository
    const redis: RedisClient
    const db: Database
    const pool: MysqlPool

    constructor (repo: UserRepository)
      ensures this.repo == repo && redis == repo.redis && db == repo.db && pool == repo.pool
    {
      this.repo := repo;
      redis, db, pool := repo.redis, repo.db, repo.pool;
    }

    ghost predicate Valid()
      reads this, repo, pool, pool.conns, pool.guards, redis, db
    {
      redis == repo.redis && db == repo.db && pool == repo.pool && repo.Valid()
    }

    /** No command has failed so far and none is going to. */
    ghost predicate Faultless()
      reads this, repo, pool, pool.conns, pool.guards, redis, db
    {
      Valid() && repo.Coherent() && redis.Reliable() && db.Healthy()
    }

    /** The cache-free store this service stands for. */
    function Abstract(): Store
      reads this, repo, redis, db
      requires redis == repo.redis && db == repo.db
    {
      Store(db.rows, repo.Requests())
    }

    method CreateUser(name: string, email: string, stamp: Decimal.int64) returns (reply: Reply)
      requires Valid() && NulFree(name) && NulFree(email)
      modifies redis`faults, redis`cells, redis`sets, db, pool`idle, pool`lent, pool`guards, pool.conns
      ensures Valid() && pool.conns == old(pool.conns) && pool.guards == old(pool.guards)
      ensures repo.Requests() == old(repo.Requests())
                                 + (if OneMore(old(repo.Requests()), old(redis.faults)) then 1 else 0)
      ensures name == "" <==> reply.InvalidArgument?
      ensures name != "" ==> reply.OneUser? || reply.Internal?
      ensures reply.OneUser? <==>
                && name != "" && OutcomeAt(old(db.script), 0).Served?
                && LastId(old(db.rows)) + 1 + old(db.NextGap()) <= Decimal.INT64_MAX
      ensures reply.OneUser? ==>
                name != "" && |db.rows| == |old(db.rows)| + 1 && old(db.rows) < db.rows
                && reply.user == UserOf(db.rows[|old(db.rows)|])
                && db.rows[|old(db.rows)|] == Row(LastId(old(db.rows)) + 1 + old(db.NextGap()), name, email, stamp)
      ensures !reply.OneUser? ==>
                || db.rows == old(db.rows)
                || (&& name != "" && !old(db.Healthy())
                    && db.rows
                       == old(db.rows) + [Row(LastId(old(db.rows)) + 1 + old(db.NextGap()), name, email, stamp)])
      ensures old(Faultless()) ==>
                && Faultless()
                && (Abstract(), reply)
                   == SpecStep(old(Abstract()), Create(name, email, stamp, old(db.NextGap())), db.resolve)
    {
      hide StoreOk, Agrees, Ordered, RequestsIn, Sent, Increment, MysqlPool.Accounted, MysqlPool.GuardsOk;
      hide MysqlPool.Conserved;
      repo.CountRequest();
      if name == "" {
        return InvalidArgument;
      }
      var user := repo.CreateUser(name, email, stamp);
      if user.None? {
        return Internal;
      }
      reply := OneUser(user.value);
    }

    method GetUser(id: string) returns (reply: Reply)
      requires Valid()
      modifies redis`faults, redis`cells, redis`sets, db`script, pool`idle, pool`lent, pool`guards, pool.conns
      ensures Valid() && pool.conns == old(pool.conns) && pool.guards == old(pool.guards)
      ensures repo.Requests() == old(repo.Requests())
                                 + (if OneMore(old(repo.Requests()), old(redis.faults)) then 1 else 0)
      ensures id == "" <==> reply.InvalidArgument?
      ensures id != "" ==> reply.OneUser? || reply.NotFound?
      ensures reply.OneUser? ==> UserBehind(reply.user, db.rows, db.resolve, id)
      ensures reply.NotFound? && OutcomeAt(old(db.script), 0).Served? ==> Lookup(db.rows, db.resolve(id)).None?
      ensures OutcomeAt(old(db.script), 0).Served? && id != "" && StopsAtNul(db.resolve) ==>
                reply == match Lookup(db.rows, db.resolve(id)) case Some(u) => OneUser(u) case None => NotFound
      ensures old(Faultless()) && id != "" ==>
                reply == match CachedUser(old(redis.cells), redis.now, id)
                         case Ok(u) => OneUser(u)
                         case Thrown => (match Lookup(db.rows, db.resolve(id))
                                         case Some(u) => OneUser(u)
                                         case None => NotFound)
      ensures old(Faultless()) ==>
                Faultless() && Abstract() == SpecStep(old(Abstract()), Fetch(id), db.resolve).0
      ensures old(redis.Reliable()) && reply.OneUser? ==> CachedUser(redis.cells, redis.now, id) == Ok(reply.user)
      ensures old(Faultless()) && StopsAtNul(db.resolve) ==>
                reply == SpecStep(old(Abstract()), Fetch(id), db.resolve).1
    {
      hide StoreOk, Agrees, Ordered, RequestsIn, Sent, Increment, CachedUser, UserBehind, StopsAtNul, Lookup;
      repo.CountRequest();
      CountedElsewhere(old(redis.cells), redis.now, id);
      if id == "" {
        return InvalidArgument;
      }
      var user := repo.GetUser(id);
      if user.None? {
        return NotFound;
      }
      reply := OneUser(user.value);
    }

    method ListUsers(limit: int, offset: int) returns (reply: Reply)
      requires Valid()
      modifies redis`faults, redis`cells, redis`sets, db`script, pool`idle, pool`lent, pool`guards, pool.conns
      ensures Valid() && pool.conns == old(pool.conns) && pool.guards == old(pool.guards)
      ensures repo.Requests() == old(repo.Requests())
                                 + (if OneMore(old(repo.Requests()), old(redis.faults)) then 1 else 0)
      ensures reply.ManyUsers? || reply.Internal?
      ensures reply.ManyUsers? ==>
                var size, start := if limit > 0 then limit else 10, if offset > 0 then offset else 0;
                var users := UsersOf(Page(db.rows, size, start));
                && (|| (reply.listing.users == users && reply.listing.total == |db.rows|)
                    || Ok(reply.listing) == CachedListing(old(redis.cells), redis.now, size, start))
                && (old(repo.Coherent()) ==> reply.listing.users == users && reply.listing.total == |db.rows|)
      ensures BothServed(old(db.script)) ==> reply.ManyUsers?
      ensures old(Faultless()) ==>
                Faultless() && (Abstract(), reply) == SpecStep(old(Abstract()), Browse(limit, offset), db.resolve)
    {
      hide StoreOk, Agrees, Ordered, RequestsIn, CachedListing, FreshListing, Lookup, NulFreeRows, Sent, Increment;
      hide MysqlPool.Accounted, MysqlPool.GuardsOk, MysqlPool.Conserved;
      repo.CountRequest();
      CountedOffLists(old(redis.cells), redis.now, PageLimit(limit), PageOffset(offset));
      var out := new ListingBuffer();
      PageOf(db.rows, PageLimit(limit), PageOffset(offset));
      var ok := repo.ListUsers(PageLimit(limit), PageOffset(offset), out);
      if !ok {
        return Internal;
      }
      var users := CopyUsers(out.users);
      reply := ManyUsers(Listing(users, out.total));
    }

    method GetStats() returns (reply: Reply)
      requires Valid()
      modifies redis`faults, redis`cells, redis`sets, db`script, pool`idle, pool`lent, pool`guards, pool.conns
      ensures Valid() && pool.conns == old(pool.conns) && pool.guards == old(pool.guards)
      ensures reply.Counts? || reply.Internal?
      ensures reply.Counts? ==>
                || reply.totalUsers == |db.rows|
                || Some(reply.totalUsers) == CachedTotal(old(redis.cells), redis.now)
      ensures reply.Counts? && old(repo.Coherent()) ==> reply.totalUsers == |db.rows|
      ensures reply.Counts? ==>
                reply.requestCount == repo.Requests() || (reply.requestCount == 0 && !old(redis.Reliable()))
      ensures repo.Requests() == old(repo.Requests())
      ensures OutcomeAt(old(db.script), 0).Served? ==> reply.Counts?
      ensures old(Faultless()) ==>
                Faultless() && (Abstract(), reply) == SpecStep(old(Abstract()), Stats, db.resolve)
    {
      hide StoreOk, Agrees, Ordered, RequestsIn, Sent, TotalFilled, CachedTotal;
      hide MysqlPool.Accounted, MysqlPool.GuardsOk, MysqlPool.Conserved;
      var ok, totalUsers, requestCount := repo.GetStats();
      if !ok {
        return Internal;
      }
      reply := Counts(totalUsers, requestCount);
    }

    /** Time passing, and early loss of expiring keys, never show in an answer. */
    method Environment(op: Op)
      requires Faultless() && (op.Wait? || op.Expire?)
      modifies redis`now, redis`cells
      ensures Faultless() && Abstract() == old(Abstract())
    {
      hide StoreOk, Agrees, Ordered, RequestsIn;
      EnvironmentMoves(redis.cells, redis.sets, redis.now, db.rows, db.resolve, if op.Expire? then op.key else "",
                       redis.now + (if op.Wait? then op.ms else 0));
      if op.Wait? {
        redis.Advance(op.ms);
      } else {
        redis.Evict(op.key);
      }
    }

    method Perform(op: Op) returns (reply: Reply)
      requires Faultless() && TextClean(op)
      modifies redis, db, pool`idle, pool`lent, pool`guards, pool.conns
      ensures Faultless() && pool.conns == old(pool.conns) && pool.guards == old(pool.guards)
      ensures old(repo.Requests()) + CountedOps([op]) <= Decimal.INT64_MAX ==>
                repo.Requests() == old(repo.Requests()) + CountedOps([op])
      ensures Abstract() == SpecStep(old(Abstract()), op, db.resolve).0
      ensures !op.Fetch? || StopsAtNul(db.resolve) ==> reply == SpecStep(old(Abstract()), op, db.resolve).1
    {
      hide StoreOk, Agrees, Ordered, RequestsIn, StopsAtNul;
      match op {
        case Create(name, email, stamp, gap) =>
          db.script := [Served(gap)];
          reply := CreateUser(name, email, stamp);
        case Fetch(id) =>
          reply := GetUser(id);
        case Browse(limit, offset) =>
          reply := ListUsers(limit, offset);
        case Stats =>
          reply := GetStats();
        case _ =>
          Environment(op);
          reply := Nothing;
      }
    }

    /**
     Refinement: without Redis or SQL failures, any sequence of calls with any
     clock ticks and key losses in between leaves what the cache-free store
     would hold and answers like it; of GetUser only where the server stops at a
     NUL as the cache keys do.
     */
    method Replay(ops: seq<Op>) returns (replies: seq<Reply>)
      requires Faultless()
      requires forall i :: 0 <= i < |ops| ==> TextClean(ops[i])
      modifies redis, db, pool`idle, pool`lent, pool`guards, pool.conns
      ensures Faultless() && pool.guards == old(pool.guards)
      ensures old(repo.Requests()) + CountedOps(ops) <= Decimal.INT64_MAX ==>
                repo.Requests() == old(repo.Requests()) + CountedOps(ops)
      ensures Abstract() == SpecRun(old(Abstract()), ops, db.resolve).0 && |replies| == |ops|
      ensures forall i :: 0 <= i < |ops| && (!ops[i].Fetch? || StopsAtNul(db.resolve)) ==>
                replies[i] == SpecRun(old(Abstract()), ops, db.resolve).1[i]
    {
      hide StoreOk, Agrees, Ordered, RequestsIn, StopsAtNul, SpecStep;
      replies := [];
      for i := 0 to |ops|
        invariant Faultless() && pool.conns == old(pool.conns) && pool.guards == old(pool.guards)
        invariant old(repo.Requests()) + CountedOps(ops[..i]) <= Decimal.INT64_MAX ==>
                    repo.Requests() == old(repo.Requests()) + CountedOps(ops[..i])
        invariant Abstract() == SpecRun(old(Abstract()), ops[..i], db.resolve).0 && |replies| == i
        invariant forall k :: 0 <= k < i && (!ops[k].Fetch? || StopsAtNul(db.resolve)) ==>
                    replies[k] == SpecRun(old(Abstract()), ops[..i], db.resolve).1[k]
      {
        var reply := Perform(ops[i]);
        replies := replies + [reply];
        assert ops[..i + 1][..i] == ops[..i];
      }
      assert ops[..|ops|] == ops;
    }

    /**
     Page walk: offsets 0, limit, 2 * limit, ... until an empty page, with any
     calls, ticks and key losses between two pages.  `pos[i]` is the table
     position of collected user i: positions only grow, so nobody is listed
     twice and the order is the id order, and everyone who was there at the
     start is listed, first.
     */
    method WalkPages(limit: int, between: seq<seq<Op>>) returns (collected: seq<User>, ghost pos: seq<nat>)
      requires Faultless() && limit > 0
      requires forall k, i :: 0 <= k < |between| && 0 <= i < |between[k]| ==> TextClean(between[k][i])
      modifies redis, db, pool`idle, pool`lent, pool`guards, pool.conns
      ensures Faultless() && old(db.rows) <= db.rows
      ensures IsSelection(db.rows, collected, pos)
      ensures StartsWithAll(|old(db.rows)|, pos)
    {
      hide StoreOk, Agrees, RequestsIn, FreshListing, SpecRun, Walked, IsSelection, StartsWithAll;
      ghost var start := db.rows;
      WalkBegins(start);
      collected, pos := [], [];
      var k, offset := 0, 0;
      while true
        invariant Faultless() && pool.conns == old(pool.conns) && pool.guards == old(pool.guards)
        invariant 0 <= k && 0 <= offset
        invariant Walked(start, db.rows, collected, pos, offset)
        decreases if k < |between| then |between| - k else 0, if offset < |db.rows| then |db.rows| - offset else 0
      {
        var reply := ListUsers(limit, offset);
        var page := reply.listing.users;
        PageOf(db.rows, limit, offset);
        if page == [] {
          WalkEnds(start, db.rows, collected, pos, offset);
          break;
        }
        WalkedPage(start, db.rows, collected, pos, limit, offset);
        collected := collected + page;
        pos := pos + Positions(db.rows, limit, offset);
        offset := offset + limit;
        ghost var rows := db.rows;
        if k < |between| {
          var _ := Replay(between[k]);
          WalkedLater(start, rows, db.rows, collected, pos, offset);
        }
        k := k + 1;
      }
    }
  }

  /**
   Start of the server on a database and a Redis as an earlier process left
   them: pool, repository, service.  A server that starts meets what the calls
   above ask for exactly when its pool was given a connection: with a pool size
   of 0 or less it starts all the same.
   */
  method Start(db: Database, redis: RedisClient, poolSize: int, attempt: int -> bool, statement: int -> bool,
               redisUp: bool)
      returns (service: UserServiceImpl?)
    requires Ordered(db.rows) && StoreOk(redis.cells, redis.sets, db.rows, db.resolve)
    ensures service != null ==>
              && service.redis == service.repo.redis == redis && service.db == service.repo.db == db
              && (service.Valid() <==> poolSize > 0)
              && (service.Faultless() <==>
                    && poolSize > 0 && redis.Reliable() && db.Healthy()
                    && Agrees(redis.cells, redis.sets, redis.now, db.rows))
              && service.Abstract() == Store(db.rows, RequestsIn(redis.cells, redis.now))
    ensures service != null <==>
              && redisUp && attempt(-1) && statement(-1)
              && (forall i :: 0 <= i < poolSize ==> attempt(i)) && (poolSize > 0 ==> statement(0))
  {
    hide StoreOk, Agrees, RequestsIn;
    var pool := new MysqlPool(db);
    var ok := pool.Init(poolSize, attempt, statement);
    if !ok || !redisUp {
      return null;
    }
    var repo := new UserRepository(pool, redis);
    service := new UserServiceImpl(repo);
  }

  /** A new database and an empty Redis are such, and agree. */
  method StartAfresh(resolve: string -> nat) returns (db: Database, redis: RedisClient)
    requires Resolves(resolve)
    ensures Ordered(db.rows) && StoreOk(redis.cells, redis.sets, db.rows, db.resolve) && db.resolve == resolve
    ensures Agrees(redis.cells, redis.sets, redis.now, db.rows) && redis.Reliable() && db.Healthy()
  {
    db := new Database(resolve, []);
    redis := new RedisClient([]);
  }

  /**
   Two id strings with one cache key and two answers: whoever asks second is
   given the user of the first.
   */
  method Collide(service: UserServiceImpl, id: string, other: string) returns (first: Reply, second: Reply)
    requires service.Faultless() && id != "" && other != "" && CString(id) == CString(other)
    requires Lookup(service.db.rows, service.db.resolve(id)).Some?
    requires Lookup(service.db.rows, service.db.resolve(other)) != Lookup(service.db.rows, service.db.resolve(id))
    requires !Live(service.redis.cells, service.redis.now, Sent(UserKey(id)))
    modifies service.redis`faults, service.redis`cells, service.redis`sets, service.db`script
    modifies service.pool`idle, service.pool`lent, service.pool`guards, service.pool.conns
    ensures first == second == OneUser(Lookup(service.db.rows, service.db.resolve(id)).value)
    ensures second != SpecStep(service.Abstract(), Fetch(other), service.db.resolve).1
  {
    hide StoreOk, Agrees, Ordered, RequestsIn, Lookup, UserBehind, Sent, StopsAtNul;
    first := service.GetUser(id);
    CollideIff(UserKey(id), UserKey(other));
    second := service.GetUser(other);
  }

  /** `users` are the users at the positions `pos` of the table, which only grow. */
  ghost predicate IsSelection(rows: seq<Row>, users: seq<User>, pos: seq<nat>) {
    && |users| == |pos|
    && (forall i :: 0 <= i < |pos| ==> pos[i] < |rows| && users[i] == UserOf(rows[pos[i]]))
    && (forall i, j :: 0 <= i < j < |pos| ==> pos[i] < pos[j])
  }

  ghost function Positions(rows: seq<Row>, limit: nat, offset: nat): seq<nat> {
    seq(|Page(rows, limit, offset)|, i => offset + i)
  }

  /** The first n positions are 0, 1, ..., n - 1. */
  ghost predicate StartsWithAll(n: nat, pos: seq<nat>) {
    |pos| >= n && forall i :: 0 <= i < n ==> pos[i] == i
  }

  /** Progress of a walk that began on the table `start` and is about to ask for `offset`. */
  ghost predicate Walked(start: seq<Row>, rows: seq<Row>, users: seq<User>, pos: seq<nat>, offset: nat) {
    && start <= rows
    && IsSelection(rows, users, pos)
    && (forall i :: 0 <= i < |pos| ==> pos[i] < offset)
    && (offset <= |start| ==> |pos| == offset)
    && StartsWithAll(Min(offset, |start|), pos)
  }

  lemma WalkBegins(start: seq<Row>)
    ensures Walked(start, start, [], [], 0)
  {
  }

  lemma PageOf(rows: seq<Row>, limit: nat, offset: nat)
    requires Ordered(rows)
    ensures FreshListing(rows, limit, offset).users == UsersOf(Page(rows, limit, offset))
    ensures FreshListing(rows, limit, offset).total == |rows|
    ensures limit > 0 ==> (Page(rows, limit, offset) == [] <==> |rows| <= offset)
  {
  }

  lemma WalkEnds(start: seq<Row>, rows: seq<Row>, users: seq<User>, pos: seq<nat>, offset: nat)
    requires Walked(start, rows, users, pos, offset) && |rows| <= offset
    ensures start <= rows && IsSelection(rows, users, pos) && StartsWithAll(|start|, pos)
  {
  }

  lemma WalkedPage(start: seq<Row>, rows: seq<Row>, users: seq<User>, pos: seq<nat>, limit: nat, offset: nat)
    requires Walked(start, rows, users, pos, offset)
    ensures Walked(start, rows, users + UsersOf(Page(rows, limit, offset)), pos + Positions(rows, limit, offset),
                offset + limit)
  {
  }

  lemma WalkedLater(start: seq<Row>, rows: seq<Row>, later: seq<Row>, users: seq<User>, pos: seq<nat>, offset: nat)
    requires Walked(start, rows, users, pos, offset) && rows <= later
    ensures Walked(start, later, users, pos, offset)
  {
  }
}
