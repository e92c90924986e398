# A cache-aside user service, modelled and proved

The system is a small gRPC server for users. Rows live in MySQL behind a pool of
connections; Redis caches single users (60 s), pages of users (10 s) and the
number of users (30 s), and counts requests. Writers INSERT first, then prime the
new user, delete every list key that an index set names, and delete the cached
number. Readers look in Redis first, then in MySQL, and SET what they found.

The model has two layers.

*One caller at a time.* Classes with the source's own fields and methods:
`RedisClient` (Redis.dfy), `MysqlConn`, `MysqlPool` and `Guard` (Mysql.dfy),
`UserRepository` (UserRepository.dfy), `UserServiceImpl` (UserService.dfy). Every
Redis command and SQL statement may fail as a script of the environment says. The
main results: without failures the service refines a table and a counter, call by
call, under any clock ticks and key losses (`Replay`); a page walk is complete and
free of repetitions although users are created in between (`WalkPages`); every
guard gives its connection back, moved or not (`Acquire`, `Move`, `Destroy`); and
with failures users stay exact.

*Any number of callers.* `PoolProtocol` is the mutex, condition variable and stack
of the pool, one step per lock, test, wait, pop, push, notify and unlock, with
barging and spurious wakeups. `System` runs the repository code of any number of
calls on top of it, one Redis command or SQL exchange per step; a Redis command may
fail with or without having taken effect, a statement may fail, an INSERT may take
effect although it is reported failed, keys with a TTL may vanish, time may pass,
and the process may end at any point and start again on the table and the Redis it
left behind.
`SystemInv` is the invariant and `SystemSteps` and `SystemKept` show that every
step keeps it. `Consistency` has what callers can rely on in every run, `Outcomes`
which kind of answer a call gets and that it fails only when its own SQL does,
`Staleness` how old lists and totals can be, `Progress` deadlock freedom and
termination. `SmoothRun` builds runs in which nothing fails; from them come
`StaleRun`, where invalidation is not enough, and `SharedKey`, where one id is
served another's user. `OneConnection`, `TtlBound` and `SharedKey` then say exactly
when these cannot happen.

`Layers` ties the two together: uninterrupted and without failures, the steps of
`System` do to the cache what the methods of `UserRepository` do, and any state of
`System` is one that the classes can start on.

Shared by both layers: `Decimal` (to_string and strtoll), `Keys`, `Users` (rows and
SELECT), `Json` (the codec), `Prelude`.

## Assumptions

- INSERT is one atomic step: it fails or appends the row verbatim with an id larger
  than all before, gaps allowed. The table is otherwise never written.
- Names and emails hold no NUL. Rows are read back as C strings while CreateUser
  caches the original; `Users.ReadBackExact` says that this condition is exact.
- Each Redis command is atomic. The shared client context of the source is not
  thread-safe (src/store/redis_client.h:23-26), so this idealises it.
- Nobody else writes under the repository's keys. Redis evicts only keys with a TTL.
- `WHERE id='s'` selects by a fixed function of `s` that maps the decimal text of an
  id to that id; what it does on other strings is arbitrary. Ids may hold NULs, and
  cache keys are cut at the first one; where exactness depends on what the function
  makes of such ids, the contract says so (`CacheState.StopsAtNul`,
  `Consistency.OneRowPerKey`). A server that compares ids as numbers stops at a NUL
  as well.
- Printing and parsing JSON text are inverse, and printed text holds no NUL; strings
  are valid UTF-8; cached documents hold no floating-point numbers.
- The clock counts milliseconds and an entry is live up to and including its expiry.
- The pool has at least one connection where a contract says so. `init` accepts a
  smaller pool size (src/store/mysql_pool.cpp:135-152); `Service.Start` and
  `Progress.DeadlockFreeExact` show what that costs.

## Where the code does less than its comments say

- src/store/user_repository.cpp:54-58 calls the deletion of list caches on write
  what guarantees the consistency of lists. With two connections it does not: a
  reader that counted before an INSERT may SET its page after the deletion.
  `StaleRun.GoesStale` gives such a run, without failures, from every start with two
  connections, for lists and for the total of GetStats. With one connection it does:
  a reader then holds the connection from its COUNT to its SADD and a writer from
  its INSERT to its last DEL. `OneConnection.ConsistentExactly` proves that the pool
  size decides: every answer knows of all users created before it was asked for, in
  all runs in which no SMEMBERS, DEL or SADD is lost and the process does not end
  between a SET of a list and its SADD, if and only if the pool has at most one connection. The default is eight
  (src/store/mysql_pool.h:26). For any pool size the age of an answer is bounded
  (`Staleness.ListBoundedStaleness`).
- src/store/user_repository.cpp:22-23 and 73-75 present the TTL as the bound on
  staleness. With two connections it bounds nothing: the TTL counts from the SET, and
  a reader may SET what it counted any time before. `StaleRun.GoesStale` gives, for
  every span of time, a run without failures in which a call arrives that long after
  a CreateUser has returned and is served the table from before it. With one
  connection nobody can INSERT between a reader's COUNT and its SET.
  `TtlBound.TtlBoundsExactly` proves that the pool size decides: in all runs, whatever
  fails and whenever the process ends, every answer is the table's within the call or
  at most the TTL before, if and only if the pool has at most one connection. For any
  pool size `Staleness.ListBoundedStaleness` gives the bound with the fill delay.
- The cache key of GetUser is sent as a C string (src/store/redis_client.cpp:71-86),
  so an id is cut at its first NUL there, and is passed on whole in SQL. Two ids can
  share a key (`Keys.Collision`) and, if the database tells them apart, the second
  request is given the user of the first (`Service.Collide`, `SharedKey.Misleads`);
  GetUser is exact in all runs if and only if the database does not
  (`SharedKey.GetUserExactIff`), and in any case in runs whose requests have no NUL in
  an id (`SharedKey.GetUserExactClean`).
- src/store/redis_client.cpp:108-109 says INCR also makes ids. It does not: ids come
  from the table's AUTO_INCREMENT column.

## Model

| member | source | states |
|---|---|---|
| Decimal.StrtollRoundTrip | src/store/user_repository.cpp:229-238 | printing an integer and reading it back with strtoll returns it if and only if it is an int64, the minimum included |
| Decimal.ReadBack | src/store/user_repository.cpp:39-41 | the number a decimal text starts with is the number that was printed, for integers of any size and sign |
| Decimal.StrtollReads | src/store/user_repository.cpp:187-244 | strtoll skips blanks, reads the longest integer, ignores what follows and saturates at both ends of the 64 bits, given in numbers |
| Keys.KeyTexts | src/store/user_repository.cpp:28-116 | the key texts, literally |
| Keys.ListCacheKeyInjective | src/store/user_repository.cpp:39-41 | two (limit, offset) pairs, negative ones included, have the same key only if they are the same pair |
| Keys.WireInjective | src/store/user_repository.cpp:28-116 | as the repository builds them, user, list, total, counter and index keys never collide, whatever the id string |
| Keys.SentIsCut | src/store/redis_client.cpp:70-72 | what reaches Redis of a key is the key of the id up to its first NUL; all other keys arrive whole |
| Keys.CollideIff | src/store/redis_client.cpp:70-98 | two keys are one key to Redis if and only if they are equal once a user id is cut at its first NUL |
| Keys.SentInjective | src/store/redis_client.cpp:70-98 | keys of different families, and of NUL-free ids, never collide |
| Keys.Collision | src/store/user_repository.cpp:116-148 | the ids 5 and 5, NUL, x share a cache key |
| Keys.OnWireCommutes | src/store/redis_client.cpp:70-100 | GET, SET and DEL under a key as it reaches Redis touch exactly the entry of the cut key, so no write disturbs another family's |
| Users.ReadBackExact | src/store/user_repository.cpp:141-144 | a row read back through C strings is the user CreateUser answered with if and only if name and email hold no NUL |
| Users.FindUnique | src/store/user_repository.cpp:132-133 | an id selects exactly its own row |
| Users.FindStable | src/store/user_repository.cpp:132-133 | an id keeps its answer in every later table |
| Users.PageIsSlice | src/store/user_repository.cpp:190-192 | a page of an earlier table is a contiguous slice of every later one, starts at its offset and fits its limit |
| Users.DisjointPages | src/store/user_repository.cpp:190-192 | pages over disjoint windows share no user, even when read at different times |
| Users.CountFits | src/store/user_repository.cpp:184-187 | a table never has more rows than its last id, so a count fits in an int64 |
| Json.JsonToUser | src/common/json_utils.h:20-25 | sets the four fields in order; throws exactly when one of the four reads throws, and then exactly the fields before that read have been set |
| Json.UserRoundTrip | src/common/json_utils.h:13-25 | decoding what UserToJson wrote gives the same user |
| Json.UserPayload | src/common/json_utils.h:13-16 | the four fields of a cached user, under their names |
| Json.MissingFields | src/common/json_utils.h:20-25 | a missing field reads as empty or 0, and what is no object does not decode |
| Json.ListingRoundTrip | src/store/user_repository.cpp:163-214 | decoding what ListUsers stores gives the same users in the same order and the same total |
| Json.OddPayloads | src/store/user_repository.cpp:163-173 | which payloads that ListUsers never stores count as an empty list and which do not decode |
| Redis.RedisClient.Set | src/store/redis_client.cpp:70-78 | under the key up to its first NUL, writes the value with a TTL in seconds if it is positive and without one otherwise, or leaves everything and reports failure; a failure may still have written |
| Redis.PutLives | src/store/redis_client.cpp:70-72 | a key SET with a TTL of n seconds is seen for n times 1000 ms and no longer, one without for ever |
| Redis.RedisClient.Get | src/store/redis_client.cpp:85-94 | an answered value is the live string under the key up to its first NUL; missing, expired and non-string keys and failures give none |
| Redis.RedisClient.Del | src/store/redis_client.cpp:97-100 | removes the key up to its first NUL or leaves everything and reports failure; deleting a missing key succeeds |
| Redis.RedisClient.Incr | src/store/redis_client.cpp:111-118 | adds one at most, keeping the expiry, and answers the new value; refused for anything but the decimal text of an int64, and at the maximum |
| Redis.IncrementCounts | src/store/redis_client.cpp:111-118 | what INCR leaves is one more and is again something INCR works on |
| Redis.RedisClient.SAdd | src/store/redis_client.cpp:122-125 | adds the member and keeps the others, or changes nothing |
| Redis.RedisClient.SMembers | src/store/redis_client.cpp:136-148 | an answer lists exactly the members of the set, each once |
| Mysql.MysqlConn.Connect | src/store/mysql_pool.cpp:29-55 | success exactly when the handle and the connection come up, then with no error text; a failure leaves it closed |
| Mysql.MysqlConn.Close | src/store/mysql_pool.cpp:59-64 | closes, and may be repeated |
| Mysql.MysqlConn.Execute | src/store/mysql_pool.cpp:68-74 | a successful INSERT appends one row with a fresh larger id, which the handle then remembers; a refused or out-of-sync statement leaves the table alone, and one whose answer is lost has appended its row although it is reported failed |
| Mysql.MysqlConn.Query | src/store/mysql_pool.cpp:81-93 | answers from the table as it is, and leaves a connection that was in sync in sync even when the statement or its result is lost |
| Mysql.MysqlConn.LastInsertId | src/store/mysql_pool.cpp:97 | the id of the row of this connection's last successful INSERT, 0 without one since its last query |
| Mysql.MysqlPool.Dial | src/store/mysql_pool.cpp:136-137 | a fresh connection of its own, ready exactly when the connection attempt succeeds |
| Mysql.MysqlPool.EnsureDatabase | src/store/mysql_pool.cpp:117-132 | the throw-away connection: succeeds exactly when it connects and the database is created, and leaves the pool as it was |
| Mysql.MysqlPool.Adopt | src/store/mysql_pool.cpp:149-150 | a new connection becomes the pool's and idle |
| Mysql.MysqlPool.Init | src/store/mysql_pool.cpp:111-153 | succeeds exactly when the database, every connection and the table come up; then all connections are idle, and there are pool_size of them, none if that is not positive |
| Mysql.MysqlPool.Shutdown | src/store/mysql_pool.cpp:157-161 | empties the pool; afterwards every connection is still accounted for if and only if no live guard holds one |
| Mysql.MysqlPool.Acquire | src/store/mysql_pool.cpp:166-175 | lends the top of the stack to one new guard; every connection is then either idle, once, or held by exactly one live guard |
| Mysql.MysqlPool.Release | src/store/mysql_pool.cpp:178-182 | puts a lent connection back on top and keeps idle duplicate-free, disjoint from what is lent, and both together the pool's connections |
| Mysql.Guard.Move | src/store/mysql_pool.h:140-142 | the connection changes hands, the moved-from guard has none, and every connection is still either idle, once, or held by exactly one live guard |
| Mysql.Guard.Destroy | src/store/mysql_pool.h:145-147 | returns the connection exactly when the guard still has one, which keeps every connection either idle, once, or held by exactly one live guard |
| CacheState.RowAppended | src/store/user_repository.cpp:88-99 | an INSERT keeps every cached user a committed user for its key, expired entries included, and makes the new row findable under its id |
| CacheState.UserPut | src/store/user_repository.cpp:99-147 | a SET of the matching user under any id string disturbs neither users, lists, total nor counter |
| CacheState.UserHit | src/store/user_repository.cpp:116-124 | every live user entry decodes, to a committed user for an id string with that key |
| CacheState.OneBehind | src/store/user_repository.cpp:132-148 | where the server stops at a NUL as the cache keys do, that user is the one the id selects |
| CacheState.ListPut | src/store/user_repository.cpp:214-215 | SET of a page followed by its SADD keeps every live list indexed and equal to the table's answer |
| CacheState.TotalPut | src/store/user_repository.cpp:238 | SET of the counted total keeps lists, users and counter as they were |
| CacheState.TotalDeleted | src/store/user_repository.cpp:101-103 | with no list live, deleting the total makes the whole cache agree with the new table |
| CacheState.EnvironmentMoves | src/store/user_repository.cpp:24-26 | time passing and early loss of keys with a TTL keep the cache in agreement and the counter as it is |
| CacheState.HitIsFresh | src/store/user_repository.cpp:161-173 | in a cache that agrees with the table, a list payload that decodes is the table's answer |
| CacheState.FilledFor | src/store/user_repository.cpp:24-26 | what the backfills store is seen for 60,000 ms (user), 10,000 ms (list) and 30,000 ms (total), and not a millisecond longer |
| Repository.DecodeInto | src/store/user_repository.cpp:163-176 | fills the output user by user; ends without a throw exactly when the whole payload decodes, and then holds what it decodes to |
| Repository.FetchUsers | src/store/user_repository.cpp:196-205 | the row loop turns a fetched page into the users of exactly those rows, in order |
| Repository.UserRepository.CountRequest | src/store/user_repository.cpp:52 | adds one to the counter exactly when the command reaches the server and the counter has room, and keeps the cache in agreement |
| Repository.UserRepository.InvalidateListCache | src/store/user_repository.cpp:59-67 | whatever becomes of each command: all are sent, exactly the listed keys whose DEL arrives are gone, and the index goes whether or not it could be read; without failures no list key is live afterwards if every live one was indexed; never touches the counter |
| Repository.UserRepository.MaintainCache | src/store/user_repository.cpp:99-103 | whatever becomes of each command: all are sent, and each that arrives has its effect (the user primed for 60 s, the listed keys gone, the total gone); without failures the cache agrees with the table; user entries stay right in any case |
| Repository.UserRepository.InsertUser | src/store/user_repository.cpp:86-95 | the answered user is the user of the one row this statement appended; on failure the table is untouched, or has that row if only the answer was lost |
| Repository.UserRepository.CreateUser | src/store/user_repository.cpp:76-107 | on success the table has one more row, the answer is its user and the cache is what the upkeep leaves, whatever became of each command; on failure the cache is untouched, and so is the table unless the INSERT's answer was lost; without failures the cache agrees with the table again; every guard is gone and every connection back |
| Repository.UserRepository.GetUser | src/store/user_repository.cpp:114-150 | whatever Redis commands fail, a found user is a committed one for an id string with the key of the request, hence the selected one where the server stops at a NUL; nobody who is there is missing with SQL up; without failures it is the cached user or else the table's, a miss is backfilled for 60 s and a hit changes nothing |
| Repository.UserRepository.ProbeUser | src/store/user_repository.cpp:116-127 | a hit is what the live entry decodes to, a committed user for that key, and every live entry hits |
| Repository.UserRepository.LoadUser | src/store/user_repository.cpp:130-149 | the table's user, cached under the request string unless that SET is lost; the connection goes back on every path |
| Repository.UserRepository.SelectUser | src/store/user_repository.cpp:132-144 | the user of the matching row, none without one or when the statement fails; the connection is in sync afterwards |
| Repository.UserRepository.CacheUser | src/store/user_repository.cpp:148 | stores the user with its TTL unless the SET is lost, and keeps every user entry right |
| Repository.UserRepository.ListUsers | src/store/user_repository.cpp:156-220 | a success is either what the cached payload decodes to or exactly the fresh page and total, with nothing left over from a payload that failed half-way; in a coherent state it is the table's answer, and the state stays coherent |
| Repository.UserRepository.ProbeListing | src/store/user_repository.cpp:161-177 | a hit is exactly what the live payload decodes to, and every live payload that decodes hits |
| Repository.UserRepository.LoadListing | src/store/user_repository.cpp:180-219 | the fresh page and total; SET and SADD are both sent and each has its effect unless lost; a failure caches nothing |
| Repository.UserRepository.SelectListing | src/store/user_repository.cpp:184-205 | total and page of the table, or none when a statement fails or limit or offset is negative |
| Repository.UserRepository.CacheListing | src/store/user_repository.cpp:208-215 | stores the payload unless the SET is lost, and enters its key in the index unless the SADD is, which without failures keeps the state coherent |
| Repository.UserRepository.GetStats | src/store/user_repository.cpp:225-246 | the total is the table size or what a live cached total says, and the table size in a coherent state; the request count is the counter, or 0 if a Redis command failed |
| Repository.UserRepository.ReadTotal | src/store/user_repository.cpp:227-240 | what a live cached total says, or the table size from COUNT(*), which is then cached for 30 s; fails only if SQL does |
| Repository.UserRepository.LoadTotal | src/store/user_repository.cpp:232-239 | the table size, cached for 30 s unless the SET is lost; the connection goes back on every path |
| Repository.UserRepository.SelectCount | src/store/user_repository.cpp:234-237 | the table size survives its way through decimal text |
| Repository.UserRepository.CacheTotal | src/store/user_repository.cpp:238 | stores the total with its TTL unless the SET is lost, and keeps the state coherent |
| Service.SpecRun | src/grpc_server/user_service.cpp:10-79 | a run of the cache-free store only appends rows with growing ids and answers every call |
| Service.UserServiceImpl.CreateUser | src/grpc_server/user_service.cpp:10-26 | counts one request in any case; INVALID_ARGUMENT if and only if the name is empty; answers like the cache-free store when nothing fails; even with failures a returned user is the user of the row just appended, and without one the table is as it was or has that one row |
| Service.UserServiceImpl.GetUser | src/grpc_server/user_service.cpp:28-44 | counts one request in any case; INVALID_ARGUMENT if and only if the id is empty; without failures the cached user or else the table's, which is what the cache-free store answers where the server stops at a NUL; with SQL up it is then exact whatever Redis does |
| Service.UserServiceImpl.ListUsers | src/grpc_server/user_service.cpp:46-65 | counts one request in any case; a reply is what the live cached payload decodes to or exactly the fresh page and total, the latter in a coherent state, with limit 10 for none and offset 0 for a negative one; with SQL up there is one; answers like the cache-free store when nothing fails |
| Service.UserServiceImpl.GetStats | src/grpc_server/user_service.cpp:67-79 | answers like the cache-free store when nothing fails, and is not counted; whatever fails, a reply gives the table size or the live cached total, and the counter or 0, and with SQL up there is one |
| Service.UserServiceImpl.Environment | src/store/user_repository.cpp:24-26 | clock ticks and early key losses change neither the store that clients see nor its agreement with the cache |
| Service.UserServiceImpl.Replay | src/store/user_repository.cpp:76-246 | refinement: any sequence of calls, ticks and key losses without failures leaves what the cache-free store would hold and answers reply by reply like it, GetUser where the server stops at a NUL when it compares ids; the counter grows by the number of CreateUser, GetUser and ListUsers calls |
| Service.Collide | src/store/user_repository.cpp:116-149 | why that is needed: of two requests whose ids share a key and select differently, the second is given the user of the first |
| Service.UserServiceImpl.WalkPages | src/grpc_server/user_service.cpp:46-65 | walking offsets 0, L, 2L, ... to the first empty page, with any calls in between, lists everyone who was there at the start, nobody twice, in id order |
| Service.Start | src/grpc_server/main.cpp:35-54 | on any table and any Redis that the concurrent model can leave behind, a server starts whenever its connections come up, and meets the contracts of its calls if and only if the pool size is positive |
| Service.StartAfresh | src/grpc_server/main.cpp:35-54 | a new database and an empty Redis are such a start, and agree |
| PoolProtocol.PoolInvKept | src/store/mysql_pool.cpp:166-182 | every lock, test, wait, pop, push, notify, unlock and spurious wakeup of any thread keeps mutual exclusion, conservation and the wakeup bound |
| PoolProtocol.ConservedKept | src/store/mysql_pool.cpp:166-182 | idle stays duplicate-free and disjoint from held connections, no connection has two holders, and idle plus held is exactly the pool's set |
| PoolProtocol.LastReturnedFirst | src/store/mysql_pool.cpp:172-180 | the next thread is lent the connection returned last, and the stack is as it was before the return |
| PoolProtocol.NoLostWakeupKept | src/store/mysql_pool.cpp:171-181 | while anybody sleeps, idle connections are at most as many as threads that are woken, testing or about to notify |
| PoolProtocol.JoinInv | src/store/mysql_pool.cpp:166-167 | a thread that arrives keeps all of this |
| PoolProtocol.ResetInv | src/store/mysql_pool.cpp:135-152 | the pool of a process that starts again satisfies all of this |
| PoolProtocol.IdleBoundedByWoken | src/store/mysql_pool.cpp:171-181 | with the mutex free, sleepers imply at most as many idle connections as woken threads that have not run yet |
| PoolProtocol.SomeoneCanMove | src/store/mysql_pool.cpp:166-182 | while a thread is inside the pool code, some thread there can move or some thread outside holds a connection |
| PoolProtocol.EmptyPoolStarves | src/store/mysql_pool.cpp:135-152 | without connections nobody ever holds one |
| PoolProtocol.ShutdownExact | src/store/mysql_pool.cpp:157-161 | after shutdown every later run of moves and arrivals keeps the idle stack inside the pool's connections if and only if no guard is outstanding |
| System.Work | src/store/user_repository.cpp:52-246 | a step of one thread leaves the clock, the pool, all other threads and all other connections alone, moves its code forward, and leaves its connection in step with its code |
| SystemSteps.InsertOk | src/store/user_repository.cpp:86-88 | the row an INSERT leaves behind for its call is that call's, with its name, email and time |
| SystemSteps.EnumerateOk | src/store/user_repository.cpp:60-65 | the keys that the deletion loop goes through are list keys, whatever the index held |
| SystemSteps.SelectOk | src/store/user_repository.cpp:132-133 | a single-row SELECT is answered from the table of that moment, within the call |
| SystemSteps.CountRowsOk | src/store/user_repository.cpp:184 | a COUNT is answered from the table of that moment, within the call |
| SystemSteps.SelectRowsOk | src/store/user_repository.cpp:190-192 | a page SELECT is answered from the table of that moment, after the count |
| SystemSteps.ReadIdOk | src/store/user_repository.cpp:92-95 | between INSERT and mysql_insert_id nobody else can use the connection, so the id read is the id of the row this call wrote |
| SystemSteps.ProbeOk | src/store/user_repository.cpp:116-229 | a cache hit is the committed row, selected for an id string with the same key, the page and total, or the count that its entry's origin names, read within the entry's TTL |
| SystemSteps.FetchRowOk | src/store/user_repository.cpp:137-144 | the user built from a fetched row is the user of that committed row, or there was none when it was selected |
| SystemSteps.FetchCountOk | src/store/user_repository.cpp:184-187 | the total a call carries is the table size at the moment its COUNT was served |
| SystemSteps.FetchRowsOk | src/store/user_repository.cpp:192-205 | the page a call carries is the table's page at the moment its SELECT was served, no earlier than the count |
| SystemSteps.WorkThreadOk | src/store/user_repository.cpp:52-246 | after any step, with any command failing, what a thread's local variables say about the table is true |
| SystemSteps.WorkCellsOk | src/store/user_repository.cpp:99-238 | after any step every cache entry is what its origin says and expires its TTL after it was set |
| SystemSteps.StepLedger | src/store/user_repository.cpp:88 | rows are only ever appended, with growing ids, and earlier tables stay prefixes |
| SystemKept.StepSessions | src/store/mysql_pool.cpp:68-97 | every step keeps idle connections in sync and gives each held one to its holder alone, on error paths too |
| SystemKept.StepWriters | src/store/user_repository.cpp:88 | a call writes at most one row and every new row has its own call; only list keys enter the index |
| SystemKept.StepOk | src/store/user_repository.cpp:52-246 | every step of every thread and of the environment, the end and restart of the process included, keeps the whole invariant |
| SystemKept.RunInv | src/store/user_repository.cpp:52-246 | the invariant holds in every state of every run |
| Consistency.NoPhantomUser | src/store/user_repository.cpp:99-148 | in every state of every run each user entry is a committed row that matches an id string with that key |
| Consistency.GetUserServed | src/store/user_repository.cpp:114-150 | in every run a found user is the one committed user for an id string that shares its cache key with the request |
| Consistency.GetUserExact | src/store/user_repository.cpp:114-150 | in every run a found user is the one committed user with that id, where ids that share a key select one row |
| Consistency.StoppingSuffices | src/store/user_repository.cpp:132-133 | a server that stops at a NUL when it compares ids selects one row per cache key |
| SharedKey.GetUserExactIff | src/store/user_repository.cpp:116-149 | GetUser is exact in all runs if and only if all non-empty id strings that share a cache key select one row |
| SharedKey.GetUserExactClean | src/store/user_repository.cpp:114-150 | whatever the database makes of NULs, GetUser is exact in every run in which no request has one in its id |
| SharedKey.Misleads | src/store/user_repository.cpp:116-149 | for any two that do not, a run without a failure whose second request is given the wrong user |
| Consistency.MissingMeansAbsent | src/store/user_repository.cpp:137-138 | in every run nobody is reported missing who was there when the call began, unless its own statement failed, which Outcomes.EveryOutcome ties to an unanswered SQL exchange |
| Consistency.CreatedStays | src/store/user_repository.cpp:88-106 | a created user is found under its id in every later state |
| Consistency.ReadYourWrites | src/store/user_repository.cpp:99-150 | a GetUser that starts after CreateUser has returned yields exactly that user unless its own SQL fails (see Outcomes.EveryOutcome), where ids that share a key select one row |
| Consistency.CreatedIsOwnRow | src/store/user_repository.cpp:81-106 | in every interleaving CreateUser answers with id, name, email and time of the row that same call inserted |
| Consistency.RowsOfCalls | src/grpc_server/user_service.cpp:15-20 | every row written by a call of the run has that call's name, which is not empty, and email |
| Consistency.EmptyIsRefused | src/grpc_server/user_service.cpp:15-35 | a CreateUser without a name or a GetUser without an id is only ever turned away, and writes nothing |
| Consistency.OneRowPerCall | src/store/user_repository.cpp:88 | no call inserts twice |
| Consistency.CreatedIdsDiffer | src/store/user_repository.cpp:92 | different successful calls get different ids |
| Consistency.PagesAreWindows | src/store/user_repository.cpp:183-219 | every page, cached or not, is exactly the window of limit rows (10 for none) from offset (0 for a negative one) of a table of the run, a slice of every later table, and its total was counted on a table no larger than the page's |
| Consistency.DisjointWindows | src/grpc_server/user_service.cpp:51-52 | pages over disjoint windows never list the same user, whenever they were answered and wherever from |
| Consistency.ConnectionsExclusive | src/store/mysql_pool.cpp:166-182 | in every state of every run idle plus held is the pool's set, no connection is shared, and idle ones are in sync |
| Consistency.NeverOutOfSync | src/store/mysql_pool.cpp:76-93 | no statement is ever sent on a connection with an unread result set |
| Consistency.ReturnedReady | src/store/mysql_pool.h:145-147 | a connection is in sync whenever its guard returns it |
| Consistency.RequestsConserved | src/grpc_server/user_service.cpp:13-49 | counter plus lost INCRs is the starting counter plus the CreateUser, GetUser and ListUsers calls past their counting step, rejected ones included and GetStats not |
| Consistency.StatsRequests | src/store/user_repository.cpp:243-244 | the request count of GetStats is, if its GET was answered, at some moment of the call the starting counter plus the calls counted by then less the INCRs lost by then, and otherwise 0 |
| Outcomes.FailsIff | src/store/user_repository.cpp:88-235 | in every run a call fails if and only if one of its own SQL exchanges was not answered |
| Outcomes.EveryOutcome | src/grpc_server/user_service.cpp:10-79 | in every run the kind of every answer: failure as above, rejection if and only if the name or the id is empty, and otherwise Created, Found or NoRow, Listed, Totals |
| Outcomes.CreatedOnTime | src/store/user_repository.cpp:78-95 | in every run a created user, and its row, bear the time that the clock gave at the beginning of that very call |
| Staleness.EntryFilled | src/store/user_repository.cpp:214-238 | every list and total entry in any run was SET by a step of a call that had counted and read just what the entry holds, in that order and since it began |
| Staleness.HitInRun | src/store/user_repository.cpp:161-229 | an answer from the cache was found there alive during the call |
| Staleness.ListBoundedStaleness | src/store/user_repository.cpp:156-220 | total and page of a list answer are each exactly the table's at some moment, either within the call or, for a cached answer, as read by a call that SET it at most 10 s before it was hit |
| Staleness.TotalBoundedStaleness | src/store/user_repository.cpp:225-246 | the same for the total of GetStats with 30 s |
| Staleness.ListExactIff | src/store/user_repository.cpp:156-220 | a list answer is the present table's if and only if no INSERT has taken effect since its total was counted; the condition on the configuration is OneConnection.ConsistentExactly |
| Staleness.QuietListsExact | src/store/user_repository.cpp:24-26 | once writes have stopped for 10 s plus the longest fill delay of the run, list answers are exact |
| Staleness.QuietTotalsExact | src/store/user_repository.cpp:24-26 | once writes have stopped for 30 s plus the longest fill delay, totals are exact |
| StaleRun.GoesStale | src/store/user_repository.cpp:54-103 | from every start with two connections, and for every span of time, there is a run without any failure in which a ListUsers or a GetStats arrives that long after a CreateUser has returned and is answered with the table from before it |
| OneConnection.OneHolder | src/store/mysql_pool.cpp:166-182 | with one connection, only one call at a time is between its acquire and the end of its guard |
| OneConnection.StepKeepsOne | src/store/user_repository.cpp:59-215 | with one connection, no SMEMBERS, DEL or SADD lost and no end of the process between a SET of a list and its SADD, every step keeps: each list entry is indexed or about to be, a writer has every list entry still ahead of its loop, and each list and total was counted after the rows of all calls that have deleted it |
| OneConnection.RunOne | src/store/user_repository.cpp:59-215 | this holds in every state of every such run |
| OneConnection.OneSuffices | src/store/user_repository.cpp:156-246 | in every such run each list and each total was counted, and each page read, on a table with every user created before the call arrived |
| OneConnection.TwoDoNot | src/store/user_repository.cpp:54-103 | with two connections some run without a failure violates this |
| OneConnection.ConsistentExactly | src/store/user_repository.cpp:54-103 | deletion on write keeps lists, and likewise totals, consistent in all runs in which no SMEMBERS, DEL or SADD is lost and the process does not end between a SET of a list and its SADD, whatever else fails or expires, if and only if the pool has at most one connection |
| TtlBound.StepKeepsPresent | src/store/user_repository.cpp:183-238 | with one connection, every step, whatever fails and even the end of the process, keeps: whoever is going to SET a list or a total has counted the present table, and whoever has read a page has read it from the table it counted |
| TtlBound.RunPresent | src/store/user_repository.cpp:183-238 | this holds in every state of every run |
| TtlBound.OneIsRecent | src/store/user_repository.cpp:156-246 | in every such run each list, and each total of GetStats, is what the table said within the call or at most 10 s, respectively 30 s, before a moment of the call |
| TtlBound.TwoAreNot | src/store/user_repository.cpp:22-26 | with two connections some run without a failure has an answer that is older |
| TtlBound.TtlBoundsExactly | src/store/user_repository.cpp:22-26 | the TTL bounds the age of lists, and likewise of totals, in all runs, whatever fails or expires and whenever the process ends, if and only if the pool has at most one connection |
| Progress.SomeStep | src/store/user_repository.cpp:81-232 | while a call is pending and the pool has a connection, some thread can step |
| Progress.DeadlockFreeExact | src/store/mysql_pool.cpp:135-152 | a server never gets stuck, in any run, if and only if its pool has a connection |
| Progress.EmptyPoolSticks | src/store/mysql_pool.cpp:166-171 | with an empty pool a single GetStats that misses the cache sleeps for ever |
| Progress.NoWakeupLost | src/store/mysql_pool.cpp:171-181 | in every state of every run of the whole server sleepers face at most as many idle connections as threads on their way to them |
| Progress.OwnStepCloser | src/store/user_repository.cpp:52-246 | every step a thread takes on its own lowers a lexicographic measure: work left, keys left to delete, attempts to acquire |
| Progress.Settles | src/store/user_repository.cpp:52-246 | without new calls and spurious wakeups, threads take only finitely many steps, whatever the environment does |
| Progress.EveryCallEnds | src/store/user_repository.cpp:76-246 | with a connection in the pool, no restart and a scheduler that lets some thread step when one can, all calls are answered from some state on |
| Layers.ProbeOnWire | src/store/user_repository.cpp:116-227 | a call of the concurrent model reads the same entry, and decodes the same payload, as the class does under the key as it reaches Redis |
| Layers.CountOnWire | src/store/user_repository.cpp:52 | the counting step of the concurrent model is the class's INCR |
| Layers.FillUserOnWire | src/store/user_repository.cpp:148 | the backfill step of GetUser in the concurrent model is the class's SET |
| Layers.FillListOnWire | src/store/user_repository.cpp:214 | the backfill step of ListUsers in the concurrent model is the class's SET |
| Layers.FillTotalOnWire | src/store/user_repository.cpp:238 | the backfill step of GetStats in the concurrent model is the class's SET |
| Layers.IndexListOnWire | src/store/user_repository.cpp:215 | the SADD step of the concurrent model is the class's SADD |
| Layers.UpkeepOnWire | src/store/user_repository.cpp:99-103 | the cache steps of CreateUser in the concurrent model, uninterrupted and applied, leave exactly the cache that the class's method leaves, and no index |
| Layers.StoreOnWire | src/store/user_repository.cpp:99-215 | whatever interleaving and failures came before, the table and Redis are at any time as a server requires of what it starts on |

## Left out

- The gateway, its controller and client, nginx, configuration and command-line
  parsing: plumbing without state of its own.
- Protobuf messages and generated code: replaced by datatypes.
- SQL text and `MysqlConn::escape`: statements are values and string parameters
  arrive intact.
- The data race on the shared Redis client context: undefined behaviour.
- Reconnection, error texts, and the unused commands EXISTS, SREM and SCARD.
- Monotonicity of `created_at`: the wall clock is arbitrary.
- Fairness between threads: `Progress.EveryCallEnds` says that all calls end, not
  which one comes first.
- An offset larger than the source's 32-bit int: offsets and limits are unbounded in
  the model, and nothing is computed from them but keys and pages.
- Service.UserServiceImpl.GetStats: with Redis failures the count it answers may be
  0, as in the source; `Consistency.StatsRequests` says what it is otherwise.
- PoolProtocol.ShutdownExact: connections are names here, so a connection returned
  after shutdown is outside the pool; that the source has freed it, and what using it
  would then do, is not modelled.
- OneConnection.ConsistentExactly: speaks of starts with cold caches and of runs in
  which the process does not end between the SET of a list and its SADD; if it does,
  it leaves an entry that no writer deletes, which then ages as `TtlBound` and
  `Staleness` say.
- System.Work: the row's contract is about what a step leaves alone; what each step
  does to its own thread and to the cache is in the lemmas of SystemSteps, Outcomes and
  Layers.
