/**
 The database server, one client connection, the connection pool and its
 guard (src/store/mysql_pool.h, src/store/mysql_pool.cpp), as one thread sees
 them.  Waiting and waking of several threads is in PoolProtocol.
 */
module Mysql {
  import opened Prelude
  import opened Users
  import Decimal

  datatype Statement =
    | CreateDatabase
    | CreateTable
    | Insert(name: string, email: string, createdAt: Decimal.int64)
    | CountAll
    | SelectById(id: string)
    | SelectPage(limit: int, offset: int)

  /**
   What becomes of a coming statement: served (an INSERT then skips `gap` ids),
   refused by the server, or served with its answer lost on the way.
   */
  datatype Outcome = Served(gap: nat) | Refused | ResultLost(gap: nat)

  /** What becomes of the i-th coming statement; none listed means served. */
  function OutcomeAt(script: seq<Outcome>, i: nat): Outcome {
    if i < |script| then script[i] else Served(0)
  }

  /** What is in store after n statements. */
  function Rest(script: seq<Outcome>, n: nat): seq<Outcome> {
    if n <= |script| then script[n..] else []
  }

  lemma RestAdds(script: seq<Outcome>, n: nat, m: nat)
    ensures OutcomeAt(Rest(script, n), m) == OutcomeAt(script, n + m)
    ensures Rest(script, 0) == script
  {
  }

  type ResultSet = seq<seq<string>>

  class Database {
    var rows: seq<Row>
    /** Coming statement outcomes, in order; none listed means all are served. */
    var script: seq<Outcome>
    /** The id that `WHERE id='s'` compares equal to, 0 for none. */
    const resolve: string -> nat

    constructor (resolve: string -> nat, script: seq<Outcome>)
      ensures rows == [] && this.resolve == resolve && this.script == script
    {
      rows := [];
      this.resolve := resolve;
      this.script := script;
    }

    /** No coming statement fails. */
    predicate Healthy()
      reads this
    {
      forall i :: 0 <= i < |script| ==> script[i].Served?
    }

    /** How many ids the next INSERT skips. */
    function NextGap(): nat
      reads this
    {
      if script != [] && !script[0].Refused? then script[0].gap else 0
    }

    method NextOutcome() returns (o: Outcome)
      modifies this`script
      ensures o == OutcomeAt(old(script), 0) && script == Rest(old(script), 1)
      ensures old(Healthy()) ==> Healthy() && o.Served?
    {
      if script == [] {
        o := Served(0);
      } else {
        o := script[0];
        script := script[1..];
      }
    }
  }

  /** The rows a SELECT answers with, as text columns; LIMIT and OFFSET may not be negative. */
  function Answer(rows: seq<Row>, resolve: string -> nat, q: Statement): Option<ResultSet> {
    match q
    case CountAll => Some([[Decimal.Text(|rows|)]])
    case SelectById(id) =>
      (match Find(rows, resolve(id))
       case Some(i) => Some([Fields(rows[i])])
       case None => Some([]))
    case SelectPage(limit, offset) =>
      if limit < 0 || offset < 0 then None
      else
        var page := Page(rows, limit, offset);
        Some(seq(|page|, i requires 0 <= i < |page| => Fields(page[i])))
    case _ => None
  }

  class MysqlConn {
    const db: Database
    /** mysql_ is not null. */
    var open: bool
    /** The server has an answer that the client has not read yet. */
    var unread: bool
    var insertId: nat
    var err: string
    /** The row of the last INSERT that succeeded, until the next query. */
    ghost var inserted: Option<Row>

    constructor (db: Database)
      ensures !open && !unread && this.db == db && inserted.None? && Remembers()
    {
      this.db := db;
      open, unread, insertId, err := false, false, 0, "";
      inserted := None;
    }

    /** The handle has the id of the row it inserted last. */
    ghost predicate Remembers()
      reads this
    {
      insertId == match inserted case Some(row) => row.id case None => 0
    }

    ghost predicate Ready()
      reads this
    {
      open && !unread && Remembers()
    }

    method Close()
      modifies this
      ensures !open && !unread && err == old(err)
      ensures old(Remembers()) ==> Remembers()
    {
      if open {
        open := false;
      }
      unread := false;
    }

    /** `initialised` and `reachable`: whether mysql_init and mysql_real_connect succeed. */
    method Connect(initialised: bool, reachable: bool) returns (ok: bool)
      modifies this
      ensures ok <==> initialised && reachable
      ensures ok <==> open
      ensures !unread && Remembers()
      ensures ok <==> err == ""
    {
      if open {
        Close();
      }
      open := initialised;
      unread, insertId, inserted := false, 0, None;
      if !open {
        err := "mysql_init failed";
        return false;
      }
      if !reachable {
        err := "connect failed";
        Close();
        return false;
      }
      err := "";
      ok := true;
    }

    /**
     Statements without a result set.  On a connection with an unread result
     the client refuses ("Commands out of sync") and the server sees nothing.
     An INSERT whose answer is lost has taken effect all the same.
     */
    method Execute(s: Statement) returns (ok: bool)
      requires open
      modifies this, db
      ensures open && unread == old(unread)
      ensures old(Remembers()) ==> Remembers()
      ensures old(db.Healthy()) ==> db.Healthy()
      ensures db.script == if old(unread) then old(db.script) else Rest(old(db.script), 1)
      ensures ok <==> && !old(unread) && OutcomeAt(old(db.script), 0).Served?
                      && (s.Insert? ==> LastId(old(db.rows)) + 1 + old(db.NextGap()) <= Decimal.INT64_MAX)
      ensures s.Insert? ==>
                var row := Row(LastId(old(db.rows)) + 1 + old(db.NextGap()), s.name, s.email, s.createdAt);
                var done := !old(unread) && !OutcomeAt(old(db.script), 0).Refused? && row.id <= Decimal.INT64_MAX;
                && db.rows == (if done then old(db.rows) + [row] else old(db.rows))
                && (ok ==> inserted == Some(row))
      ensures !s.Insert? ==> db.rows == old(db.rows)
    {
      if unread {
        err := "Commands out of sync";
        return false;
      }
      var o := db.NextOutcome();
      if o.Refused? {
        err := "statement failed";
        return false;
      }
      if s.Insert? {
        var row := Row(LastId(db.rows) + 1 + o.gap, s.name, s.email, s.createdAt);
        if row.id > Decimal.INT64_MAX {
          err := "id range exhausted";
          return false;
        }
        db.rows := db.rows + [row];
        if o.Served? {
          insertId, inserted := row.id, Some(row);
        }
      }
      if o.ResultLost? {
        err := "answer lost";
        return false;
      }
      ok := true;
    }

    /** SELECT: sends, then takes the whole result set off the connection. */
    method Query(q: Statement) returns (res: Option<ResultSet>)
      requires open
      modifies this, db`script
      ensures open
      ensures !old(unread) ==> !unread
      ensures old(unread) ==> unread
      ensures old(Remembers()) ==> Remembers()
      ensures old(db.Healthy()) ==> db.Healthy()
      ensures db.script == if old(unread) then old(db.script) else Rest(old(db.script), 1)
      ensures res == if !old(unread) && OutcomeAt(old(db.script), 0).Served? then Answer(db.rows, db.resolve, q)
                     else None
    {
      if unread {
        err := "Commands out of sync";
        return None;
      }
      var o := db.NextOutcome();
      var answer := Answer(db.rows, db.resolve, q);
      insertId, inserted := 0, None;
      if o.Refused? || answer.None? {
        err := "query failed";
        return None;
      }
      unread := true;
      // mysql_store_result: the connection is ready again whether or not the rows arrive
      unread := false;
      if o.ResultLost? {
        err := "result lost";
        return None;
      }
      res := answer;
    }

    /** The id of the row this connection inserted last, 0 if it never did or a query came since. */
    method LastInsertId() returns (id: nat)
      requires Remembers()
      ensures inserted.Some? ==> id == inserted.value.id
      ensures inserted.None? ==> id == 0
    {
      id := insertId;
    }
  }

  class MysqlPool {
    const db: Database
    var conns: seq<MysqlConn>
    var idle: seq<MysqlConn>
    var err: string
    /** The guards that are alive, moved-from ones included. */
    ghost var guards: set<Guard>
    /** The connections that they hold. */
    ghost var lent: set<MysqlConn>

    constructor (db: Database)
      ensures Valid() && conns == idle == [] && lent == {} && guards == {} && this.db == db
    {
      this.db := db;
      conns, idle, err := [], [], "";
      guards, lent := {}, {};
    }

    /** idle_ has no duplicates, is disjoint from what is lent, and both together are conns_. */
    ghost predicate Conserved()
      reads this
    {
      && (forall i, j :: 0 <= i < j < |idle| ==> idle[i] != idle[j])
      && (forall c :: c in idle ==> c !in lent)
      && (forall c :: c in conns ==> c in idle || c in lent)
      && (forall c :: c in idle ==> c in conns)
      && (forall c :: c in lent ==> c in conns)
    }

    /** Idle connections can take a command. */
    ghost predicate ConnsOk()
      reads this, conns
    {
      && (forall c :: c in conns ==> c.db == db && c.open)
      && (forall c :: c in idle ==> c in conns && c.Ready())
    }

    /** Live guards hold different connections, and what they hold is what is lent. */
    ghost predicate GuardsOk()
      reads this, guards
    {
      && (forall g :: g in guards ==> g.pool == this && (g.conn != null ==> g.conn in lent))
      && (forall c :: c in lent ==> HeldByGuard(c))
      && (forall g, h :: g in guards && h in guards && g != h && g.conn != null ==> g.conn != h.conn)
    }

    ghost predicate HeldByGuard(c: MysqlConn)
      reads this, guards
    {
      exists g :: g in guards && g.conn == c
    }

    ghost predicate Valid()
      reads this, conns, guards
    {
      Conserved() && ConnsOk() && GuardsOk()
    }

    /** Every connection of the pool is either idle, once, or held by exactly one live guard. */
    ghost predicate Accounted()
      reads this, guards
    {
      && (forall i, j :: 0 <= i < j < |idle| ==> idle[i] != idle[j])
      && (forall c :: c in conns ==> c in idle || HeldByGuard(c))
      && (forall c :: c in idle ==> c in conns && !HeldByGuard(c))
      && (forall g :: g in guards && g.conn != null ==> g.conn in conns)
      && (forall g, h :: g in guards && h in guards && g != h && g.conn != null ==> g.conn != h.conn)
    }

    lemma ValidAccounts()
      requires Conserved() && GuardsOk()
      ensures Accounted()
    {
    }

    /** A connection of its own. */
    method Dial(reachable: bool) returns (conn: MysqlConn, connected: bool)
      ensures fresh(conn) && conn.db == db
      ensures connected <==> reachable
      ensures connected ==> conn.Ready()
    {
      conn := new MysqlConn(db);
      connected := conn.Connect(true, reachable);
    }

    /** The first step of Init, on a connection that is thrown away. */
    method EnsureDatabase(reachable: bool, created: bool) returns (ok: bool)
      requires Valid()
      modifies this`err
      ensures Valid()
      ensures ok <==> reachable && created
    {
      var tmp := new MysqlConn(db);
      var connected := tmp.Connect(true, reachable);
      if !connected || !created {
        err := "database not created";
        return false;
      }
      tmp.Close();
      ok := true;
    }

    /** The new connection becomes one of the pool's, and idle. */
    method Adopt(conn: MysqlConn)
      requires Valid() && idle == conns && lent == {} && conn !in conns && conn.db == db && conn.Ready()
      modifies this`idle, this`conns
      ensures Valid() && idle == conns == old(conns) + [conn]
    {
      idle := idle + [conn];
      conns := conns + [conn];
    }

    /**
     `attempt(i)`: how connecting number i goes, the throw-away connection that
     creates the database being number -1; `statement(i)`: whether its DDL succeeds.
     */
    method Init(poolSize: int, attempt: int -> bool, statement: int -> bool) returns (ok: bool)
      requires Valid() && conns == idle == [] && guards == {} && lent == {}
      modifies this
      ensures Valid() && guards == {} && lent == {} && idle == conns
      ensures ok ==> |conns| == if poolSize > 0 then poolSize else 0
      ensures ok <==> && attempt(-1) && statement(-1)
                      && (forall i :: 0 <= i < poolSize ==> attempt(i))
                      && (poolSize > 0 ==> statement(0))
    {
      ok := EnsureDatabase(attempt(-1), statement(-1));
      if !ok {
        return;
      }
      var i := 0;
      while i < poolSize
        invariant 0 <= i && (poolSize > 0 ==> i <= poolSize) && (poolSize <= 0 ==> i == 0)
        invariant Valid() && guards == {} && lent == {} && idle == conns && |conns| == i
        invariant forall k :: 0 <= k < i ==> attempt(k)
        invariant i > 0 ==> statement(0)
      {
        var conn, connected := Dial(attempt(i));
        if !connected {
          err := "connection failed";
          return false;
        }
        if i == 0 && !statement(0) {
          err := "table not created";
          return false;
        }
        Adopt(conn);
        i := i + 1;
      }
      ok := true;
    }

    /** Gives up every connection; a guard still out will later return one the pool does not own. */
    method Shutdown()
      requires Valid()
      modifies this`idle, this`conns
      ensures idle == [] && conns == []
      ensures Accounted() <==> forall g :: g in guards ==> g.conn == null
    {
      idle := [];
      conns := [];
      if g :| g in guards && g.conn != null {
        assert HeldByGuard(g.conn);
      }
    }

    /** Blocks while idle_ is empty, so it returns only from a state where it is not. */
    method Acquire() returns (g: Guard)
      requires Valid() && idle != []
      modifies this`idle, this`lent, this`guards
      ensures Valid() && Accounted()
      ensures fresh(g) && g.pool == this && guards == old(guards) + {g}
      ensures g.conn == old(idle)[|old(idle)| - 1] && g.conn in conns
      ensures idle == old(idle)[..|old(idle)| - 1]
      ensures lent == old(lent) + {g.conn}
    {
      var conn := idle[|idle| - 1];
      idle := idle[..|idle| - 1];
      g := new Guard(this, conn);
      lent, guards := lent + {conn}, guards + {g};
      assert forall c :: c in old(lent) ==> old(HeldByGuard(c));
      assert HeldByGuard(conn);
      ValidAccounts();
    }

    /** Called by a guard that has given its connection up. */
    method Release(conn: MysqlConn)
      requires Conserved() && ConnsOk() && conn in lent && conn.Ready()
      modifies this`idle, this`lent
      ensures Conserved() && ConnsOk()
      ensures idle == old(idle) + [conn] && lent == old(lent) - {conn}
    {
      idle := idle + [conn];
      lent := lent - {conn};
    }
  }

  /** The right to use one connection; it goes back when the guard is destroyed. */
  class Guard {
    const pool: MysqlPool
    var conn: MysqlConn?

    constructor (pool: MysqlPool, conn: MysqlConn)
      ensures this.pool == pool && this.conn == conn
    {
      this.pool := pool;
      this.conn := conn;
    }

    /**
     Move construction: the connection changes hands, and the two guards never
     hold it both.
     */
    constructor Move(other: Guard)
      requires other.pool.Valid() && other in other.pool.guards
      modifies other, other.pool`guards
      ensures pool == other.pool && conn == old(other.conn) && other.conn == null
      ensures pool.guards == old(other.pool.guards) + {this}
      ensures pool.Valid() && pool.Accounted()
    {
      pool := other.pool;
      conn := other.conn;
      new;
      other.conn := null;
      pool.guards := pool.guards + {this};
      assert forall c :: c in pool.lent ==> old(other.pool.HeldByGuard(c));
      pool.ValidAccounts();
    }

    /** The end of a guard: its connection goes back exactly when it still has one. */
    method Destroy()
      requires pool.Valid() && this in pool.guards
      requires conn != null ==> conn.Ready()
      modifies pool`idle, pool`lent, pool`guards
      ensures pool.Valid() && pool.Accounted()
      ensures pool.guards == old(pool.guards) - {this}
      ensures pool.idle == if conn == null then old(pool.idle) else old(pool.idle) + [conn]
      ensures pool.lent == old(pool.lent) - (if conn == null then {} else {conn})
    {
      pool.guards := pool.guards - {this};
      if conn != null {
        pool.Release(conn);
      }
      assert forall c :: c in pool.lent ==> old(pool.HeldByGuard(c));
      pool.ValidAccounts();
    }
  }
}
