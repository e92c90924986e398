/**
 Redis as a keyed store with expiry, and the command wrapper of
 src/store/redis_client.cpp.
 */
module Redis {
  import opened Prelude
  import opened Json
  import opened Users
  import Decimal

  /**
   A stored string.  Printing and parsing JSON text are taken to be inverse, so
   a document is kept as its tree; every other stored string is decimal text.
   */
  datatype Value = Doc(json: Json) | Digits(text: string)

  /** nlohmann::json::parse: decimal text is no object, so every caller throws on it. */
  function ParseJson(v: Value): Result<Json> {
    match v
    case Doc(j) => Ok(j)
    case Digits(_) => Thrown
  }

  /** strtoll on a stored string; the text of a document starts with a brace. */
  function ParseInt(v: Value): Decimal.int64 {
    match v
    case Digits(t) => Decimal.Strtoll(t)
    case Doc(_) => 0
  }

  /** Times are in milliseconds on the server's clock. */
  datatype Entry = Entry(value: Value, expiry: Option<nat>)

  const SECOND: nat := 1000

  predicate Live<K>(cells: map<K, Entry>, now: nat, k: K) {
    k in cells && (cells[k].expiry.Some? ==> now <= cells[k].expiry.value)
  }

  /** What GET sees. */
  function Visible<K>(cells: map<K, Entry>, now: nat, k: K): Option<Value> {
    if Live(cells, now, k) then Some(cells[k].value) else None
  }

  /** SET key value [EX ttl]. */
  function Put<K>(cells: map<K, Entry>, now: nat, k: K, v: Value, ttl: int): map<K, Entry> {
    cells[k := Entry(v, if ttl > 0 then Some(now + ttl * SECOND) else None)]
  }

  /** INCR works on text that is the decimal form of an int64, and on nothing else. */
  predicate IsCount(v: Value) {
    v.Digits? && v.text == Decimal.Text(Decimal.Strtoll(v.text))
  }

  /** A counter without a TTL. */
  predicate CounterEntry(e: Entry) {
    e.expiry.None? && IsCount(e.value)
  }

  /** The integer INCR starts from: a missing key counts as 0. */
  function Counter<K>(cells: map<K, Entry>, now: nat, k: K): int {
    match Visible(cells, now, k)
    case Some(v) => ParseInt(v)
    case None => 0
  }

  function Increment<K>(cells: map<K, Entry>, now: nat, k: K): map<K, Entry> {
    cells[k := Entry(Digits(Decimal.Text(Counter(cells, now, k) + 1)),
                     if Live(cells, now, k) then cells[k].expiry else None)]
  }

  /** A key SET with a TTL lives that many seconds and no longer, without one for ever. */
  lemma PutLives<K>(cells: map<K, Entry>, now: nat, k: K, v: Value, ttl: int, t: nat)
    ensures Live(Put(cells, now, k, v, ttl), t, k) <==> ttl <= 0 || t <= now + ttl * 1000
    ensures Visible(Put(cells, now, k, v, ttl), t, k) == if ttl <= 0 || t <= now + ttl * 1000 then Some(v) else None
  {
  }

  /** INCR can be applied. */
  predicate Countable<K>(cells: map<K, Entry>, now: nat, k: K) {
    (Live(cells, now, k) ==> IsCount(cells[k].value)) && Counter(cells, now, k) < Decimal.INT64_MAX
  }

  /** The value INCR leaves is one that INCR works on. */
  lemma IncrementCounts<K>(cells: map<K, Entry>, now: nat, k: K)
    requires Countable(cells, now, k)
    ensures IsCount(Increment(cells, now, k)[k].value)
    ensures Counter(Increment(cells, now, k), now, k) == Counter(cells, now, k) + 1
    ensures Live(cells, now, k) ==> Increment(cells, now, k)[k].expiry == cells[k].expiry
  {
    Decimal.StrtollRoundTrip(Counter(cells, now, k) + 1);
  }

  /** How the next command fares: answered, lost on the way, or applied with its reply lost. */
  datatype Fault = Answered | Lost | Unanswered

  /** How the i-th coming command fares; none listed means answered. */
  function FaultAt(faults: seq<Fault>, i: nat): Fault {
    if i < |faults| then faults[i] else Answered
  }

  /** What is in store after n commands. */
  function Later(faults: seq<Fault>, n: nat): seq<Fault> {
    if n <= |faults| then faults[n..] else []
  }

  lemma LaterAdds(faults: seq<Fault>, n: nat, m: nat)
    ensures Later(Later(faults, n), m) == Later(faults, n + m)
    ensures FaultAt(Later(faults, n), m) == FaultAt(faults, n + m)
    ensures Later(faults, 0) == faults
  {
  }

  /** The client together with the server state it talks to. */
  class RedisClient {
    var cells: map<string, Entry>
    var sets: map<string, set<string>>
    var now: nat
    /** What becomes of the coming commands, in order; none listed means all are answered. */
    var faults: seq<Fault>

    constructor (faults: seq<Fault>)
      ensures cells == map[] && sets == map[] && now == 0 && this.faults == faults
    {
      cells, sets, now := map[], map[], 0;
      this.faults := faults;
    }

    /** No coming command fails. */
    predicate Reliable()
      reads this
    {
      faults == []
    }

    method Send() returns (f: Fault)
      modifies this`faults
      ensures f == FaultAt(old(faults), 0) && faults == Later(old(faults), 1)
    {
      if faults == [] {
        f := Answered;
      } else {
        f := faults[0];
        faults := faults[1..];
      }
    }

    /** The server's clock moves on. */
    method Advance(ms: nat)
      modifies this`now
      ensures now == old(now) + ms
    {
      now := now + ms;
    }

    /** The server drops a key that has a TTL, possibly before it is due. */
    method Evict(key: string)
      modifies this`cells
      ensures cells == if key in old(cells) && old(cells)[key].expiry.Some? then old(cells) - {key} else old(cells)
    {
      if key in cells && cells[key].expiry.Some? {
        cells := cells - {key};
      }
    }

    /** The commands take keys as C strings: what follows a NUL does not reach the server. */
    method Set(key: string, value: Value, ttl: int) returns (ok: bool)
      modifies this`faults, this`cells, this`sets
      ensures faults == Later(old(faults), 1) && (ok <==> FaultAt(old(faults), 0).Answered?)
      ensures if FaultAt(old(faults), 0).Lost? then cells == old(cells) && sets == old(sets)
              else cells == Put(old(cells), now, CString(key), value, ttl) && sets == old(sets) - {CString(key)}
    {
      var f := Send();
      if f != Lost {
        cells := Put(cells, now, CString(key), value, ttl);
        sets := sets - {CString(key)};
      }
      ok := f == Answered;
    }

    method Get(key: string) returns (v: Option<Value>)
      modifies this`faults
      ensures faults == Later(old(faults), 1)
      ensures v == if FaultAt(old(faults), 0).Answered? && CString(key) !in sets then Visible(cells, now, CString(key))
                   else None
    {
      var f := Send();
      v := if f == Answered && CString(key) !in sets then Visible(cells, now, CString(key)) else None;
    }

    /** Whether a key was there makes no difference to the answer. */
    method Del(key: string) returns (ok: bool)
      modifies this`faults, this`cells, this`sets
      ensures faults == Later(old(faults), 1) && (ok <==> FaultAt(old(faults), 0).Answered?)
      ensures if FaultAt(old(faults), 0).Lost? then cells == old(cells) && sets == old(sets)
              else cells == old(cells) - {CString(key)} && sets == old(sets) - {CString(key)}
    {
      var f := Send();
      if f != Lost {
        cells := cells - {CString(key)};
        sets := sets - {CString(key)};
      }
      ok := f == Answered;
    }

    method Incr(key: string) returns (n: Option<Decimal.int64>)
      modifies this`faults, this`cells
      ensures faults == Later(old(faults), 1)
      ensures var k := CString(key);
              var done := !FaultAt(old(faults), 0).Lost? && k !in sets && Countable(old(cells), now, k);
              && cells == (if done then Increment(old(cells), now, k) else old(cells))
              && n == if done && FaultAt(old(faults), 0).Answered? then Some(Counter(old(cells), now, k) + 1) else None
    {
      var f := Send();
      var k := CString(key);
      if f == Lost || k in sets || !Countable(cells, now, k) {
        n := None;
      } else {
        var c := Counter(cells, now, k);
        cells := Increment(cells, now, k);
        n := if f == Answered then Some(c + 1) else None;
      }
    }

    method SAdd(key: string, member: string) returns (ok: bool)
      modifies this`faults, this`sets
      ensures faults == Later(old(faults), 1)
      ensures var k := CString(key);
              var done := !FaultAt(old(faults), 0).Lost? && !Live(cells, now, k);
              && sets == (if done then old(sets)[k := Members(old(sets), k) + {CString(member)}] else old(sets))
              && (ok <==> done && FaultAt(old(faults), 0).Answered?)
    {
      var f := Send();
      var k := CString(key);
      if f == Lost || Live(cells, now, k) {
        ok := false;
      } else {
        sets := sets[k := Members(sets, k) + {CString(member)}];
        ok := f == Answered;
      }
    }

    /** Copies the array reply element by element. */
    method SMembers(key: string) returns (r: Option<seq<string>>)
      modifies this`faults
      ensures faults == Later(old(faults), 1)
      ensures r.Some? <==> FaultAt(old(faults), 0).Answered? && !Live(cells, now, CString(key))
      ensures r.Some? ==> Lists(r.value, Members(sets, CString(key)))
    {
      var f := Send();
      var k := CString(key);
      if f != Answered || Live(cells, now, k) {
        return None;
      }
      var elements := Members(sets, k);
      var result: seq<string> := [];
      while elements != {}
        invariant forall m :: m in result || m in elements <==> m in Members(sets, k)
        invariant forall i :: 0 <= i < |result| ==> result[i] !in elements
        invariant forall i, j :: 0 <= i < j < |result| ==> result[i] != result[j]
      {
        var m :| m in elements;
        elements := elements - {m};
        result := result + [m];
      }
      r := Some(result);
    }
  }

  /** The sequence has exactly these elements, each once. */
  ghost predicate Lists(keys: seq<string>, elements: set<string>) {
    && (forall m :: m in keys <==> m in elements)
    && (forall i, j :: 0 <= i < j < |keys| ==> keys[i] != keys[j])
  }

  /** A set that is not there has no members. */
  function Members(sets: map<string, set<string>>, key: string): set<string> {
    if key in sets then sets[key] else {}
  }
}
