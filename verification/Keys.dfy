/**
 The Redis keys of the repository (src/store/user_repository.cpp).
 */
module Keys {
  import opened Users
  import Decimal

  /** Every key the repository touches, by family. */
  datatype Key =
    | UserKey(id: string)
    | ListKey(limit: int, offset: int)
    | TotalKey
    | RequestsKey
    | IndexKey

  /** The key as the repository builds it. */
  function Wire(k: Key): string {
    match k
    case UserKey(id) => "user:" + id
    case ListKey(limit, offset) => ListCacheKey(limit, offset)
    case TotalKey => "stats:total_users"
    case RequestsKey => "stats:request_count"
    case IndexKey => "cache:users:list"
  }

  function ListCacheKey(limit: int, offset: int): string {
    "users:list:" + Decimal.Text(limit) + ":" + Decimal.Text(offset)
  }

  /** The texts of the keys. */
  lemma KeyTexts(id: string)
    ensures Wire(UserKey(id))[..5] == "user:" && Wire(UserKey(id))[5..] == id
    ensures Wire(ListKey(10, -20)) == "users:list:10:-20"
    ensures Wire(TotalKey) == "stats:total_users" && Wire(RequestsKey) == "stats:request_count"
    ensures Wire(IndexKey) == "cache:users:list"
  {
    assert Decimal.NatText(1) == "1" && Decimal.NatText(2) == "2";
    assert Decimal.Text(10) == "10" && Decimal.Text(-20) == "-20";
  }

  /** A colon-free prefix in front of a colon can be read back. */
  lemma SplitAtColon(a: string, b: string, a': string, b': string)
    requires ':' !in a && ':' !in a'
    requires a + ":" + b == a' + ":" + b'
    ensures a == a' && b == b'
  {
    var s := a + ":" + b;
    var s' := a' + ":" + b';
    assert forall i :: 0 <= i < |a| ==> s[i] == a[i] != ':';
    assert forall i :: 0 <= i < |a'| ==> s'[i] == a'[i] != ':';
    assert s[|a|] == ':' && s'[|a'|] == ':';
    assert |a| == |a'|;
    assert a == s[..|a|] == s'[..|a|] == a';
    assert b == s[|a| + 1..] == s'[|a| + 1..] == b';
  }

  /** Distinct (limit, offset) pairs, negative ones included, never share a key. */
  lemma ListCacheKeyInjective(l: int, o: int, l': int, o': int)
    requires ListCacheKey(l, o) == ListCacheKey(l', o')
    ensures l == l' && o == o'
  {
    var p := "users:list:";
    var a, b := Decimal.Text(l), Decimal.Text(o);
    var a', b' := Decimal.Text(l'), Decimal.Text(o');
    assert ListCacheKey(l, o)[|p|..] == a + ":" + b;
    assert ListCacheKey(l', o')[|p|..] == a' + ":" + b';
    Decimal.TextHasNoColon(l);
    Decimal.TextHasNoColon(l');
    SplitAtColon(a, b, a', b');
    Decimal.TextInjective(l, l');
    Decimal.TextInjective(o, o');
  }

  /** Key families never collide, for any id string, and no key text has two readings. */
  lemma WireInjective(k: Key, k': Key)
    requires Wire(k) == Wire(k')
    ensures k == k'
  {
    var w, w' := Wire(k), Wire(k');
    if k.UserKey? {
      assert w[..5] == "user:";
      assert w[4] == ':';
    }
    if k'.UserKey? {
      assert w'[..5] == "user:";
      assert w'[4] == ':';
    }
    if k.UserKey? && k'.UserKey? {
      assert w[5..] == k.id && w'[5..] == k'.id;
    }
    if k.ListKey? { assert w[0] == 'u' && w[4] == 's'; }
    if k'.ListKey? { assert w'[0] == 'u' && w'[4] == 's'; }
    if k.ListKey? && k'.ListKey? {
      ListCacheKeyInjective(k.limit, k.offset, k'.limit, k'.offset);
    }
    if k.TotalKey? { assert w[6] == 't'; }
    if k'.TotalKey? { assert w'[6] == 't'; }
    if k.RequestsKey? { assert w[6] == 'r'; }
    if k'.RequestsKey? { assert w'[6] == 'r'; }
  }

  // ---------- What reaches Redis ----------

  /** The key that is left when a user id is cut at its first NUL. */
  function Cut(k: Key): Key {
    match k
    case UserKey(id) => UserKey(CString(id))
    case _ => k
  }

  /** The key as Redis receives it. */
  function Sent(k: Key): string {
    Wire(Cut(k))
  }

  /** The client library takes the key as a C string. */
  lemma SentIsCut(k: Key)
    ensures Sent(k) == CString(Wire(k))
    ensures Sent(k) == Wire(Cut(k))
  {
    hide CString, Decimal.Text;
    match k {
      case UserKey(id) =>
        CStringAppend("user:", id);
      case ListKey(limit, offset) =>
        ListKeyIsWhole(limit, offset);
      case _ =>
        CStringWhole(Wire(k));
    }
  }

  lemma ListKeyIsWhole(limit: int, offset: int)
    ensures CString(ListCacheKey(limit, offset)) == ListCacheKey(limit, offset)
  {
    hide CString, Decimal.Text;
    Decimal.TextIsNulFree(limit);
    Decimal.TextIsNulFree(offset);
    CStringWhole(ListCacheKey(limit, offset));
  }

  /** Two keys are one key to Redis exactly when they agree up to the first NUL of their ids. */
  lemma CollideIff(k: Key, k': Key)
    ensures Sent(k) == Sent(k') <==> Cut(k) == Cut(k')
  {
    SentIsCut(k);
    SentIsCut(k');
    if Sent(k) == Sent(k') {
      WireInjective(Cut(k), Cut(k'));
    }
  }

  /** Keys of different families, and of NUL-free ids, never collide. */
  lemma SentInjective(k: Key, k': Key)
    requires k.UserKey? && k'.UserKey? ==> NulFree(k.id) && NulFree(k'.id)
    ensures Sent(k) == Sent(k') <==> k == k'
  {
    CollideIff(k, k');
    if k.UserKey? {
      CStringWhole(k.id);
    }
    if k'.UserKey? {
      CStringWhole(k'.id);
    }
    if Sent(k) == Sent(k') {
      assert k.UserKey? <==> k'.UserKey?;
    }
  }

  /** Ids with a NUL do collide. */
  lemma Collision()
    ensures UserKey("5") != UserKey("5\0x")
    ensures Sent(UserKey("5")) == Sent(UserKey("5\0x"))
  {
    var a, b := "5", "5\0x";
    assert b[1..][0] == '\0';
    assert CString(b[1..]) == CString(a[1..]) == [];
    assert CString(a) == CString(b) == ['5'] + [];
    CollideIff(UserKey(a), UserKey(b));
  }

  // ---------- A store under key texts ----------

  /** The text-keyed store that a Key-keyed store stands for. */
  ghost function OnWire<V>(m: map<Key, V>): (w: map<string, V>)
    ensures forall k :: k in m ==> Wire(k) in w && w[Wire(k)] == m[k]
    ensures forall x :: x in w ==> exists k :: k in m && x == Wire(k)
  {
    forall k, k' | k in m && k' in m && Wire(k) == Wire(k') ensures k == k' {
      WireInjective(k, k');
    }
    map k | k in m :: Wire(k) := m[k]
  }

  lemma OnWirePut<V>(m: map<Key, V>, k: Key, v: V)
    ensures OnWire(m[k := v]) == OnWire(m)[Wire(k) := v]
  {
    var m' := m[k := v];
    var u, w := OnWire(m'), OnWire(m)[Wire(k) := v];
    forall x | x in u ensures x in w && u[x] == w[x] {
      var k' :| k' in m' && x == Wire(k');
      if x == Wire(k) { WireInjective(k', k); }
    }
    forall x | x in w ensures x in u {
      if x != Wire(k) {
        var k' :| k' in m && x == Wire(k');
        assert k' in m';
      } else {
        assert k in m';
      }
    }
  }

  lemma OnWireDelete<V>(m: map<Key, V>, k: Key)
    ensures OnWire(m - {k}) == OnWire(m) - {Wire(k)}
  {
    var m' := m - {k};
    var u, w := OnWire(m'), OnWire(m) - {Wire(k)};
    forall x | x in u ensures x in w && u[x] == w[x] {
      var k' :| k' in m' && x == Wire(k');
      if x == Wire(k) { WireInjective(k', k); }
    }
    forall x | x in w ensures x in u {
      var k' :| k' in m && x == Wire(k');
      assert k' in m';
    }
  }

  /**
   Reading, writing and deleting under a key as it reaches Redis is the same as
   under its cut Key value, so a write in one family never disturbs an entry of
   another, nor of another id with other text before its first NUL.
   */
  lemma OnWireCommutes<V>(m: map<Key, V>, k: Key, v: V)
    ensures Cut(k) in m <==> Sent(k) in OnWire(m)
    ensures OnWire(m[Cut(k) := v]) == OnWire(m)[Sent(k) := v]
    ensures OnWire(m - {Cut(k)}) == OnWire(m) - {Sent(k)}
  {
    hide Wire, Sent;
    SentIsCut(k);
    if Sent(k) in OnWire(m) {
      var k' :| k' in m && Sent(k) == Wire(k');
      WireInjective(Cut(k), k');
    }
    OnWirePut(m, Cut(k), v);
    OnWireDelete(m, Cut(k));
  }
}
