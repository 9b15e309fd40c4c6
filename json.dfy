/**
 * JSON-like values as the tool handlers see them, and the few JavaScript
 * rules they rely on: reading a property, optional chaining (`?.`),
 * truthiness, and building objects with computed keys and spread.
 *
 * An object keeps its members in enumeration order, the order
 * `Object.keys` yields; a JavaScript object never holds two members with
 * the same key, which `DistinctKeys` states where a proof needs it.
 */
module Json {

  datatype Option<+T> = None | Some(value: T) {
    /** `x ?? d` for a defined-or-undefined value. */
    function GetOr(default: T): T {
      if Some? then value else default
    }
  }

  datatype Json =
    | JNull
    | JBool(b: bool)
    | JNum(n: int)
    | JStr(s: string)
    | JArr(elems: seq<Json>)
    | JObj(members: seq<Member>)

  datatype Member = Member(key: string, value: Json)

  function Keys(ms: seq<Member>): (ks: seq<string>)
    ensures |ks| == |ms|
    ensures forall i :: 0 <= i < |ms| ==> ks[i] == ms[i].key
  {
    if ms == [] then [] else [ms[0].key] + Keys(ms[1..])
  }

  predicate DistinctKeys(ms: seq<Member>) {
    forall i, j :: 0 <= i < j < |ms| ==> ms[i].key != ms[j].key
  }

  /** `obj[k]` on an object with members `ms`. */
  function Lookup(ms: seq<Member>, k: string): Option<Json> {
    if ms == [] then None
    else if ms[0].key == k then Some(ms[0].value)
    else Lookup(ms[1..], k)
  }

  /** A key is found exactly when some member has it. */
  lemma {:induction false} LookupFound(ms: seq<Member>, k: string)
    ensures Lookup(ms, k).None? <==> k !in Keys(ms)
  {
    if ms != [] {
      LookupFound(ms[1..], k);
      assert Keys(ms) == [ms[0].key] + Keys(ms[1..]);
    }
  }

  /**
   * The members after `obj[k] = v`: a member already named k keeps its
   * position and takes the new value; a new key is enumerated last.
   */
  function Put(ms: seq<Member>, k: string, v: Json): (r: seq<Member>)
    ensures Lookup(r, k) == Some(v)
    ensures forall k' :: k' != k ==> Lookup(r, k') == Lookup(ms, k')
  {
    if ms == [] then [Member(k, v)]
    else if ms[0].key == k then
      var r := [Member(k, v)] + ms[1..];
      assert r[1..] == ms[1..];
      r
    else
      var tail := Put(ms[1..], k, v);
      var r := [ms[0]] + tail;
      assert r[1..] == tail;
      r
  }

  /** An existing key keeps its position; a new key is enumerated last. */
  lemma {:induction false} PutKeys(ms: seq<Member>, k: string, v: Json)
    ensures Keys(Put(ms, k, v)) == if k in Keys(ms) then Keys(ms) else Keys(ms) + [k]
  {
    if ms != [] {
      var r := Put(ms, k, v);
      assert Keys(ms) == [ms[0].key] + Keys(ms[1..]);
      assert Keys(r) == [r[0].key] + Keys(r[1..]);
      if ms[0].key != k {
        PutKeys(ms[1..], k, v);
      }
    }
  }

  /** Writing a key the object does not have appends one member. */
  lemma {:induction false} PutNew(ms: seq<Member>, k: string, v: Json)
    requires k !in Keys(ms)
    ensures Put(ms, k, v) == ms + [Member(k, v)]
  {
    if ms != [] {
      assert ms[0].key == Keys(ms)[0] && ms[0].key != k;
      assert k !in Keys(ms[1..]) by {
        assert Keys(ms) == [ms[0].key] + Keys(ms[1..]);
      }
      PutNew(ms[1..], k, v);
      calc {
        Put(ms, k, v);
        [ms[0]] + Put(ms[1..], k, v);
        [ms[0]] + (ms[1..] + [Member(k, v)]);
        { assert [ms[0]] + ms[1..] == ms; }
        ms + [Member(k, v)];
      }
    }
  }

  lemma {:induction false} PutKeepsDistinct(ms: seq<Member>, k: string, v: Json)
    requires DistinctKeys(ms)
    ensures DistinctKeys(Put(ms, k, v))
  {
    var r := Put(ms, k, v);
    PutKeys(ms, k, v);
    forall i, j | 0 <= i < j < |r| ensures r[i].key != r[j].key {
      assert Keys(r)[i] == r[i].key && Keys(r)[j] == r[j].key;
      if k !in Keys(ms) && j == |ms| {
        assert r[i].key == Keys(ms)[i] == ms[i].key;
      } else {
        assert Keys(r)[i] == Keys(ms)[i] && Keys(r)[j] == Keys(ms)[j];
      }
    }
  }

  /**
   * The members of `{...ms, ...extra}`: the members of `extra` are written
   * over `ms` one at a time, in their order.
   */
  function Spread(ms: seq<Member>, extra: seq<Member>): seq<Member>
    decreases |extra|
  {
    if extra == [] then ms
    else Spread(Put(ms, extra[0].key, extra[0].value), extra[1..])
  }

  /** Last write wins: a key of `extra` takes extra's value, any other key keeps its value in `ms`. */
  lemma {:induction false} SpreadLookup(ms: seq<Member>, extra: seq<Member>, k: string)
    requires DistinctKeys(extra)
    decreases |extra|
    ensures Lookup(Spread(ms, extra), k) == if k in Keys(extra) then Lookup(extra, k) else Lookup(ms, k)
  {
    if extra != [] {
      var step := Put(ms, extra[0].key, extra[0].value);
      assert Keys(extra) == [extra[0].key] + Keys(extra[1..]);
      assert extra[0].key !in Keys(extra[1..]) by {
        forall j | 0 <= j < |extra[1..]| ensures Keys(extra[1..])[j] != extra[0].key {
          assert extra[1..][j] == extra[j + 1];
        }
      }
      SpreadLookup(step, extra[1..], k);
    }
  }

  /** The keys of `{...ms, ...extra}` are those of `ms` and those of `extra`. */
  lemma {:induction false} SpreadKeys(ms: seq<Member>, extra: seq<Member>)
    decreases |extra|
    ensures forall k :: k in Keys(Spread(ms, extra)) <==> k in Keys(ms) || k in Keys(extra)
  {
    if extra != [] {
      var step := Put(ms, extra[0].key, extra[0].value);
      assert Keys(extra) == [extra[0].key] + Keys(extra[1..]);
      PutKeys(ms, extra[0].key, extra[0].value);
      SpreadKeys(step, extra[1..]);
    }
  }

  /** The members of `ms` keep their keys and their positions. */
  lemma {:induction false} SpreadKeysPrefix(ms: seq<Member>, extra: seq<Member>)
    decreases |extra|
    ensures |ms| <= |Spread(ms, extra)|
    ensures forall i :: 0 <= i < |ms| ==> Spread(ms, extra)[i].key == ms[i].key
  {
    if extra != [] {
      var step := Put(ms, extra[0].key, extra[0].value);
      PutKeys(ms, extra[0].key, extra[0].value);
      SpreadKeysPrefix(step, extra[1..]);
      assert |Keys(step)| >= |Keys(ms)|;
      forall i | 0 <= i < |ms| ensures step[i].key == ms[i].key {
        assert Keys(step)[i] == Keys(ms)[i];
      }
    }
  }

  lemma {:induction false} SpreadKeepsDistinct(ms: seq<Member>, extra: seq<Member>)
    requires DistinctKeys(ms)
    decreases |extra|
    ensures DistinctKeys(Spread(ms, extra))
  {
    if extra != [] {
      PutKeepsDistinct(ms, extra[0].key, extra[0].value);
      SpreadKeepsDistinct(Put(ms, extra[0].key, extra[0].value), extra[1..]);
    }
  }

  /** Lookup in a two-member object with distinct keys. */
  lemma LookupPair(a: Member, b: Member)
    requires a.key != b.key
    ensures Lookup([a, b], a.key) == Some(a.value)
    ensures Lookup([a, b], b.key) == Some(b.value)
  {
    assert [a, b][1..] == [b];
  }

  /** Lookup in a three-member object with distinct keys. */
  lemma LookupTriple(a: Member, b: Member, c: Member)
    requires a.key != b.key && a.key != c.key && b.key != c.key
    ensures Lookup([a, b, c], a.key) == Some(a.value)
    ensures Lookup([a, b, c], b.key) == Some(b.value)
    ensures Lookup([a, b, c], c.key) == Some(c.value)
  {
    assert [a, b, c][1..] == [b, c];
    LookupPair(b, c);
  }

  lemma LookupQuad(a: Member, b: Member, c: Member, d: Member)
    requires a.key != b.key && a.key != c.key && a.key != d.key
    requires b.key != c.key && b.key != d.key && c.key != d.key
    ensures Lookup([a, b, c, d], a.key) == Some(a.value)
    ensures Lookup([a, b, c, d], b.key) == Some(b.value)
    ensures Lookup([a, b, c, d], c.key) == Some(c.value)
    ensures Lookup([a, b, c, d], d.key) == Some(d.value)
  {
    assert [a, b, c, d][1..] == [b, c, d];
    LookupTriple(b, c, d);
  }

  lemma {:induction false} KeysAppend(a: seq<Member>, b: seq<Member>)
    ensures Keys(a + b) == Keys(a) + Keys(b)
  {
    if a != [] {
      assert (a + b)[1..] == a[1..] + b;
      KeysAppend(a[1..], b);
    }
  }

  /** In a concatenation of members the earlier member wins the lookup. */
  lemma {:induction false} LookupAppend(a: seq<Member>, b: seq<Member>, k: string)
    ensures Lookup(a + b, k) == if k in Keys(a) then Lookup(a, k) else Lookup(b, k)
  {
    if a != [] {
      var ab := a + b;
      assert ab[0] == a[0] && ab[1..] == a[1..] + b;
      assert Keys(a) == [a[0].key] + Keys(a[1..]);
      if a[0].key != k {
        assert Lookup(ab, k) == Lookup(a[1..] + b, k);
        assert Lookup(a, k) == Lookup(a[1..], k);
        LookupAppend(a[1..], b, k);
      }
    } else {
      assert a + b == b;
    }
  }

  /**
   * `v.k` on a value that is not null. Only objects have the properties the
   * handlers read (`id`, `title`, `results`, ...); strings, numbers,
   * booleans and arrays have none of them.
   */
  function Get(v: Json, k: string): Option<Json> {
    if v.JObj? then Lookup(v.members, k) else None
  }

  /** `ov?.k`: undefined and null short-circuit to undefined. */
  function Dot(ov: Option<Json>, k: string): (r: Option<Json>)
    ensures ov.None? || ov == Some(JNull) ==> r.None?
  {
    if ov.None? || ov.value.JNull? then None else Get(ov.value, k)
  }

  /** `ov?.[0]`: the first element of an array, member "0" of an object, the first character of a string. */
  function First(ov: Option<Json>): Option<Json> {
    match ov
    case Some(JArr(xs)) => if |xs| > 0 then Some(xs[0]) else None
    case Some(JObj(ms)) => Lookup(ms, "0")
    case Some(JStr(s)) => if |s| > 0 then Some(JStr([s[0]])) else None
    case _ => None
  }

  /** JavaScript truthiness of a possibly undefined value (`!!v`). */
  predicate Truthy(ov: Option<Json>) {
    match ov
    case None => false
    case Some(JNull) => false
    case Some(JBool(b)) => b
    case Some(JNum(n)) => n != 0
    case Some(JStr(s)) => s != ""
    case Some(_) => true
  }

  /** A string or an absent value, as a JSON value or undefined. */
  function OptStr(s: Option<string>): Option<Json> {
    if s.Some? then Some(JStr(s.value)) else None
  }

  /**
   * Members of an object literal `{k: v}` where v may be undefined; an
   * undefined member is dropped, as the request serializer drops it.
   */
  function Field(k: string, ov: Option<Json>): seq<Member> {
    if ov.Some? then [Member(k, ov.value)] else []
  }

  /** A lookup in a concatenation of three fields with distinct keys finds the value of the field with that key. */
  lemma FieldsLookup(k1: string, v1: Option<Json>, k2: string, v2: Option<Json>, k3: string, v3: Option<Json>, k: string)
    requires k1 != k2 && k1 != k3 && k2 != k3
    ensures Lookup(Field(k1, v1) + Field(k2, v2) + Field(k3, v3), k) ==
      if k == k1 then v1 else if k == k2 then v2 else if k == k3 then v3 else None
  {
    var a, b, c := Field(k1, v1), Field(k2, v2), Field(k3, v3);
    LookupAppend(a + b, c, k);
    LookupAppend(a, b, k);
    KeysAppend(a, b);
  }
}
