/** Decoded JSON values as the bridge sees them after `json.loads`:
    Python dicts keep insertion order, so an object is an ordered sequence of
    members. Numbers are integers (the bridge never does arithmetic on them). */
module Json {
  import opened Wrappers

  datatype Json =
    | JNull
    | JBool(b: bool)
    | JNum(n: int)
    | JStr(s: string)
    | JArr(items: seq<Json>)
    | JObj(members: seq<Member>)

  datatype Member = Member(key: string, value: Json)

  /** No key occurs twice: the shape of every Python dict. */
  predicate DistinctKeys(ms: seq<Member>) {
    forall i, j :: 0 <= i < j < |ms| ==> ms[i].key != ms[j].key
  }

  /** `d.get(key)`: the value stored under `key`, the first one if several. */
  function Lookup(ms: seq<Member>, key: string): Option<Json> {
    if |ms| == 0 then None
    else if ms[0].key == key then Some(ms[0].value)
    else Lookup(ms[1..], key)
  }

  /** A lookup finds a value exactly when some member has the key, and the
      value it finds is that of the first such member. */
  lemma {:induction false} LookupFindsFirst(ms: seq<Member>, key: string)
    ensures Lookup(ms, key).None? <==> forall i :: 0 <= i < |ms| ==> ms[i].key != key
    ensures Lookup(ms, key).Some? ==>
      exists i :: 0 <= i < |ms| && ms[i] == Member(key, Lookup(ms, key).value) &&
        forall j :: 0 <= j < i ==> ms[j].key != key
  {
    if |ms| > 0 && ms[0].key != key {
      LookupFindsFirst(ms[1..], key);
      assert forall i :: 1 <= i < |ms| ==> ms[i] == ms[1..][i - 1];
      if Lookup(ms, key).Some? {
        var i :| 0 <= i < |ms[1..]| && ms[1..][i] == Member(key, Lookup(ms, key).value) &&
          forall j :: 0 <= j < i ==> ms[1..][j].key != key;
        assert ms[i + 1] == Member(key, Lookup(ms, key).value);
        forall j | 0 <= j < i + 1
          ensures ms[j].key != key
        {
          if j > 0 {
            assert ms[j] == ms[1..][j - 1];
          }
        }
      }
    } else if |ms| > 0 {
      assert ms[0] == Member(key, Lookup(ms, key).value);
    }
  }

  /** In a dict, the member at position `i` is what a lookup of its key finds. */
  lemma LookupAt(ms: seq<Member>, i: nat)
    requires DistinctKeys(ms) && i < |ms|
    ensures Lookup(ms, ms[i].key) == Some(ms[i].value)
  {
    if i > 0 {
      DistinctTail(ms);
      assert ms[1..][i - 1] == ms[i];
      LookupAt(ms[1..], i - 1);
    }
  }

  /** `d.get(key, default)`. */
  function GetOr(ms: seq<Member>, key: string, default: Json): Json {
    Lookup(ms, key).GetOr(default)
  }

  /** `d[key] = v`: an existing key keeps its position, a new key is appended. */
  function Store(ms: seq<Member>, key: string, v: Json): (r: seq<Member>)
    ensures Lookup(r, key) == Some(v)
    ensures Lookup(ms, key).Some? ==> |r| == |ms|
    ensures Lookup(ms, key).None? ==> r == ms + [Member(key, v)]
  {
    if |ms| == 0 then [Member(key, v)]
    else if ms[0].key == key then
      LookupCons(Member(key, v), ms[1..], key);
      [Member(key, v)] + ms[1..]
    else
      var rest := Store(ms[1..], key, v);
      StoreFurther(ms, key, v, rest);
      [ms[0]] + rest
  }

  /** A lookup in `[m] + rest` finds `m` first. */
  lemma LookupCons(m: Member, rest: seq<Member>, k: string)
    ensures Lookup([m] + rest, k) == if m.key == k then Some(m.value) else Lookup(rest, k)
  {
    assert ([m] + rest)[1..] == rest;
  }

  /** Storing past a first member whose key differs. */
  lemma StoreFurther(ms: seq<Member>, key: string, v: Json, rest: seq<Member>)
    requires |ms| > 0 && ms[0].key != key
    requires Lookup(rest, key) == Some(v)
    requires Lookup(ms[1..], key).Some? ==> |rest| == |ms[1..]|
    requires Lookup(ms[1..], key).None? ==> rest == ms[1..] + [Member(key, v)]
    ensures Lookup([ms[0]] + rest, key) == Some(v)
    ensures Lookup(ms, key).Some? ==> |[ms[0]] + rest| == |ms|
    ensures Lookup(ms, key).None? ==> [ms[0]] + rest == ms + [Member(key, v)]
  {
    assert ms == [ms[0]] + ms[1..];
    LookupCons(ms[0], rest, key);
    LookupCons(ms[0], ms[1..], key);
  }

  /** `d[key] = v` leaves every other key reading as before. */
  lemma {:induction false} StoreFrame(ms: seq<Member>, key: string, v: Json, k: string)
    requires k != key
    ensures Lookup(Store(ms, key, v), k) == Lookup(ms, k)
  {
    if |ms| == 0 {
      LookupCons(Member(key, v), [], k);
    } else {
      assert ms == [ms[0]] + ms[1..];
      LookupCons(ms[0], ms[1..], k);
      if ms[0].key == key {
        LookupCons(Member(key, v), ms[1..], k);
      } else {
        StoreFrame(ms[1..], key, v, k);
        LookupCons(ms[0], Store(ms[1..], key, v), k);
      }
    }
  }

  lemma StoreGrowsByAtMostOne(ms: seq<Member>, key: string, v: Json)
    ensures |ms| <= |Store(ms, key, v)| <= |ms| + 1
  {
  }

  /** `d[k] = v` leaves every key where it was, and every member under
      another key untouched; only a new key is added, at the end. */
  lemma {:induction false} StoreKeepsPositions(ms: seq<Member>, key: string, v: Json)
    ensures |Store(ms, key, v)| >= |ms|
    ensures forall i :: 0 <= i < |ms| ==> Store(ms, key, v)[i].key == ms[i].key
    ensures forall i :: 0 <= i < |ms| && ms[i].key != key ==> Store(ms, key, v)[i] == ms[i]
  {
    if |ms| > 0 {
      var r := Store(ms, key, v);
      if ms[0].key == key {
        assert r == [Member(key, v)] + ms[1..];
      } else {
        StoreKeepsPositions(ms[1..], key, v);
        var rest := Store(ms[1..], key, v);
        assert r == [ms[0]] + rest;
        forall i | 0 <= i < |ms|
          ensures r[i].key == ms[i].key && (ms[i].key != key ==> r[i] == ms[i])
        {
          if i > 0 {
            assert r[i] == rest[i - 1] && ms[i] == ms[1..][i - 1];
          }
        }
      }
    }
  }

  /** Storing into a dict keeps it a dict. */
  lemma {:induction false} StoreKeepsDistinctKeys(ms: seq<Member>, key: string, v: Json)
    ensures DistinctKeys(ms) ==> DistinctKeys(Store(ms, key, v))
  {
    if DistinctKeys(ms) && |ms| > 0 {
      var r := Store(ms, key, v);
      if ms[0].key == key {
        assert r == [Member(key, v)] + ms[1..];
        forall i, j | 0 <= i < j < |r|
          ensures r[i].key != r[j].key
        {
          assert r[j] == ms[j];
        }
      } else {
        var tail := ms[1..];
        DistinctTail(ms);
        StoreKeepsDistinctKeys(tail, key, v);
        var rest := Store(tail, key, v);
        assert r == [ms[0]] + rest;
        FirstKeyNotInTail(ms);
        StoreFrame(tail, key, v, ms[0].key);
        PrependDistinct(ms[0], rest);
      }
    }
  }

  lemma DistinctTail(ms: seq<Member>)
    requires DistinctKeys(ms) && |ms| > 0
    ensures DistinctKeys(ms[1..])
  {
    forall i, j | 0 <= i < j < |ms[1..]|
      ensures ms[1..][i].key != ms[1..][j].key
    {
      assert ms[1..][i] == ms[i + 1] && ms[1..][j] == ms[j + 1];
    }
  }

  lemma FirstKeyNotInTail(ms: seq<Member>)
    requires DistinctKeys(ms) && |ms| > 0
    ensures Lookup(ms[1..], ms[0].key).None?
  {
    LookupFindsFirst(ms[1..], ms[0].key);
    forall i | 0 <= i < |ms[1..]|
      ensures ms[1..][i].key != ms[0].key
    {
      assert ms[1..][i] == ms[i + 1];
    }
  }

  lemma PrependDistinct(m: Member, rest: seq<Member>)
    requires DistinctKeys(rest) && Lookup(rest, m.key).None?
    ensures DistinctKeys([m] + rest)
  {
    LookupFindsFirst(rest, m.key);
    var r := [m] + rest;
    forall i, j | 0 <= i < j < |r|
      ensures r[i].key != r[j].key
    {
      assert r[j] == rest[j - 1];
      if i > 0 {
        assert r[i] == rest[i - 1];
      }
    }
  }

  /** Python truthiness of a decoded value (`if value:`). */
  predicate Truthy(j: Json) {
    match j
    case JNull => false
    case JBool(b) => b
    case JNum(n) => n != 0
    case JStr(s) => |s| > 0
    case JArr(items) => |items| > 0
    case JObj(ms) => |ms| > 0
  }
}
