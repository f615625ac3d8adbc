/**
 * A JavaScript plain object as the pages use it: an ordered list of
 * key/value entries with distinct keys. Reading a missing key gives
 * `undefined`; assigning a key (directly, or by a later key in an object
 * literal after a spread) replaces the value in place when the key exists
 * and appends a new entry at the end otherwise.
 */
module Records {
  import opened JsValues
  import opened Wrappers

  type Entry = (string, Value)
  type Record = seq<Entry>

  /** `Object.keys(r)`, in order. */
  function Keys(r: Record): (ks: seq<string>)
    ensures |ks| == |r| && forall i :: 0 <= i < |r| ==> ks[i] == r[i].0
  {
    seq(|r|, i requires 0 <= i < |r| => r[i].0)
  }

  /** No key occurs twice, as in every JavaScript object. */
  predicate WellFormed(r: Record) {
    Distinct(Keys(r))
  }

  predicate Distinct(ks: seq<string>) {
    forall i, j :: 0 <= i < j < |ks| ==> ks[i] != ks[j]
  }

  /** `r[k]`: the value stored under `k`, or `undefined`. */
  function Get(r: Record, k: string): (v: Value)
    ensures k !in Keys(r) ==> v == Undefined
    decreases |r|
  {
    if |r| == 0 then Undefined
    else if r[0].0 == k then r[0].1
    else
      assert Keys(r) == [r[0].0] + Keys(r[1..]);
      Get(r[1..], k)
  }

  /** `r[k] = v` on a copy: the entry for `k` keeps its place if it exists, otherwise it is added last. */
  function Set(r: Record, k: string, v: Value): (r': Record)
    ensures Get(r', k) == v
    ensures forall k' :: k' != k ==> Get(r', k') == Get(r, k')
    decreases |r|
  {
    if |r| == 0 then [(k, v)]
    else if r[0].0 == k then [(k, v)] + r[1..]
    else [r[0]] + Set(r[1..], k, v)
  }

  /** A key list after assigning `k`: unchanged if `k` is there, otherwise `k` added last. */
  function WithKey(ks: seq<string>, k: string): seq<string> {
    if k in ks then ks else ks + [k]
  }

  /** Assignment keeps the order of the existing keys and adds a new key last. */
  lemma {:induction false} SetKeys(r: Record, k: string, v: Value)
    ensures Keys(Set(r, k, v)) == WithKey(Keys(r), k)
    decreases |r|
  {
    if |r| == 0 {
      KeysCons((k, v), []);
    } else {
      KeysCons(r[0], r[1..]);
      assert [r[0]] + r[1..] == r;
      var tail := Keys(r[1..]);
      if r[0].0 != k {
        SetKeys(r[1..], k, v);
        KeysCons(r[0], Set(r[1..], k, v));
        assert k in Keys(r) <==> k in tail;
        if k !in tail {
          assert [r[0].0] + (tail + [k]) == ([r[0].0] + tail) + [k];
        }
      } else {
        KeysCons((k, v), r[1..]);
        assert Keys(r)[0] == k;
      }
    }
  }

  /** The keys of a record with one more entry in front. */
  lemma KeysCons(e: Entry, r: Record)
    ensures Keys([e] + r) == [e.0] + Keys(r)
  {
  }

  /** Assigning a key the record does not have appends one entry. */
  lemma {:induction false} SetNewKey(r: Record, k: string, v: Value)
    requires k !in Keys(r)
    ensures Set(r, k, v) == r + [(k, v)]
    decreases |r|
  {
    if |r| > 0 {
      assert Keys(r) == [r[0].0] + Keys(r[1..]);
      SetNewKey(r[1..], k, v);
      assert r == [r[0]] + r[1..];
    }
  }

  /** Assignment keeps a record well formed. */
  lemma SetWellFormed(r: Record, k: string, v: Value)
    requires WellFormed(r)
    ensures WellFormed(Set(r, k, v))
  {
    SetKeys(r, k, v);
    var ks := Keys(r);
    if k !in ks {
      var ks' := ks + [k];
      forall i, j | 0 <= i < j < |ks'| ensures ks'[i] != ks'[j] {
        if j == |ks| {
          assert ks[i] in ks;
        }
      }
    }
  }

  /** `{...o}` for an operand that may be `undefined` or `null`, which spreads nothing. */
  function Spread(o: Option<Record>): Record {
    match o
    case Some(r) => r
    case None => []
  }

  /** `Object.entries(r).filter(([key]) => !excluded.includes(key))`. */
  function WithoutKeys(r: Record, excluded: seq<string>): (r': Record)
    ensures forall e :: e in r' <==> e in r && e.0 !in excluded
    ensures |r'| <= |r|
    decreases |r|
  {
    if |r| == 0 then []
    else
      var tail := WithoutKeys(r[1..], excluded);
      assert forall e :: e in r <==> e == r[0] || e in r[1..];
      if r[0].0 in excluded then tail else [r[0]] + tail
  }

  /** Filtering keeps the order of what it keeps: it distributes over concatenation. */
  lemma {:induction false} WithoutKeysConcat(a: Record, b: Record, excluded: seq<string>)
    ensures WithoutKeys(a + b, excluded) == WithoutKeys(a, excluded) + WithoutKeys(b, excluded)
    decreases |a|
  {
    if |a| > 0 {
      assert (a + b)[1..] == a[1..] + b;
      WithoutKeysConcat(a[1..], b, excluded);
    } else {
      assert a + b == b;
    }
  }

  /** In a well-formed record, the value read for a key is the one stored in its entry. */
  lemma {:induction false} GetAt(r: Record, i: nat)
    requires WellFormed(r) && i < |r|
    ensures Get(r, r[i].0) == r[i].1
    decreases i
  {
    if i > 0 {
      assert r[0].0 != r[i].0;
      GetAt(r[1..], i - 1);
    }
  }
}
