/**
 * Values shared by every part of the model: nullable values, exceptions as
 * results, dictionaries as association lists, and the decimal rendering of
 * integers that the client uses for `ToString()`.
 */
module Common {

  /** A C# reference that may be null, or a TLPLib `Option`. */
  datatype Option<+T> = None | Some(value: T)

  /** The exceptions the modelled code throws. */
  datatype Error =
    | ArgumentTooLong(argName: string, maxLength: int)  // checkLength: ArgumentException
    | AllParametersNull                                 // event with nothing set
    | ArgumentNull(paramName: string)                   // ArgumentNullException
    | DuplicateKey(key: string)                         // Dictionary.Add / ToDictionary on a present key
    | NoRegistry(family: string)                        // custom values without a registry
    | Unregistered(family: string, key: string)         // key missing from the registry
    | MalformedQueryString                              // the query-string parser failed

  /** A call that either returns normally or throws. */
  datatype Outcome = Pass | Fail(error: Error)

  /** A computation that returns a value or throws. */
  datatype Result<+T> = Ok(value: T) | Err(error: Error) {
    predicate IsFailure() { Err? }
    function PropagateFailure<U>(): Result<U> requires Err? { Err(error) }
    function Extract(): T requires Ok? { value }
    function ToOutcome(): (o: Outcome)
      ensures o.Pass? <==> Ok?
    {
      if Ok? then Pass else Fail(error)
    }
  }

  /** C#'s `uint`. */
  type uint32 = x: int | 0 <= x < 0x1_0000_0000

  /** C#'s `int`. */
  type int32 = x: int | -0x8000_0000 <= x < 0x8000_0000

  /**
   * A Unity `WWWForm`: the ordered list of (name, value) fields added so far.
   * It keeps every field in the order added and never refuses a repeated name.
   */
  class WwwForm {
    var fields: seq<(string, string)>

    constructor ()
      ensures fields == []
    {
      fields := [];
    }

    /** `WWWForm.AddField`. */
    method AddField(name: string, value: string)
      modifies this
      ensures fields == old(fields) + [(name, value)]
    {
      fields := fields + [(name, value)];
    }
  }

  // ---------------------------------------------------------------------
  // Dictionaries as association lists in enumeration order.

  type Dict<K, V> = seq<(K, V)>

  function Keys<K(==), V>(d: Dict<K, V>): (ks: set<K>)
    ensures forall i :: 0 <= i < |d| ==> d[i].0 in ks
    ensures forall k :: k in ks ==> exists i :: 0 <= i < |d| && d[i].0 == k
  {
    if |d| == 0 then {} else {d[0].0} + Keys(d[1..])
  }

  /** Some entry has key `k`: the membership test of a dictionary. */
  predicate HasKey<K(==), V>(d: Dict<K, V>, k: K) {
    exists i :: 0 <= i < |d| && d[i].0 == k
  }

  /** The membership test agrees with the key set. */
  lemma HasKeyKeys<K, V>(d: Dict<K, V>, k: K)
    ensures HasKey(d, k) <==> k in Keys(d)
  {
  }

  /** No key occurs twice: what every real dictionary satisfies. */
  predicate DistinctKeys<K(==), V>(d: Dict<K, V>) {
    forall i, j :: 0 <= i < j < |d| ==> d[i].0 != d[j].0
  }

  /** The value stored under `k` (the first one, should the list repeat a key). */
  function Lookup<K(==), V>(d: Dict<K, V>, k: K): (r: Option<V>)
    ensures r.None? <==> k !in Keys(d)
    ensures r.Some? ==> exists i :: 0 <= i < |d| && d[i] == (k, r.value)
  {
    if |d| == 0 then None else if d[0].0 == k then Some(d[0].1) else Lookup(d[1..], k)
  }

  /** `d[k] = v` on a dictionary: overwrite in place, or append a new entry. */
  function Put<K(==), V>(d: Dict<K, V>, k: K, v: V): Dict<K, V> {
    if |d| == 0 then [(k, v)]
    else if d[0].0 == k then [(k, v)] + d[1..]
    else [d[0]] + Put(d[1..], k, v)
  }

  lemma KeysAppend<K, V>(a: Dict<K, V>, b: Dict<K, V>)
    ensures Keys(a + b) == Keys(a) + Keys(b)
  {
    var ks := Keys(a) + Keys(b);
    forall k | k in ks ensures k in Keys(a + b) {
      if k in Keys(a) {
        var i :| 0 <= i < |a| && a[i].0 == k;
        assert (a + b)[i].0 == k;
      } else {
        var i :| 0 <= i < |b| && b[i].0 == k;
        assert (a + b)[|a| + i].0 == k;
      }
    }
    forall k | k in Keys(a + b) ensures k in ks {
      var i :| 0 <= i < |a + b| && (a + b)[i].0 == k;
      if i < |a| { assert a[i].0 == k; } else { assert b[i - |a|].0 == k; }
    }
  }

  lemma {:induction false} LookupAppend<K, V>(a: Dict<K, V>, b: Dict<K, V>, k: K)
    ensures Lookup(a + b, k) == if k in Keys(a) then Lookup(a, k) else Lookup(b, k)
  {
    if |a| != 0 {
      assert (a + b)[0] == a[0];
      assert (a + b)[1..] == a[1..] + b;
      LookupAppend(a[1..], b, k);
    } else {
      assert a + b == b;
    }
  }

  lemma DistinctKeysAppend<K, V>(a: Dict<K, V>, b: Dict<K, V>)
    ensures DistinctKeys(a + b) <==> DistinctKeys(a) && DistinctKeys(b) && Keys(a) !! Keys(b)
  {
    if DistinctKeys(a + b) {
      forall i, j | 0 <= i < |a| && 0 <= j < |b| ensures a[i].0 != b[j].0 {
        assert (a + b)[i] == a[i] && (a + b)[|a| + j] == b[j];
      }
      forall i, j | 0 <= i < j < |b| ensures b[i].0 != b[j].0 {
        assert (a + b)[|a| + i] == b[i] && (a + b)[|a| + j] == b[j];
      }
      forall i, j | 0 <= i < j < |a| ensures a[i].0 != a[j].0 {
        assert (a + b)[i] == a[i] && (a + b)[j] == a[j];
      }
    }
    if DistinctKeys(a) && DistinctKeys(b) && Keys(a) !! Keys(b) {
      forall i, j | 0 <= i < j < |a + b| ensures (a + b)[i].0 != (a + b)[j].0 {
        if j < |a| {
          assert (a + b)[i] == a[i] && (a + b)[j] == a[j];
        } else if i >= |a| {
          assert (a + b)[i] == b[i - |a|] && (a + b)[j] == b[j - |a|];
        } else {
          assert (a + b)[i] == a[i] && (a + b)[j] == b[j - |a|];
        }
      }
    }
  }

  lemma {:induction false} PutKeys<K, V>(d: Dict<K, V>, k: K, v: V)
    ensures Keys(Put(d, k, v)) == Keys(d) + {k}
  {
    if |d| != 0 && d[0].0 != k {
      PutKeys(d[1..], k, v);
      assert Put(d, k, v)[1..] == Put(d[1..], k, v);
    } else if |d| != 0 {
      assert Put(d, k, v)[1..] == d[1..];
    }
  }

  /** What `d[k] = v` does, seen through lookups: `k` now holds `v`, nothing else moves. */
  lemma {:induction false} PutLookup<K, V>(d: Dict<K, V>, k: K, v: V, k': K)
    ensures Lookup(Put(d, k, v), k') == if k' == k then Some(v) else Lookup(d, k')
  {
    if |d| != 0 && d[0].0 != k {
      PutLookup(d[1..], k, v, k');
      assert Put(d, k, v)[1..] == Put(d[1..], k, v);
    } else if |d| != 0 {
      assert Put(d, k, v)[1..] == d[1..];
    }
  }

  lemma {:induction false} PutDistinct<K, V>(d: Dict<K, V>, k: K, v: V)
    requires DistinctKeys(d)
    ensures DistinctKeys(Put(d, k, v))
  {
    if |d| != 0 {
      assert d == [d[0]] + d[1..];
      DistinctKeysAppend([d[0]], d[1..]);
      if d[0].0 != k {
        PutDistinct(d[1..], k, v);
        PutKeys(d[1..], k, v);
        assert Put(d, k, v) == [d[0]] + Put(d[1..], k, v);
        DistinctKeysAppend([d[0]], Put(d[1..], k, v));
      } else {
        assert Put(d, k, v) == [(k, v)] + d[1..];
        DistinctKeysAppend([(k, v)], d[1..]);
      }
    }
  }

  // ---------------------------------------------------------------------
  // Decimal rendering, as `ToString()` of an integer.

  predicate IsDigit(c: char) { '0' <= c <= '9' }

  function Digit(n: nat): (c: char)
    requires n < 10
    ensures IsDigit(c)
  {
    "0123456789"[n]
  }

  /** `uint.ToString()`: the decimal digits of `n`, without leading zeros. */
  function NatToString(n: nat): (s: string)
    ensures |s| > 0
    ensures forall i :: 0 <= i < |s| ==> IsDigit(s[i])
    ensures |s| > 1 ==> s[0] != '0'
    ensures n < 10 <==> |s| == 1
  {
    if n < 10 then [Digit(n)] else NatToString(n / 10) + [Digit(n % 10)]
  }

  lemma DigitInjective(a: nat, b: nat)
    requires a < 10 && b < 10 && Digit(a) == Digit(b)
    ensures a == b
  {
  }

  /** Different numbers are rendered differently: distinct slots give distinct field names. */
  lemma {:induction false} NatToStringInjective(a: nat, b: nat)
    ensures NatToString(a) == NatToString(b) ==> a == b
  {
    var s := NatToString(a);
    if s == NatToString(b) {
      if |s| == 1 {
        DigitInjective(a, b);
      } else {
        var sa, sb := NatToString(a / 10), NatToString(b / 10);
        assert s == sa + [Digit(a % 10)] && s == sb + [Digit(b % 10)];
        assert sa == s[..|s| - 1] == sb;
        NatToStringInjective(a / 10, b / 10);
        DigitInjective(a % 10, b % 10);
      }
    }
  }

  /** `int.ToString()`: a minus sign for negative numbers. */
  function IntToString(n: int): (s: string)
    ensures |s| > 0
    ensures n >= 0 ==> s == NatToString(n)
    ensures n < 0 ==> s == "-" + NatToString(-n)
  {
    if n < 0 then "-" + NatToString(-n) else NatToString(n)
  }
}
