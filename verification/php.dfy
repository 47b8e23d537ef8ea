/**
 The fragment of PHP's value model that the SQS datasource relies on:
 scalar and array values, `isset` and `empty`, the loose comparison with the
 string 'COUNT', and the ordered arrays that `array_combine` builds.
 */
module Php {

  datatype Option<+T> = None | Some(value: T)

  /** An array key: PHP arrays are keyed by integers or by strings. */
  datatype Key = IntKey(i: int) | StrKey(s: string)

  /**
   A PHP value. An array is an ordered map, kept as the sequence of its
   entries in insertion order; the operations below never repeat a key.
   */
  datatype Value =
    | Null
    | Bool(b: bool)
    | Int(i: int)
    | Str(s: string)
    | Arr(entries: seq<(Key, Value)>)

  type Entries = seq<(Key, Value)>

  /** `isset($x)`: the value exists and is not null. */
  predicate IsSet(v: Value) {
    !v.Null?
  }

  /**
   `empty($x)`: null, false, 0, "", "0" and the empty array count as empty.
   A value that is not empty is always set, so `isset($x) && !empty($x)`
   says no more than `!empty($x)`.
   */
  predicate Empty(v: Value)
    ensures !Empty(v) ==> IsSet(v)
  {
    match v
    case Null => true
    case Bool(b) => !b
    case Int(i) => i == 0
    case Str(s) => s == "" || s == "0"
    case Arr(e) => e == []
  }

  /**
   `$a[$k]` on a string-keyed array: a missing key reads as null. Arrays whose
   entry order never matters (query data, conditions, request options) are
   kept as maps; the record that is JSON-encoded keeps its order as `Entries`.
   */
  function Get(a: map<string, Value>, k: string): Value {
    if k in a then a[k] else Null
  }

  /**
   `$v == 'COUNT'` under PHP 8 loose comparison. 'COUNT' is not numeric, so
   another string is compared as a string; a boolean is compared with the
   truth value of 'COUNT', which is true; null, integers and arrays never
   compare equal to it.
   */
  predicate LooselyEqualsCount(v: Value)
    ensures LooselyEqualsCount(v) ==> !Empty(v)
    ensures v.Str? ==> (LooselyEqualsCount(v) <==> v.s == "COUNT")
    ensures v.Null? || v.Int? || v.Arr? ==> !LooselyEqualsCount(v)
  {
    match v
    case Str(s) => s == "COUNT"
    case Bool(b) => b
    case _ => false
  }

  predicate Distinct<T(==)>(s: seq<T>) {
    forall i, j :: 0 <= i < j < |s| ==> s[i] != s[j]
  }

  /** The keys of an array, in order. */
  function Keys(a: Entries): seq<Key> {
    if a == [] then [] else [a[0].0] + Keys(a[1..])
  }

  /** `$a[$k]` on an array, `None` when the key is absent. */
  function Lookup(a: Entries, k: Key): Option<Value> {
    if a == [] then None
    else if a[0].0 == k then Some(a[0].1)
    else Lookup(a[1..], k)
  }

  /**
   `$a[$k] = $v`: an existing entry for `k` is overwritten where it stands,
   otherwise a new entry is appended at the end.
   */
  function Assign(a: Entries, k: Key, v: Value): (r: Entries)
    ensures Lookup(r, k) == Some(v)
    ensures forall k' :: k' != k ==> Lookup(r, k') == Lookup(a, k')
    ensures k in Keys(a) ==> Keys(r) == Keys(a)
    ensures k !in Keys(a) ==> r == a + [(k, v)]
    decreases |a|
  {
    if a == [] then [(k, v)]
    else if a[0].0 == k then [(k, v)] + a[1..]
    else
      var rest := Assign(a[1..], k, v);
      assert [a[0]] + (a[1..] + [(k, v)]) == a + [(k, v)];
      [a[0]] + rest
  }

  lemma {:induction false} KeysAppend(a: Entries, e: (Key, Value))
    ensures Keys(a + [e]) == Keys(a) + [e.0]
  {
    if a != [] {
      assert (a + [e])[1..] == a[1..] + [e];
      KeysAppend(a[1..], e);
    }
  }

  /** The index of the last occurrence of `k` in `keys`. */
  function LastIndexOf(keys: seq<Key>, k: Key): (i: nat)
    requires k in keys
    ensures i < |keys| && keys[i] == k
    ensures forall j :: i < j < |keys| ==> keys[j] != k
    decreases |keys|
  {
    if keys[|keys| - 1] == k then |keys| - 1
    else
      assert k in keys[..|keys| - 1] by {
        var j :| 0 <= j < |keys| && keys[j] == k;
        assert keys[..|keys| - 1][j] == k;
      }
      LastIndexOf(keys[..|keys| - 1], k)
  }

  /**
   `array_combine($keys, $values)`: pairs keys with values positionally,
   assigning entry after entry from the first position to the last. A key
   that occurs more than once appears once, with the value of its last
   occurrence.
   */
  function Combine(keys: seq<Key>, values: seq<Value>): (r: Entries)
    requires |keys| == |values|
    ensures Distinct(Keys(r))
    ensures forall k :: k in Keys(r) <==> k in keys
    ensures |r| <= |keys|
    decreases |keys|
  {
    if keys == [] then []
    else
      var n := |keys| - 1;
      var prefix := Combine(keys[..n], values[..n]);
      assert keys == keys[..n] + [keys[n]];
      var r := Assign(prefix, keys[n], values[n]);
      KeysAppend(prefix, (keys[n], values[n]));
      LengthOfKeys(prefix);
      LengthOfKeys(r);
      r
  }

  lemma {:induction false} LengthOfKeys(a: Entries)
    ensures |Keys(a)| == |a|
  {
    if a != [] {
      LengthOfKeys(a[1..]);
    }
  }

  /** Reading a combined array gives the value paired with the LAST occurrence of the key. */
  lemma {:induction false} CombineLookup(keys: seq<Key>, values: seq<Value>, k: Key)
    requires |keys| == |values|
    ensures k in keys ==> Lookup(Combine(keys, values), k) == Some(values[LastIndexOf(keys, k)])
    ensures k !in keys ==> Lookup(Combine(keys, values), k) == None
    decreases |keys|
  {
    if keys != [] {
      var n := |keys| - 1;
      assert keys == keys[..n] + [keys[n]];
      CombineLookup(keys[..n], values[..n], k);
      if k != keys[n] && k in keys {
        assert k in keys[..n] by {
          var j :| 0 <= j < |keys| && keys[j] == k;
          assert keys[..n][j] == k;
        }
      }
    }
  }

  /** Each key once, in the order of its first occurrence. */
  function FirstOccurrences(keys: seq<Key>): seq<Key>
    decreases |keys|
  {
    if keys == [] then []
    else
      var n := |keys| - 1;
      var seen := FirstOccurrences(keys[..n]);
      if keys[n] in seen then seen else seen + [keys[n]]
  }

  /** The entries of a combined array stand in the order in which their keys first occur. */
  lemma {:induction false} CombineKeyOrder(keys: seq<Key>, values: seq<Value>)
    requires |keys| == |values|
    ensures Keys(Combine(keys, values)) == FirstOccurrences(keys)
    decreases |keys|
  {
    if keys != [] {
      var n := |keys| - 1;
      var prefix := Combine(keys[..n], values[..n]);
      CombineKeyOrder(keys[..n], values[..n]);
      assert keys == keys[..n] + [keys[n]];
      if keys[n] !in Keys(prefix) {
        KeysAppend(prefix, (keys[n], values[n]));
      }
    }
  }

  /** With no repeated key, `array_combine` is the positional zip of the two lists. */
  lemma {:induction false} CombineDistinctIsZip(keys: seq<Key>, values: seq<Value>)
    requires |keys| == |values|
    requires Distinct(keys)
    ensures |Combine(keys, values)| == |keys|
    ensures forall i :: 0 <= i < |keys| ==> Combine(keys, values)[i] == (keys[i], values[i])
    decreases |keys|
  {
    if keys != [] {
      var n := |keys| - 1;
      var prefix := Combine(keys[..n], values[..n]);
      assert Distinct(keys[..n]);
      CombineDistinctIsZip(keys[..n], values[..n]);
      assert keys[n] !in keys[..n];
      assert Combine(keys, values) == prefix + [(keys[n], values[n])];
    }
  }
}
