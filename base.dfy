/** Values shared by every part of the model: Python exceptions as values, Python dicts as
    insertion-ordered association lists, and the sequence helpers the analyser is stated with. */
module Base {

  datatype Option<T> = None | Some(value: T)

  /** The Python exception classes the modelled code can raise. */
  datatype ExceptionKind =
    | ValueError
    | TypeError
    | IndexError
    | AttributeError
    | ZeroDivisionError
    | ValidationError
    | RelatedObjectDoesNotExist
    | OtherError

  /** A raised exception: its class and the text `str(e)` gives. */
  datatype Exception = Exception(kind: ExceptionKind, message: string)

  /** A Python call that either returns a value or raises. */
  datatype Result<T> = Ok(value: T) | Err(error: Exception) {
    predicate IsFailure() { Err? }

    function PropagateFailure<U>(): Result<U>
      requires Err?
    {
      Err(error)
    }

    function Extract(): T
      requires Ok?
    {
      value
    }
  }

  // ---------------------------------------------------------------------------------------
  // Sequences

  ghost predicate Distinct<T>(s: seq<T>) {
    forall i, j :: 0 <= i < j < |s| ==> s[i] != s[j]
  }

  /** The index of the first occurrence of `x` in `s` (Python's `list.index`). */
  function IndexOf<T(==)>(s: seq<T>, x: T): (k: nat)
    requires x in s
    ensures k < |s| && s[k] == x
    ensures forall j :: 0 <= j < k ==> s[j] != x
  {
    if s[0] == x then 0 else 1 + IndexOf(s[1..], x)
  }

  lemma IndexOfAppend<T>(s: seq<T>, x: T, y: T)
    requires x in s + [y]
    ensures IndexOf(s + [y], x) == if x in s then IndexOf(s, x) else |s|
  {
    var a := IndexOf(s + [y], x);
    if x in s {
      var b := IndexOf(s, x);
      assert (s + [y])[b] == x;
      assert a < |s| ==> s[a] == x;
    } else {
      assert forall j :: 0 <= j < |s| ==> (s + [y])[j] != x;
    }
  }

  /** How many times `x` occurs in `s`. */
  function Count<T(==)>(s: seq<T>, x: T): nat
  {
    if s == [] then 0
    else Count(s[..|s| - 1], x) + (if s[|s| - 1] == x then 1 else 0)
  }

  lemma {:induction false} CountBound<T>(s: seq<T>, x: T)
    ensures Count(s, x) <= |s|
    ensures Count(s, x) == |s| <==> forall j :: 0 <= j < |s| ==> s[j] == x
    ensures Count(s, x) > 0 <==> x in s
  {
    if s != [] {
      var p := s[..|s| - 1];
      CountBound(p, x);
      assert s == p + [s[|s| - 1]];
      if Count(s, x) == |s| {
        forall j | 0 <= j < |s| ensures s[j] == x {
          if j < |s| - 1 { assert s[j] == p[j]; }
        }
      }
      if x in s && x !in p {
        assert s[|s| - 1] == x;
      }
    }
  }

  lemma CountAppend<T>(s: seq<T>, x: T, y: T)
    ensures Count(s + [y], x) == Count(s, x) + (if y == x then 1 else 0)
  {
    assert (s + [y])[..|s|] == s;
  }

  /** The elements of `s`, each once, in order of first occurrence (the key order a Python
      dict or Counter built from `s` has). */
  function FirstOccurrences<T(==)>(s: seq<T>): (r: seq<T>)
    ensures Distinct(r)
    ensures forall i :: 0 <= i < |s| ==> s[i] in r
    ensures forall i :: 0 <= i < |r| ==> r[i] in s
    ensures |r| <= |s|
  {
    if s == [] then []
    else
      var p := s[..|s| - 1];
      var rp := FirstOccurrences(p);
      assert forall i :: 0 <= i < |s| - 1 ==> s[i] == p[i];
      if s[|s| - 1] in p then rp else rp + [s[|s| - 1]]
  }

  lemma FirstOccurrencesAppend<T>(s: seq<T>, y: T)
    ensures FirstOccurrences(s + [y]) ==
            if y in s then FirstOccurrences(s) else FirstOccurrences(s) + [y]
  {
    assert (s + [y])[..|s|] == s;
  }

  /** The first occurrences hold the same elements as `s`, so appending `y` adds it exactly
      when it is not among them yet. */
  lemma FirstOccurrencesStep<T>(s: seq<T>, y: T)
    ensures (y in FirstOccurrences(s)) == (y in s)
    ensures FirstOccurrences(s + [y]) ==
            if y in FirstOccurrences(s) then FirstOccurrences(s) else FirstOccurrences(s) + [y]
  {
    FirstOccurrencesAppend(s, y);
    if y in s {
      var q :| 0 <= q < |s| && s[q] == y;
    }
  }

  /** Storing under the `j`-th element of `s` keeps a dict's keys the first occurrences of
      the elements so far. */
  lemma KeysStep<K, V>(s: seq<K>, j: nat, d: seq<(K, V)>, v: V)
    requires j < |s| && Keys(d) == FirstOccurrences(s[..j])
    ensures Keys(Put(d, s[j], v)) == FirstOccurrences(s[..j + 1])
  {
    assert s[..j + 1] == s[..j] + [s[j]];
    FirstOccurrencesStep(s[..j], s[j]);
  }

  /** First occurrences are listed in the order in which they first occur in `s`. */
  lemma {:induction false} FirstOccurrencesOrdered<T>(s: seq<T>, i: nat, j: nat)
    requires i < j < |FirstOccurrences(s)|
    ensures IndexOf(s, FirstOccurrences(s)[i]) < IndexOf(s, FirstOccurrences(s)[j])
  {
    var p := s[..|s| - 1];
    var y := s[|s| - 1];
    assert s == p + [y];
    var fo := FirstOccurrences(s);
    FirstOccurrencesAppend(p, y);
    var fp := FirstOccurrences(p);
    assert fo[i] in s && fo[j] in s;
    if j < |fp| {
      assert fo[i] == fp[i] && fo[j] == fp[j];
      FirstOccurrencesOrdered(p, i, j);
      IndexOfAppend(p, fp[i], y);
      IndexOfAppend(p, fp[j], y);
    } else {
      assert y !in p && fo[j] == y && fo[i] == fp[i];
      IndexOfAppend(p, fp[i], y);
      IndexOfAppend(p, y, y);
    }
  }

  /** A distinct sequence holds each of its elements exactly once. */
  lemma {:induction false} CountInDistinct<T>(s: seq<T>, x: T)
    requires Distinct(s)
    ensures Count(s, x) == if x in s then 1 else 0
  {
    if s != [] {
      var p := s[..|s| - 1];
      assert s == p + [s[|s| - 1]];
      CountInDistinct(p, x);
      assert s[|s| - 1] !in p;
    }
  }

  /** If every element of `s` is distinct, first occurrences keep all of `s`. */
  lemma {:induction false} FirstOccurrencesOfDistinct<T>(s: seq<T>)
    requires Distinct(s)
    ensures FirstOccurrences(s) == s
  {
    if s != [] {
      var p := s[..|s| - 1];
      assert s == p + [s[|s| - 1]];
      FirstOccurrencesOfDistinct(p);
      FirstOccurrencesAppend(p, s[|s| - 1]);
    }
  }

  /** The index of the last occurrence of `x` in `s`. */
  function LastIndexOf<T(==)>(s: seq<T>, x: T): (k: nat)
    requires x in s
    ensures k < |s| && s[k] == x
    ensures forall j :: k < j < |s| ==> s[j] != x
  {
    if s[|s| - 1] == x then |s| - 1
    else
      assert x in s[..|s| - 1] by {
        var i :| 0 <= i < |s| && s[i] == x;
        assert s[..|s| - 1][i] == x;
      }
      LastIndexOf(s[..|s| - 1], x)
  }

  /** Extending a prefix by one element moves the last occurrence of that element. */
  lemma LastIndexOfStep<T>(s: seq<T>, j: nat, x: T)
    requires j < |s| && x in s[..j + 1]
    ensures x != s[j] ==> x in s[..j]
    ensures LastIndexOf(s[..j + 1], x) == if x == s[j] then j else LastIndexOf(s[..j], x)
  {
    assert s[..j + 1][..j] == s[..j];
    if x != s[j] {
      var q :| 0 <= q < j + 1 && s[..j + 1][q] == x;
      assert s[..j][q] == x;
    }
  }

  lemma DistinctLastIndex<T>(s: seq<T>, i: nat)
    requires Distinct(s) && i < |s|
    ensures LastIndexOf(s, s[i]) == i
  {
  }

  lemma NonNegativeProduct(a: real, b: real)
    requires 0.0 <= a && 0.0 <= b
    ensures 0.0 <= a * b
  {
  }

  function SumReals(xs: seq<real>): real
  {
    if xs == [] then 0.0 else SumReals(xs[..|xs| - 1]) + xs[|xs| - 1]
  }

  lemma SumRealsAppend(xs: seq<real>, y: real)
    ensures SumReals(xs + [y]) == SumReals(xs) + y
  {
    assert (xs + [y])[..|xs|] == xs;
  }

  /** The index of the first element failing `ok` (`|s|` if every element passes). */
  function FirstFailing<T>(s: seq<T>, ok: T -> bool): (k: nat)
    ensures k <= |s|
    ensures forall j :: 0 <= j < k ==> ok(s[j])
    ensures k < |s| ==> !ok(s[k])
  {
    if s == [] then 0
    else if !ok(s[0]) then 0
    else
      var k := 1 + FirstFailing(s[1..], ok);
      assert forall j :: 1 <= j < |s| ==> s[j] == s[1..][j - 1];
      k
  }

  /** The first index holding the largest value: what Python's `max` over an ordered
      iterable picks (it only replaces its candidate on a strictly larger value), and what
      `numpy.argmax` and `data.index(max(data))` return. */
  function FirstMaxIndex(xs: seq<real>): (k: nat)
    requires |xs| > 0
    ensures k < |xs|
    ensures forall j :: 0 <= j < |xs| ==> xs[j] <= xs[k]
    ensures forall j :: 0 <= j < k ==> xs[j] < xs[k]
  {
    if |xs| == 1 then 0
    else
      var k := FirstMaxIndex(xs[..|xs| - 1]);
      if xs[|xs| - 1] > xs[k] then |xs| - 1 else k
  }

  /** The three postconditions of FirstMaxIndex pin it down: no other index satisfies them. */
  lemma FirstMaxIndexUnique(xs: seq<real>, k: nat)
    requires k < |xs|
    requires forall j :: 0 <= j < |xs| ==> xs[j] <= xs[k]
    requires forall j :: 0 <= j < k ==> xs[j] < xs[k]
    ensures FirstMaxIndex(xs) == k
  {
    var m := FirstMaxIndex(xs);
    assert xs[m] <= xs[k] && xs[k] <= xs[m];
  }

  // ---------------------------------------------------------------------------------------
  // Python dicts

  /** The keys of a dict, in insertion order. */
  function Keys<K, V>(d: seq<(K, V)>): (ks: seq<K>)
    ensures |ks| == |d|
    ensures forall i :: 0 <= i < |d| ==> ks[i] == d[i].0
  {
    seq(|d|, i requires 0 <= i < |d| => d[i].0)
  }

  /** `d.get(k)`: the value stored under the first entry with key `k`. */
  function Get<K(==), V>(d: seq<(K, V)>, k: K): (r: Option<V>)
    ensures r.None? <==> k !in Keys(d)
    ensures r.Some? ==> r.value == d[IndexOf(Keys(d), k)].1
  {
    if k in Keys(d) then Some(d[IndexOf(Keys(d), k)].1) else None
  }

  /** `d[k] = v`: an existing key keeps its position and takes the new value; a new key is
      appended. */
  function Put<K(==), V>(d: seq<(K, V)>, k: K, v: V): (r: seq<(K, V)>)
    ensures Keys(r) == if k in Keys(d) then Keys(d) else Keys(d) + [k]
  {
    if k in Keys(d) then d[IndexOf(Keys(d), k) := (k, v)] else d + [(k, v)]
  }

  lemma PutDistinct<K, V>(d: seq<(K, V)>, k: K, v: V)
    requires Distinct(Keys(d))
    ensures Distinct(Keys(Put(d, k, v)))
  {
  }

  /** With distinct keys, `d[k] = v` changes the entry for `k` and no other. */
  lemma PutAt<K, V>(d: seq<(K, V)>, k: K, v: V)
    requires Distinct(Keys(d))
    ensures forall i :: 0 <= i < |d| ==> Put(d, k, v)[i] == if d[i].0 == k then (k, v) else d[i]
    ensures k !in Keys(d) ==> |Put(d, k, v)| == |d| + 1 && Put(d, k, v)[|d|] == (k, v)
    ensures k in Keys(d) ==> |Put(d, k, v)| == |d|
  {
    if k in Keys(d) {
      var q := IndexOf(Keys(d), k);
      forall i | 0 <= i < |d| && d[i].0 == k ensures i == q {
        assert Keys(d)[i] == Keys(d)[q];
      }
    }
  }

  /** With distinct keys, looking up the key at position `i` finds position `i`. */
  lemma GetAt<K, V>(d: seq<(K, V)>, i: nat)
    requires Distinct(Keys(d)) && i < |d|
    ensures Get(d, d[i].0) == Some(d[i].1)
  {
    var ks := Keys(d);
    assert ks[i] == d[i].0;
    var m := IndexOf(ks, d[i].0);
    assert ks[m] == ks[i];
  }

  lemma GetPut<K, V>(d: seq<(K, V)>, k: K, v: V, k': K)
    ensures Get(Put(d, k, v), k') == if k' == k then Some(v) else Get(d, k')
  {
    var r := Put(d, k, v);
    var ks := Keys(d);
    if k in ks {
      var p := IndexOf(ks, k);
      assert Keys(r) == ks;
      if k' == k {
        assert IndexOf(Keys(r), k') == p;
      } else if k' in ks {
        assert IndexOf(Keys(r), k') == IndexOf(ks, k');
      }
    } else {
      assert Keys(r) == ks + [k];
      if k' == k {
        assert IndexOf(Keys(r), k') == |d|;
      } else if k' in ks {
        var q := IndexOf(ks, k');
        assert IndexOf(Keys(r), k') == q by {
          assert Keys(r)[q] == k';
          forall j | 0 <= j < q ensures Keys(r)[j] != k' { assert Keys(r)[j] == ks[j]; }
          var q' := IndexOf(Keys(r), k');
          assert Keys(r)[q'] == k';
        }
      } else {
        assert k' !in Keys(r);
      }
    }
  }

  /** Two dicts with the same key order and the same lookups are equal. */
  lemma {:induction false} DictExtensional<K, V>(d1: seq<(K, V)>, d2: seq<(K, V)>)
    requires Keys(d1) == Keys(d2) && Distinct(Keys(d1))
    requires forall i :: 0 <= i < |d1| ==> Get(d1, d1[i].0) == Get(d2, d1[i].0)
    ensures d1 == d2
  {
    forall i | 0 <= i < |d1| ensures d1[i] == d2[i] {
      assert Keys(d1)[i] == Keys(d2)[i];
      GetAt(d1, i);
      GetAt(d2, i);
    }
  }

  // ---------------------------------------------------------------------------------------
  // Strings

  /** `str.lower()` on one character; only ASCII letters are mapped. */
  function LowerChar(c: char): char
  {
    if 'A' <= c <= 'Z' then (c as int + 32) as char else c
  }

  function Lower(s: string): (r: string)
    ensures |r| == |s|
    ensures forall i :: 0 <= i < |s| ==> r[i] == LowerChar(s[i])
  {
    seq(|s|, i requires 0 <= i < |s| => LowerChar(s[i]))
  }

  predicate IsDigit(c: char) { '0' <= c <= '9' }

  function DigitChar(d: nat): (c: char)
    requires d < 10
    ensures IsDigit(c)
  {
    ('0' as int + d) as char
  }

  /** `f"{n}"` for a non-negative integer. */
  function NatToString(n: nat): (s: string)
    ensures |s| > 0
    ensures forall i :: 0 <= i < |s| ==> IsDigit(s[i])
  {
    if n < 10 then [DigitChar(n)] else NatToString(n / 10) + [DigitChar(n % 10)]
  }

  function DigitValue(c: char): (d: nat)
    requires IsDigit(c)
    ensures d < 10
  {
    c as int - '0' as int
  }

  /** The value of a string of decimal digits, the inverse of NatToString. */
  function ParseDigits(s: string): nat
    requires forall i :: 0 <= i < |s| ==> IsDigit(s[i])
  {
    if s == [] then 0
    else ParseDigits(s[..|s| - 1]) * 10 + DigitValue(s[|s| - 1])
  }

  lemma {:induction false} ParseNatToString(n: nat)
    ensures ParseDigits(NatToString(n)) == n
  {
    if n >= 10 {
      var s := NatToString(n);
      assert s[..|s| - 1] == NatToString(n / 10);
      ParseNatToString(n / 10);
    }
  }

  lemma NatToStringInjective(a: nat, b: nat)
    requires NatToString(a) == NatToString(b)
    ensures a == b
  {
    ParseNatToString(a);
    ParseNatToString(b);
  }
}
