/**
 * Models of the few java.lang / java.util calls that the examples build on:
 * `List.remove(Object)`, the `DoubleStream.sum` / `IntStream.sum` totals,
 * `String.toLowerCase`, `String.equalsIgnoreCase` and `Map.getOrDefault`.
 * Strings are sequences of characters and case mapping is ASCII-only.
 */
module JavaLib {

  datatype Option<T> = None | Some(value: T)

  /** A call that either returns a value or throws the exception `error`. */
  datatype Result<T, E> = Success(value: T) | Failure(error: E)

  /** A `void` call that either returns normally or throws `error`. */
  datatype Outcome<E> = Pass | Fail(error: E)

  // ---------------------------------------------------------------------
  // List.remove(Object): removes the FIRST element equal to the argument
  // ---------------------------------------------------------------------

  /** Position of the first occurrence of `x` in `s`. */
  function FirstIndex<T(==)>(s: seq<T>, x: T): (i: nat)
    requires x in s
    ensures i < |s| && s[i] == x && x !in s[..i]
  {
    if s[0] == x then 0 else 1 + FirstIndex(s[1..], x)
  }

  /** The list after `list.remove(x)`. */
  function RemoveFirst<T(==)>(s: seq<T>, x: T): (r: seq<T>)
    ensures x !in s ==> r == s
    ensures x in s ==> |r| == |s| - 1
  {
    if s == [] then []
    else if s[0] == x then s[1..]
    else [s[0]] + RemoveFirst(s[1..], x)
  }

  /** Removing the first occurrence cuts exactly that element out: the part
      before it and the part after it are kept, in their order. */
  lemma {:induction false} RemoveFirstCutsFirstOccurrence<T>(s: seq<T>, x: T)
    requires x in s
    ensures RemoveFirst(s, x) == s[..FirstIndex(s, x)] + s[FirstIndex(s, x) + 1..]
  {
    if s[0] != x {
      RemoveFirstCutsFirstOccurrence(s[1..], x);
      assert s[1..][..FirstIndex(s[1..], x)] + s[1..][FirstIndex(s[1..], x) + 1..]
          == s[1..FirstIndex(s, x)] + s[FirstIndex(s, x) + 1..];
    }
  }

  /** As a bag, `remove(x)` takes away one `x` when there is one and nothing else. */
  lemma {:induction false} RemoveFirstMultiset<T>(s: seq<T>, x: T)
    ensures multiset(RemoveFirst(s, x)) == multiset(s) - multiset{x}
  {
    if s != [] {
      assert s == [s[0]] + s[1..];
      if s[0] != x {
        RemoveFirstMultiset(s[1..], x);
      }
    }
  }

  /** `remove(x)` after appending `t`: when `x` already occurs in `s` the
      occurrence in `s` is the one removed, otherwise the search goes on into `t`. */
  lemma {:induction false} RemoveFirstAppend<T>(s: seq<T>, t: seq<T>, x: T)
    ensures x in s ==> RemoveFirst(s + t, x) == RemoveFirst(s, x) + t
    ensures x !in s ==> RemoveFirst(s + t, x) == s + RemoveFirst(t, x)
  {
    if s == [] {
      assert s + t == t;
    } else {
      assert (s + t)[0] == s[0] && (s + t)[1..] == s[1..] + t;
      if s[0] != x {
        RemoveFirstAppend(s[1..], t, x);
        assert s == [s[0]] + s[1..];
      }
    }
  }

  // ---------------------------------------------------------------------
  // stream().mapToDouble(...).sum()
  // ---------------------------------------------------------------------

  /** A sum of amounts none of which is negative is not negative. */
  function Sum(xs: seq<real>): (s: real)
    ensures (forall i :: 0 <= i < |xs| ==> xs[i] >= 0.0) ==> s >= 0.0
  {
    if xs == [] then 0.0 else xs[0] + Sum(xs[1..])
  }

  /** The total of a concatenation is the sum of the totals. */
  lemma {:induction false} SumAppend(xs: seq<real>, ys: seq<real>)
    ensures Sum(xs + ys) == Sum(xs) + Sum(ys)
  {
    if xs != [] {
      assert (xs + ys)[1..] == xs[1..] + ys;
      SumAppend(xs[1..], ys);
    } else {
      assert xs + ys == ys;
    }
  }

  // ---------------------------------------------------------------------
  // stream().mapToInt(...).sum() over counts
  // ---------------------------------------------------------------------

  /** Every count is at most the total. */
  function SumNat(xs: seq<nat>): (s: nat)
    ensures forall i :: 0 <= i < |xs| ==> xs[i] <= s
  {
    if xs == [] then 0 else xs[0] + SumNat(xs[1..])
  }

  /** The total of a concatenation is the sum of the totals. */
  lemma {:induction false} SumNatAppend(xs: seq<nat>, ys: seq<nat>)
    ensures SumNat(xs + ys) == SumNat(xs) + SumNat(ys)
  {
    if xs != [] {
      assert (xs + ys)[1..] == xs[1..] + ys;
      SumNatAppend(xs[1..], ys);
    } else {
      assert xs + ys == ys;
    }
  }

  /** When the counts `after` exceed the counts `before` by one exactly at the
      positions where `keys` holds `k`, the total grows by the number of
      occurrences of `k`. */
  lemma {:induction false} SumNatIncrementWhere<T>(before: seq<nat>, after: seq<nat>, keys: seq<T>, k: T)
    requires |before| == |after| == |keys|
    requires forall i :: 0 <= i < |keys| ==> after[i] == before[i] + (if keys[i] == k then 1 else 0)
    ensures SumNat(after) == SumNat(before) + multiset(keys)[k]
  {
    if keys != [] {
      assert keys == [keys[0]] + keys[1..];
      SumNatIncrementWhere(before[1..], after[1..], keys[1..], k);
    }
  }

  // ---------------------------------------------------------------------
  // String.toLowerCase and String.equalsIgnoreCase, ASCII letters only
  // ---------------------------------------------------------------------

  function LowerChar(c: char): char
  {
    if 'A' <= c <= 'Z' then (c as int + 32) as char else c
  }

  function UpperChar(c: char): char
  {
    if 'a' <= c <= 'z' then (c as int - 32) as char else c
  }

  function ToLowerCase(s: string): (r: string)
    ensures |r| == |s|
    ensures forall i :: 0 <= i < |s| ==> r[i] == LowerChar(s[i])
  {
    if s == [] then [] else [LowerChar(s[0])] + ToLowerCase(s[1..])
  }

  /** Lower-casing twice is lower-casing once. */
  lemma ToLowerCaseIdempotent(s: string)
    ensures ToLowerCase(ToLowerCase(s)) == ToLowerCase(s)
  {
  }

  /** A string without capital letters lower-cases to itself. */
  lemma LowerCaseLiteral(s: string)
    requires forall i :: 0 <= i < |s| ==> !('A' <= s[i] <= 'Z')
    ensures ToLowerCase(s) == s
  {
  }

  /** The character test of `String.regionMatches(true, ...)`, on which
      `equalsIgnoreCase` rests: equal, or equal once upper-cased, or equal
      once lower-cased. */
  predicate CharEqualsIgnoreCase(a: char, b: char)
  {
    a == b || UpperChar(a) == UpperChar(b) || LowerChar(a) == LowerChar(b)
  }

  /** `a.equalsIgnoreCase(b)`: every string matches itself, and only strings
      of the same length match. */
  predicate EqualsIgnoreCase(a: string, b: string)
    ensures a == b ==> EqualsIgnoreCase(a, b)
    ensures EqualsIgnoreCase(a, b) ==> |a| == |b|
  {
    |a| == |b| && forall i :: 0 <= i < |a| ==> CharEqualsIgnoreCase(a[i], b[i])
  }

  lemma CharEqualsIgnoreCaseIffLower(a: char, b: char)
    ensures CharEqualsIgnoreCase(a, b) <==> LowerChar(a) == LowerChar(b)
  {
  }

  /** `a.equalsIgnoreCase(b)` holds exactly when both lower-case to the same string. */
  lemma EqualsIgnoreCaseIffSameLowerCase(a: string, b: string)
    ensures EqualsIgnoreCase(a, b) <==> ToLowerCase(a) == ToLowerCase(b)
  {
    if EqualsIgnoreCase(a, b) {
      forall i | 0 <= i < |a| ensures ToLowerCase(a)[i] == ToLowerCase(b)[i] {
        CharEqualsIgnoreCaseIffLower(a[i], b[i]);
      }
    }
    if ToLowerCase(a) == ToLowerCase(b) {
      forall i | 0 <= i < |a| ensures CharEqualsIgnoreCase(a[i], b[i]) {
        assert ToLowerCase(a)[i] == ToLowerCase(b)[i];
        CharEqualsIgnoreCaseIffLower(a[i], b[i]);
      }
    }
  }

  /** Comparing, ignoring case, with a name written without capitals is
      comparing the lower-cased string with that name. */
  lemma EqualsIgnoreCaseLowerLiteral(s: string, literal: string)
    requires forall i :: 0 <= i < |literal| ==> !('A' <= literal[i] <= 'Z')
    ensures EqualsIgnoreCase(s, literal) <==> ToLowerCase(s) == literal
  {
    EqualsIgnoreCaseIffSameLowerCase(s, literal);
    LowerCaseLiteral(literal);
  }

  // ---------------------------------------------------------------------
  // Map.getOrDefault
  // ---------------------------------------------------------------------

  /** The value stored under `k`, or `default` when there is none. */
  function GetOrDefault<K, V>(m: map<K, V>, k: K, default: V): (v: V)
    ensures k in m ==> v == m[k]
    ensures k !in m ==> v == default
  {
    if k in m then m[k] else default
  }
}
