/**
 * The array update operators of the document store that the handlers use:
 * `$push` appends one value to an array field, `$pull` removes from it every
 * element equal to a value. `$push` is sequence concatenation with a singleton;
 * `$pull` is `Pull` below.
 */
module Updates {

  /** No value occurs twice in `s`. */
  predicate NoDup<T(==)>(s: seq<T>) {
    forall i, j :: 0 <= i < j < |s| ==> s[i] != s[j]
  }

  /** `$pull`: every element equal to `x` is removed, the others keep their order. */
  function Pull<T(==)>(s: seq<T>, x: T): (r: seq<T>)
    ensures x !in r
  {
    if s == [] then []
    else if s[0] == x then Pull(s[1..], x)
    else [s[0]] + Pull(s[1..], x)
  }

  /** `$pull` drops every occurrence of the value and keeps every occurrence of any other. */
  lemma {:induction false} PullMultiset<T>(s: seq<T>, x: T)
    ensures multiset(Pull(s, x)) == multiset(s)[x := 0]
  {
    if s != [] {
      assert s == [s[0]] + s[1..];
      PullMultiset(s[1..], x);
    }
  }

  /** `$pull` keeps every other value that the array holds, and adds none. */
  lemma PullMembership<T>(s: seq<T>, x: T)
    ensures forall y :: y != x ==> (y in Pull(s, x) <==> y in s)
  {
    PullMultiset(s, x);
    forall y | y != x ensures y in Pull(s, x) <==> y in s {
      assert multiset(Pull(s, x))[y] == multiset(s)[y];
    }
  }

  /** Pulling a value removes exactly its occurrences, so the length drops by their number. */
  lemma PullLength<T>(s: seq<T>, x: T)
    ensures |Pull(s, x)| == |s| - multiset(s)[x]
  {
    PullMultiset(s, x);
    var m := multiset(s);
    assert m == m[x := 0] + multiset{}[x := m[x]];
    assert |multiset{}[x := m[x]]| == m[x];
  }

  /** `$pull` works element by element: it distributes over concatenation. */
  lemma {:induction false} PullConcat<T>(a: seq<T>, b: seq<T>, x: T)
    ensures Pull(a + b, x) == Pull(a, x) + Pull(b, x)
  {
    if a == [] {
      assert a + b == b;
    } else {
      assert (a + b)[1..] == a[1..] + b;
      PullConcat(a[1..], b, x);
    }
  }

  /** Pulling a value that is absent changes nothing; so `$pull` is idempotent. */
  lemma {:induction false} PullAbsent<T>(s: seq<T>, x: T)
    requires x !in s
    ensures Pull(s, x) == s
  {
    if s != [] {
      assert s[0] != x;
      PullAbsent(s[1..], x);
      assert s == [s[0]] + s[1..];
    }
  }

  /** A `$push` of a new value followed by a `$pull` of it restores the array. */
  lemma PushThenPull<T>(s: seq<T>, x: T)
    requires x !in s
    ensures Pull(s + [x], x) == s
  {
    PullConcat(s, [x], x);
    PullAbsent(s, x);
    assert Pull([x], x) == [];
  }

  /** Pulling past a prefix that does not hold the value keeps the prefix. */
  lemma PullPrefix<T>(before: seq<T>, rest: seq<T>, x: T)
    requires x !in before
    ensures Pull(before + rest, x) == before + Pull(rest, x)
  {
    PullConcat(before, rest, x);
    PullAbsent(before, x);
  }

  /** Pulling the head value of an array that holds it nowhere else leaves the tail. */
  lemma PullHead<T>(x: T, after: seq<T>)
    requires x !in after
    ensures Pull([x] + after, x) == after
  {
    assert ([x] + after)[1..] == after;
    PullAbsent(after, x);
  }

  /** In an array without duplicates, the element at `i` occurs nowhere else. */
  lemma UniqueAt<T>(s: seq<T>, i: nat)
    requires NoDup(s) && i < |s|
    ensures s[i] !in s[..i] && s[i] !in s[i + 1..]
  {
    var before, after := s[..i], s[i + 1..];
    forall j | 0 <= j < |before| ensures before[j] != s[i] { assert before[j] == s[j]; }
    forall j | 0 <= j < |after| ensures after[j] != s[i] { assert after[j] == s[i + 1 + j]; }
  }

  /** When a value occurs once only, pulling it removes that one position and nothing else. */
  lemma PullUnique<T>(before: seq<T>, x: T, after: seq<T>)
    requires x !in before && x !in after
    ensures Pull(before + [x] + after, x) == before + after
  {
    assert before + [x] + after == before + ([x] + after);
    PullPrefix(before, [x] + after, x);
    PullHead(x, after);
  }

  /** In an array without duplicates, pulling the element at `i` removes exactly position `i`. */
  lemma PullAt<T>(s: seq<T>, i: nat)
    requires NoDup(s) && i < |s|
    ensures Pull(s, s[i]) == s[..i] + s[i + 1..]
    ensures |Pull(s, s[i])| == |s| - 1
  {
    UniqueAt(s, i);
    var before, x, after := s[..i], s[i], s[i + 1..];
    assert s == before + [x] + after;
    PullUnique(before, x, after);
  }

  /** `$pull` keeps an array free of duplicates. */
  lemma {:induction false} PullNoDup<T>(s: seq<T>, x: T)
    requires NoDup(s)
    ensures NoDup(Pull(s, x))
  {
    if s != [] {
      var t := s[1..];
      assert NoDup(t) by {
        forall i, j | 0 <= i < j < |t| ensures t[i] != t[j] { assert s[i + 1] != s[j + 1]; }
      }
      PullNoDup(t, x);
      if s[0] != x {
        assert s[0] !in t by {
          forall j | 0 <= j < |t| ensures t[j] != s[0] { assert s[j + 1] != s[0]; }
        }
        PullMembership(t, x);
        var r := [s[0]] + Pull(t, x);
        forall i, j | 0 <= i < j < |r| ensures r[i] != r[j] {
          if i == 0 { assert r[j] in Pull(t, x); }
          else { assert r[i] == Pull(t, x)[i - 1] && r[j] == Pull(t, x)[j - 1]; }
        }
      }
    }
  }

  /** A `$push` of a value not yet present keeps an array free of duplicates. */
  lemma PushNoDup<T>(s: seq<T>, x: T)
    requires NoDup(s) && x !in s
    ensures NoDup(s + [x])
  {
    var r := s + [x];
    forall i, j | 0 <= i < j < |r| ensures r[i] != r[j] {
      if j == |s| { assert r[i] == s[i]; }
      else { assert r[i] == s[i] && r[j] == s[j]; }
    }
  }
}
