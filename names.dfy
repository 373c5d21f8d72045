/**
 * The allow-list and deny-list of `GameplayLoader`: Rust's ordering on
 * `String` and the sort-then-dedup that `GameplayLoader::new` applies.
 */
module NameLists {

  /**
   * Strict lexicographic order on strings, character by character (Rust's
   * `Ord` for `String` compares UTF-8 bytes, which orders strings the same
   * way as comparing their Unicode scalar values in turn).
   */
  predicate Below(a: string, b: string)
  {
    if |a| == 0 then |b| > 0
    else if |b| == 0 then false
    else if a[0] == b[0] then Below(a[1..], b[1..])
    else a[0] < b[0]
  }

  lemma {:induction false} BelowIrreflexive(a: string)
    ensures !Below(a, a)
  {
    if |a| > 0 {
      BelowIrreflexive(a[1..]);
    }
  }

  lemma {:induction false} BelowTransitive(a: string, b: string, c: string)
    requires Below(a, b) && Below(b, c)
    ensures Below(a, c)
  {
    if |a| > 0 && |b| > 0 && |c| > 0 && a[0] == b[0] && b[0] == c[0] {
      BelowTransitive(a[1..], b[1..], c[1..]);
    }
  }

  /** Any two different strings are ordered one way or the other. */
  lemma {:induction false} BelowTotal(a: string, b: string)
    ensures a == b || Below(a, b) || Below(b, a)
  {
    if |a| > 0 && |b| > 0 && a[0] == b[0] {
      BelowTotal(a[1..], b[1..]);
      if a[1..] == b[1..] {
        assert a == [a[0]] + a[1..] && b == [b[0]] + b[1..];
      }
    }
  }

  /** Sorted and free of duplicates. */
  ghost predicate StrictlyAscending(s: seq<string>)
  {
    forall i, j :: 0 <= i < j < |s| ==> Below(s[i], s[j])
  }

  /**
   * A strictly ascending sequence is determined by its elements: whichever
   * way a list is sorted and deduplicated, the outcome is this sequence.
   */
  lemma {:induction false} AscendingUnique(a: seq<string>, b: seq<string>)
    requires StrictlyAscending(a) && StrictlyAscending(b)
    requires forall x :: x in a <==> x in b
    ensures a == b
    decreases |a|
  {
    assert a != [] ==> a[0] in b;
    assert b != [] ==> b[0] in a;
    if a != [] && b != [] {
      // The heads are the least elements of the same set, hence equal.
      assert a[0] in a && b[0] in b;
      if a[0] != b[0] {
        var i :| 0 <= i < |b| && b[i] == a[0];
        var j :| 0 <= j < |a| && a[j] == b[0];
        assert 0 < i && 0 < j;
        BelowTransitive(a[0], a[j], a[0]);
        BelowIrreflexive(a[0]);
      }
      forall x
        ensures x in a[1..] <==> x in b[1..]
      {
        if x in a[1..] {
          var j :| 1 <= j < |a| && a[j] == x;
          assert Below(a[0], x);
          if x == b[0] { BelowIrreflexive(x); }
          assert x in b && b == [b[0]] + b[1..];
        }
        if x in b[1..] {
          var j :| 1 <= j < |b| && b[j] == x;
          assert Below(b[0], x);
          if x == a[0] { BelowIrreflexive(x); }
          assert x in a && a == [a[0]] + a[1..];
        }
      }
      AscendingUnique(a[1..], b[1..]);
      assert a == [a[0]] + a[1..] && b == [b[0]] + b[1..];
    }
  }

  /** Adds `x` to a strictly ascending list at its place, unless it is already there. */
  method Insert(s: seq<string>, x: string) returns (r: seq<string>)
    requires StrictlyAscending(s)
    ensures StrictlyAscending(r)
    ensures forall y :: y in r <==> y in s || y == x
  {
    var j := 0;
    while j < |s| && Below(s[j], x)
      invariant 0 <= j <= |s|
      invariant forall k :: 0 <= k < j ==> Below(s[k], x)
    {
      j := j + 1;
    }
    if j < |s| && s[j] == x {
      r := s;
    } else {
      r := s[..j] + [x] + s[j..];
      if j < |s| {
        BelowTotal(s[j], x);
        forall k | j <= k < |s|
          ensures Below(x, s[k])
        {
          if k > j { BelowTransitive(x, s[j], s[k]); }
        }
      }
      forall a, b | 0 <= a < b < |r|
        ensures Below(r[a], r[b])
      {
        if b < j || a > j {
        } else if a == j {
          assert r[b] == s[b - 1];
        } else if b == j {
          assert r[a] == s[a];
        } else {
          assert r[a] == s[a] && r[b] == s[b - 1];
        }
      }
    }
  }

  /**
   * `sort_unstable` followed by `dedup`: the result is strictly ascending
   * and holds exactly the input's names.
   */
  method SortDedup(names: seq<string>) returns (r: seq<string>)
    ensures StrictlyAscending(r)
    ensures forall x :: x in r <==> x in names
  {
    r := [];
    var i := 0;
    while i < |names|
      invariant 0 <= i <= |names|
      invariant StrictlyAscending(r)
      invariant forall x :: x in r <==> x in names[..i]
    {
      r := Insert(r, names[i]);
      assert names[..i + 1] == names[..i] + [names[i]];
      i := i + 1;
    }
    assert names[..i] == names;
  }
}
