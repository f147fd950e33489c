/**
 * Python's ordering of `str` values and `sorted(keys, reverse=True)` on a set
 * of distinct keys.
 *
 * Python compares strings code point by code point, a proper prefix sorting
 * first. Dafny's `<` on sequences means "proper prefix", so the order is
 * defined here as `Below`.
 */
module PyStr {

  /** `a < b` on Python strings. */
  predicate Below(a: string, b: string)
  {
    if |a| == 0 then |b| > 0
    else if |b| == 0 then false
    else if a[0] != b[0] then a[0] < b[0]
    else Below(a[1..], b[1..])
  }

  lemma {:induction false} BelowIrreflexive(a: string)
    ensures !Below(a, a)
  {
    if |a| > 0 {
      BelowIrreflexive(a[1..]);
    }
  }

  lemma {:induction false} BelowAsymmetric(a: string, b: string)
    ensures Below(a, b) ==> !Below(b, a)
  {
    if |a| > 0 && |b| > 0 && a[0] == b[0] {
      BelowAsymmetric(a[1..], b[1..]);
    }
  }

  lemma {:induction false} BelowTransitive(a: string, b: string, c: string)
    requires Below(a, b) && Below(b, c)
    ensures Below(a, c)
  {
    if |a| > 0 && a[0] == b[0] && b[0] == c[0] {
      BelowTransitive(a[1..], b[1..], c[1..]);
    }
  }

  /** Python's string order is total: two different strings are ordered one way. */
  lemma {:induction false} BelowTotal(a: string, b: string)
    ensures a == b || Below(a, b) || Below(b, a)
  {
    if |a| > 0 && |b| > 0 && a[0] == b[0] {
      BelowTotal(a[1..], b[1..]);
      if a[1..] == b[1..] {
        assert a == [a[0]] + a[1..] && b == [b[0]] + b[1..];
      }
    }
  }

  /** Two strings that agree on their first k code points and differ at k are ordered by that code point. */
  lemma {:induction false} BelowAt(a: string, b: string, k: nat)
    requires k < |a| && k < |b|
    requires a[..k] == b[..k] && a[k] < b[k]
    ensures Below(a, b)
  {
    if k > 0 {
      assert a[0] == a[..k][0] == b[..k][0] == b[0];
      assert a[1..][..k - 1] == a[..k][1..] == b[..k][1..] == b[1..][..k - 1];
      BelowAt(a[1..], b[1..], k - 1);
    }
  }

  /** m is the largest element of s in Python's order. */
  predicate IsMax(m: string, s: set<string>)
  {
    m in s && forall x :: x in s && x != m ==> Below(x, m)
  }

  lemma {:induction false} MaxExists(s: set<string>)
    requires s != {}
    ensures exists m :: IsMax(m, s)
    decreases |s|
  {
    var x :| x in s;
    if s == {x} {
      assert IsMax(x, s);
    } else {
      MaxExists(s - {x});
      var m' :| IsMax(m', s - {x});
      BelowTotal(x, m');
      if Below(x, m') {
        assert IsMax(m', s);
      } else {
        forall y | y in s && y != x
          ensures Below(y, x)
        {
          if y != m' {
            BelowTransitive(y, m', x);
          }
        }
        assert IsMax(x, s);
      }
    }
  }

  lemma MaxUnique(s: set<string>)
    ensures forall m, m' :: IsMax(m, s) && IsMax(m', s) ==> m == m'
  {
    forall m, m' | IsMax(m, s) && IsMax(m', s)
      ensures m == m'
    {
      BelowAsymmetric(m, m');
    }
  }

  function MaxOf(s: set<string>): (m: string)
    requires s != {}
    ensures IsMax(m, s)
  {
    MaxExists(s);
    MaxUnique(s);
    var m :| IsMax(m, s); m
  }

  /** Every later element is below every earlier one. */
  predicate StrictlyDescending(r: seq<string>)
  {
    forall i, j :: 0 <= i < j < |r| ==> Below(r[j], r[i])
  }

  /**
   * `sorted(list(s), reverse=True)`: the elements of the set s, largest
   * first. Keys of a dict are distinct, so the order is strict.
   */
  function SortedDesc(s: set<string>): (r: seq<string>)
    ensures |r| == |s|
    ensures forall x :: x in r <==> x in s
    ensures StrictlyDescending(r)
    decreases |s|
  {
    if s == {} then []
    else
      var m := MaxOf(s);
      [m] + SortedDesc(s - {m})
  }

  /** A strictly descending sequence is determined by its set of elements. */
  lemma {:induction false} DescendingUnique(a: seq<string>, b: seq<string>)
    requires StrictlyDescending(a) && StrictlyDescending(b)
    requires forall x :: x in a <==> x in b
    ensures a == b
    decreases |a|
  {
    assert |a| > 0 ==> a[0] in b;
    assert |b| > 0 ==> b[0] in a;
    if a != [] {
      if a[0] != b[0] {
        var i :| 0 <= i < |a| && a[i] == b[0];
        var j :| 0 <= j < |b| && b[j] == a[0];
        assert Below(a[i], a[0]);
        assert Below(b[j], b[0]);
        BelowAsymmetric(a[0], b[0]);
        assert false;
      }
      forall x
        ensures x in a[1..] <==> x in b[1..]
      {
        if x in a[1..] {
          var i :| 1 <= i < |a| && a[i] == x;
          assert Below(a[i], a[0]);
          BelowIrreflexive(x);
          assert x in b && x != b[0];
        }
        if x in b[1..] {
          var j :| 1 <= j < |b| && b[j] == x;
          assert Below(b[j], b[0]);
          BelowIrreflexive(x);
          assert x in a && x != a[0];
        }
      }
      DescendingUnique(a[1..], b[1..]);
      assert a == [a[0]] + a[1..] && b == [b[0]] + b[1..];
    }
  }

  /** `sorted(s, reverse=True)` is exactly the strictly descending arrangement of s. */
  lemma SortedDescCharacterized(s: set<string>, r: seq<string>)
    ensures r == SortedDesc(s) <==> StrictlyDescending(r) && (forall x :: x in r <==> x in s)
  {
    if StrictlyDescending(r) && (forall x :: x in r <==> x in s) {
      DescendingUnique(r, SortedDesc(s));
    }
  }

  /** Two strings sort, newest first, as the larger and then the smaller. */
  lemma SortedPair(s: set<string>, a: string, b: string)
    requires s == {a, b} && Below(b, a)
    ensures SortedDesc(s) == [a, b]
  {
    SortedDescCharacterized(s, [a, b]);
  }
}
