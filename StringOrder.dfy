/**
 * The order in which `Array.prototype.sort` without a comparator puts
 * strings (index.js:21): element by element, a proper prefix first.
 * Strings are sequences of characters and each character counts as one
 * code unit.
 */
module StringOrder {

  /**
   * The comparison of code units: `a` is a proper prefix of `b`, or at the
   * first position where they differ `a` has the smaller character.
   */
  ghost predicate PrefixOrSmallerAt(a: string, b: string) {
    (|a| < |b| && a == b[..|a|])
    || exists i :: 0 <= i < |a| && i < |b| && a[..i] == b[..i] && a[i] < b[i]
  }

  lemma HeadDecides(a: string, b: string)
    requires |a| > 0 && |b| > 0 && a[0] != b[0]
    ensures PrefixOrSmallerAt(a, b) <==> a[0] < b[0]
  {
    if a[0] < b[0] {
      assert a[..0] == b[..0];
    }
  }

  lemma {:induction false} TailDecides(a: string, b: string)
    requires |a| > 0 && |b| > 0 && a[0] == b[0]
    ensures PrefixOrSmallerAt(a, b) <==> PrefixOrSmallerAt(a[1..], b[1..])
  {
    var a', b' := a[1..], b[1..];
    assert a == [a[0]] + a' && b == [b[0]] + b';
    if |a| < |b| && a == b[..|a|] {
      assert a' == b'[..|a'|];
    }
    if |a'| < |b'| && a' == b'[..|a'|] {
      assert b[..|a|] == [b[0]] + b'[..|a'|];
    }
    if i :| 0 <= i < |a| && i < |b| && a[..i] == b[..i] && a[i] < b[i] {
      assert i > 0;
      assert a'[..i - 1] == a[1..i] == b[1..i] == b'[..i - 1];
      assert a'[i - 1] == a[i] && b'[i - 1] == b[i];
    }
    if j :| 0 <= j < |a'| && j < |b'| && a'[..j] == b'[..j] && a'[j] < b'[j] {
      assert a[..j + 1] == [a[0]] + a'[..j] && b[..j + 1] == [b[0]] + b'[..j];
      assert a[j + 1] == a'[j] && b[j + 1] == b'[j];
    }
  }

  /** `a` sorts strictly before `b`. */
  predicate Less(a: string, b: string): (r: bool)
    ensures r <==> PrefixOrSmallerAt(a, b)
    decreases |a|
  {
    if |a| == 0 then assert a == b[..0]; |b| > 0
    else if |b| == 0 then false
    else if a[0] != b[0] then HeadDecides(a, b); a[0] < b[0]
    else TailDecides(a, b); Less(a[1..], b[1..])
  }

  lemma {:induction false} LessIrreflexive(a: string)
    ensures !Less(a, a)
    decreases |a|
  {
    if |a| > 0 {
      LessIrreflexive(a[1..]);
    }
  }

  lemma {:induction false} LessTransitive(a: string, b: string, c: string)
    requires Less(a, b) && Less(b, c)
    ensures Less(a, c)
    decreases |a|
  {
    if |a| > 0 && a[0] == b[0] && b[0] == c[0] {
      LessTransitive(a[1..], b[1..], c[1..]);
    }
  }

  /** Two different strings are always ordered one way or the other. */
  lemma {:induction false} LessTotal(a: string, b: string)
    requires a != b
    ensures Less(a, b) || Less(b, a)
    decreases |a|
  {
    if |a| > 0 && |b| > 0 && a[0] == b[0] {
      assert a == [a[0]] + a[1..] && b == [b[0]] + b[1..];
      LessTotal(a[1..], b[1..]);
    }
  }

  lemma LessAsymmetric(a: string, b: string)
    requires Less(a, b)
    ensures !Less(b, a)
  {
    if Less(b, a) {
      LessTransitive(a, b, a);
      LessIrreflexive(a);
    }
  }

  function Elements(s: seq<string>): set<string> {
    set x | x in s
  }

  ghost predicate Distinct(s: seq<string>) {
    forall i, j :: 0 <= i < j < |s| ==> s[i] != s[j]
  }

  ghost predicate StrictlyAscending(s: seq<string>) {
    forall i, j :: 0 <= i < j < |s| ==> Less(s[i], s[j])
  }

  lemma AscendingIsDistinct(s: seq<string>)
    requires StrictlyAscending(s)
    ensures Distinct(s)
  {
    forall i, j | 0 <= i < j < |s| ensures s[i] != s[j] {
      LessIrreflexive(s[i]);
    }
  }

  /** Insertion of one key into a sorted list. */
  function Insert(x: string, s: seq<string>): (r: seq<string>)
    ensures multiset(r) == multiset(s) + multiset{x}
  {
    if s == [] then [x]
    else if Less(x, s[0]) then [x] + s
    else
      assert s == [s[0]] + s[1..];
      [s[0]] + Insert(x, s[1..])
  }

  /** The sort of `Object.keys(params).sort()`, as insertion sort. */
  function Sort(s: seq<string>): (r: seq<string>)
    ensures multiset(r) == multiset(s)
  {
    if s == [] then []
    else
      assert s == [s[0]] + s[1..];
      Insert(s[0], Sort(s[1..]))
  }

  lemma {:induction false} InsertAscending(x: string, s: seq<string>)
    requires StrictlyAscending(s) && x !in s
    ensures StrictlyAscending(Insert(x, s))
    decreases |s|
  {
    if s == [] {
    } else if Less(x, s[0]) {
      var r := [x] + s;
      forall i, j | 0 <= i < j < |r| ensures Less(r[i], r[j]) {
        if i == 0 && j > 1 {
          LessTransitive(x, s[0], s[j - 1]);
        }
      }
    } else {
      LessTotal(x, s[0]);
      InsertAscending(x, s[1..]);
      var tail := Insert(x, s[1..]);
      var r := [s[0]] + tail;
      forall i, j | 0 <= i < j < |r| ensures Less(r[i], r[j]) {
        if i == 0 {
          assert r[j] in multiset(tail);
          assert r[j] == x || r[j] in s[1..];
        }
      }
    }
  }

  /** With distinct keys, the sort's result is strictly ascending. */
  lemma {:induction false} SortAscending(s: seq<string>)
    requires Distinct(s)
    ensures StrictlyAscending(Sort(s))
  {
    if s != [] {
      assert Distinct(s[1..]);
      SortAscending(s[1..]);
      assert s[0] !in multiset(s[1..]);
      InsertAscending(s[0], Sort(s[1..]));
    }
  }

  /** Two strictly ascending lists of one set of strings are equal. */
  lemma {:induction false} AscendingUnique(a: seq<string>, b: seq<string>)
    requires StrictlyAscending(a) && StrictlyAscending(b)
    requires Elements(a) == Elements(b)
    ensures a == b
    decreases |a|
  {
    if a == [] {
      assert forall i :: 0 <= i < |b| ==> b[i] in Elements(b);
    } else {
      assert a[0] in Elements(b) && b != [];
      assert b[0] in Elements(a);
      if a[0] != b[0] {
        var i :| 0 <= i < |a| && a[i] == b[0];
        var j :| 0 <= j < |b| && b[j] == a[0];
        assert Less(a[0], b[0]);
        assert Less(b[0], a[0]);
        LessAsymmetric(a[0], b[0]);
      }
      forall x ensures x in Elements(a[1..]) <==> x in Elements(b[1..]) {
        if x in Elements(a[1..]) {
          var i :| 1 <= i < |a| && a[i] == x;
          assert Less(a[0], x);
          LessIrreflexive(x);
          assert x in Elements(b);
        }
        if x in Elements(b[1..]) {
          var j :| 1 <= j < |b| && b[j] == x;
          assert Less(b[0], x);
          LessIrreflexive(x);
          assert x in Elements(a);
        }
      }
      AscendingUnique(a[1..], b[1..]);
    }
  }

  lemma {:induction false} AscendingEnumerationExists(s: set<string>)
    ensures exists ks :: StrictlyAscending(ks) && Elements(ks) == s
    decreases |s|
  {
    if s == {} {
      assert StrictlyAscending([]) && Elements([]) == s;
    } else {
      var x :| x in s;
      AscendingEnumerationExists(s - {x});
      var ks :| StrictlyAscending(ks) && Elements(ks) == s - {x};
      InsertAscending(x, ks);
      var r := Insert(x, ks);
      forall y ensures y in Elements(r) <==> y in s {
        assert y in r <==> y in multiset(r);
        assert y in ks <==> y in multiset(ks);
        assert y in Elements(ks) <==> y in ks;
      }
      assert StrictlyAscending(r) && Elements(r) == s;
    }
  }

  /** The keys of a set in ascending order: the one list the sort can produce for them. */
  ghost function SortedKeys(s: set<string>): (r: seq<string>)
    ensures StrictlyAscending(r) && Elements(r) == s
  {
    AscendingEnumerationExists(s);
    var ks :| StrictlyAscending(ks) && Elements(ks) == s;
    ks
  }

  /**
   * Canonicalisation: whatever order distinct keys come in, the sort puts
   * them in the single ascending order of their set.
   */
  lemma SortIsCanonical(keys: seq<string>)
    requires Distinct(keys)
    ensures Sort(keys) == SortedKeys(Elements(keys))
  {
    SortAscending(keys);
    var r := Sort(keys);
    forall y ensures y in Elements(r) <==> y in Elements(keys) {
      assert y in r <==> y in multiset(r);
      assert y in keys <==> y in multiset(keys);
    }
    AscendingUnique(r, SortedKeys(Elements(keys)));
  }
}
