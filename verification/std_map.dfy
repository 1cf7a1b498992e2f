/**
 * The part of `std::map<std::string, std::string>` the serialiser relies on:
 * its keys are ordered by `std::less<std::string>` and a range-for visits the
 * entries in ascending key order, each key once.
 */
module StdMap {

  /**
   * `std::less<std::string>`: lexicographic comparison by character code,
   * a proper prefix coming first. `std::char_traits<char>::lt` compares
   * bytes as `unsigned char`; here a string is a sequence of characters
   * compared by code point, the order UTF-8 bytes keep.
   */
  predicate Less(a: string, b: string)
  {
    |b| > 0 && (|a| == 0 || a[0] < b[0] || (a[0] == b[0] && Less(a[1..], b[1..])))
  }

  lemma {:induction false} LessIrreflexive(a: string)
    ensures !Less(a, a)
  {
    if |a| > 0 {
      LessIrreflexive(a[1..]);
    }
  }

  lemma {:induction false} LessTransitive(a: string, b: string, c: string)
    requires Less(a, b) && Less(b, c)
    ensures Less(a, c)
  {
    if |a| > 0 && a[0] == b[0] && b[0] == c[0] {
      LessTransitive(a[1..], b[1..], c[1..]);
    }
  }

  lemma {:induction false} LessTotal(a: string, b: string)
    requires a != b
    ensures Less(a, b) || Less(b, a)
  {
    if |a| > 0 && |b| > 0 && a[0] == b[0] {
      assert a == [a[0]] + a[1..] && b == [b[0]] + b[1..];
      LessTotal(a[1..], b[1..]);
    }
  }

  lemma {:induction false} LessAsymmetric(a: string, b: string)
    requires Less(a, b)
    ensures !Less(b, a)
  {
    if Less(b, a) {
      LessTransitive(a, b, a);
      LessIrreflexive(a);
    }
  }

  /** `x` is the first key of `keys` in map order. */
  predicate IsLeast(x: string, keys: set<string>)
  {
    x in keys && forall y | y in keys && y != x :: Less(x, y)
  }

  /** Every non-empty finite set of keys has a first key. */
  lemma {:induction false} LeastExists(keys: set<string>)
    requires keys != {}
    ensures exists x :: IsLeast(x, keys)
    decreases keys
  {
    var y :| y in keys;
    var rest := keys - {y};
    if rest == {} {
      assert keys == {y};
      assert IsLeast(y, keys);
    } else {
      LeastExists(rest);
      var z :| IsLeast(z, rest);
      if Less(y, z) {
        forall w | w in keys && w != y
          ensures Less(y, w)
        {
          if w != z {
            LessTransitive(y, z, w);
          }
        }
        assert IsLeast(y, keys);
      } else {
        LessTotal(y, z);
        assert IsLeast(z, keys);
      }
    }
  }

  /** The first key is unique. */
  lemma LeastUnique(x: string, y: string, keys: set<string>)
    requires IsLeast(x, keys) && IsLeast(y, keys)
    ensures x == y
  {
    if x != y {
      LessAsymmetric(x, y);
    }
  }

  ghost function Least(keys: set<string>): (x: string)
    requires keys != {}
    ensures IsLeast(x, keys)
  {
    LeastExists(keys);
    var x :| IsLeast(x, keys);
    x
  }

  /**
   * The order in which a range-for over a `std::map` with these keys visits
   * them: every key exactly once, in strictly ascending order.
   */
  ghost function SortedKeys(keys: set<string>): (r: seq<string>)
    ensures |r| == |keys|
    ensures forall x :: x in r <==> x in keys
    ensures forall i, j :: 0 <= i < j < |r| ==> Less(r[i], r[j])
    decreases keys
  {
    if keys == {} then []
    else
      var x := Least(keys);
      [x] + SortedKeys(keys - {x})
  }

  /** Two keys iterate in ascending order, whichever was inserted first. */
  lemma SortedPair(a: string, b: string)
    requires Less(a, b)
    ensures SortedKeys({a, b}) == [a, b]
  {
    LessIrreflexive(a);
    var r := SortedKeys({a, b});
    assert |{a, b}| == 2;
    assert r[0] in {a, b} && r[1] in {a, b};
    LessIrreflexive(r[0]);
    if r[0] == b {
      LessAsymmetric(a, b);
    }
  }

  /** In a strictly ascending sequence, a smaller key sits before a larger one. */
  lemma SortedBefore(r: seq<string>, a: string, b: string)
    requires forall i, j :: 0 <= i < j < |r| ==> Less(r[i], r[j])
    requires a in r && b in r && Less(a, b)
    ensures exists i, j :: 0 <= i < j < |r| && r[i] == a && r[j] == b
  {
    var i :| 0 <= i < |r| && r[i] == a;
    var j :| 0 <= j < |r| && r[j] == b;
    LessIrreflexive(a);
    if j < i {
      LessAsymmetric(a, b);
    }
    assert 0 <= i < j < |r| && r[i] == a && r[j] == b;
  }
}
