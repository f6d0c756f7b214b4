/** The order of strings, and sorting sequences of them. */
module Ordering {
  /** Character by character, a prefix before its extensions. */
  predicate Less(a: string, b: string) {
    b != "" && (a == "" || a[0] < b[0] || (a[0] == b[0] && Less(a[1..], b[1..])))
  }

  lemma {:induction false} LessIsTotal(a: string, b: string)
    ensures Less(a, b) || a == b || Less(b, a)
    ensures !(Less(a, b) && Less(b, a)) && !Less(a, a)
  {
    if a != "" && b != "" {
      LessIsTotal(a[1..], b[1..]);
      assert a == [a[0]] + a[1..] && b == [b[0]] + b[1..];
    }
    if a != "" {
      LessIsIrreflexive(a);
    }
  }

  lemma {:induction false} LessIsIrreflexive(a: string)
    ensures !Less(a, a)
  {
    if a != "" {
      LessIsIrreflexive(a[1..]);
    }
  }

  /** `a` and `b` agree in their first `k` characters, and then `a` ends or goes on with a smaller one. */
  predicate DiffersAt(a: string, b: string, k: nat) {
    && k <= |a| && k < |b| && a[..k] == b[..k] && (k == |a| || a[k] < b[k])
  }

  /** The order of a dictionary. */
  lemma {:induction false} LessIsLexicographic(a: string, b: string)
    ensures Less(a, b) <==> exists k: nat :: DiffersAt(a, b, k)
  {
    if b == "" || a == "" {
      assert b != "" && a == "" ==> DiffersAt(a, b, 0);
    } else {
      LessIsLexicographic(a[1..], b[1..]);
      assert a == [a[0]] + a[1..] && b == [b[0]] + b[1..];
      if a[0] < b[0] {
        assert DiffersAt(a, b, 0);
      } else if a[0] == b[0] && Less(a[1..], b[1..]) {
        var k: nat :| DiffersAt(a[1..], b[1..], k);
        assert a[..k + 1] == [a[0]] + a[1..][..k] && b[..k + 1] == [b[0]] + b[1..][..k];
        assert DiffersAt(a, b, k + 1);
      }
      if k: nat :| DiffersAt(a, b, k) && k > 0 {
        assert a[1..][..k - 1] == a[..k][1..] && b[1..][..k - 1] == b[..k][1..];
        assert a[..k][0] == b[..k][0];
        assert DiffersAt(a[1..], b[1..], k - 1);
      }
    }
  }

  lemma {:induction false} LessIsTransitive(a: string, b: string, c: string)
    requires Less(a, b) && Less(b, c)
    ensures Less(a, c)
  {
    if a != "" && a[0] == b[0] == c[0] {
      LessIsTransitive(a[1..], b[1..], c[1..]);
    }
  }

  ghost predicate Sorted(ss: seq<string>) {
    forall i: nat, j: nat :: i < j < |ss| ==> Less(ss[i], ss[j])
  }

  /** `ss` lists the elements of `s` once each, in order. */
  ghost predicate Lists(ss: seq<string>, s: set<string>) {
    Sorted(ss) && forall x :: x in ss <==> x in s
  }

  lemma HasElement(a: seq<string>)
    ensures a == [] || exists x :: x in a
  {
    if a != [] {
      assert a[0] in a;
    }
  }

  /** A set has only one sorted listing. */
  lemma {:induction false} ListingIsUnique(a: seq<string>, b: seq<string>, s: set<string>)
    requires Lists(a, s) && Lists(b, s)
    ensures a == b
  {
    if a == [] || b == [] {
      HasElement(a);
      HasElement(b);
    } else {
      FirstIsLeast(a, b, s);
      FirstIsLeast(b, a, s);
      LessIsTotal(a[0], b[0]);
      RestLists(a, s);
      RestLists(b, s);
      ListingIsUnique(a[1..], b[1..], s - {a[0]});
      assert a == [a[0]] + a[1..] && b == [b[0]] + b[1..];
    }
  }

  lemma FirstIsLeast(a: seq<string>, b: seq<string>, s: set<string>)
    requires Lists(a, s) && Lists(b, s) && a != [] && b != []
    ensures !Less(b[0], a[0])
  {
    assert b[0] in s && b[0] in a;
    var i: nat :| i < |a| && a[i] == b[0];
    LessIsTotal(a[0], a[i]);
    assert i > 0 ==> Less(a[0], a[i]);
  }

  lemma RestLists(a: seq<string>, s: set<string>)
    requires Lists(a, s) && a != []
    ensures Lists(a[1..], s - {a[0]})
  {
    forall x ensures x in a[1..] <==> x in s - {a[0]} {
      if x in a[1..] {
        var i: nat :| i < |a[1..]| && a[1..][i] == x;
        assert a[i + 1] == x && Less(a[0], x);
        LessIsTotal(a[0], x);
        assert x in a;
      }
      if x in s - {a[0]} {
        assert x in a;
        var i: nat :| i < |a| && a[i] == x;
        assert a[1..][i - 1] == x;
      }
    }
  }

  function Insert(x: string, ss: seq<string>): seq<string> {
    if ss == [] || Less(x, ss[0]) then [x] + ss
    else if x == ss[0] then ss
    else [ss[0]] + Insert(x, ss[1..])
  }

  lemma {:induction false} InsertLists(x: string, ss: seq<string>, s: set<string>)
    requires Lists(ss, s)
    ensures Lists(Insert(x, ss), s + {x})
  {
    InsertHas(x, ss);
    InsertSorted(x, ss);
    forall y ensures y in Insert(x, ss) <==> y in s + {x} {
    }
  }

  lemma {:induction false} InsertHas(x: string, ss: seq<string>)
    ensures forall y :: y in Insert(x, ss) <==> y == x || y in ss
  {
    if ss != [] && !Less(x, ss[0]) && x != ss[0] {
      InsertHas(x, ss[1..]);
      assert ss == [ss[0]] + ss[1..];
    }
  }

  lemma {:induction false} InsertSorted(x: string, ss: seq<string>)
    requires Sorted(ss)
    ensures Sorted(Insert(x, ss))
  {
    if ss == [] {
    } else if Less(x, ss[0]) {
      forall j: nat | j < |ss| ensures Less(x, ss[j]) {
        if j > 0 {
          LessIsTransitive(x, ss[0], ss[j]);
        }
      }
    } else if x != ss[0] {
      LessIsTotal(x, ss[0]);
      assert Sorted(ss[1..]);
      InsertSorted(x, ss[1..]);
      InsertHas(x, ss[1..]);
      var r := Insert(x, ss[1..]);
      forall j: nat | j < |r| ensures Less(ss[0], r[j]) {
        assert r[j] in r;
        if r[j] != x {
          var i: nat :| i < |ss[1..]| && ss[1..][i] == r[j];
          assert Less(ss[0], ss[i + 1]);
        }
      }
    }
  }

  /** The elements of `ss` in order, once each. */
  function Sort(ss: seq<string>): seq<string> {
    if ss == [] then [] else Insert(ss[0], Sort(ss[1..]))
  }

  lemma {:induction false} SortLists(ss: seq<string>)
    ensures Lists(Sort(ss), set x | x in ss)
  {
    if ss != [] {
      SortLists(ss[1..]);
      InsertLists(ss[0], Sort(ss[1..]), set x | x in ss[1..]);
      assert (set x | x in ss) == (set x | x in ss[1..]) + {ss[0]} by {
        assert ss == [ss[0]] + ss[1..];
      }
    }
  }
}
