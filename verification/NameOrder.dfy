/** The order of environment variable names and the one sorted list of a set of them. */
module NameOrder {
  predicate Before(a: string, b: string) {
    if a == "" then b != ""
    else if b == "" then false
    else a[0] < b[0] || (a[0] == b[0] && Before(a[1..], b[1..]))
  }

  lemma {:induction false} Total(a: string, b: string)
    ensures a == b || Before(a, b) || Before(b, a)
    ensures !(Before(a, b) && Before(b, a)) && !Before(a, a)
  {
    if a != "" && b != "" { Total(a[1..], b[1..]); assert a == [a[0]] + a[1..] && b == [b[0]] + b[1..]; }
    if a != "" { Total(a[1..], a[1..]); }
  }

  lemma {:induction false} Transitive(a: string, b: string, c: string)
    requires Before(a, b) && Before(b, c)
    ensures Before(a, c)
  {
    if a != "" && a[0] == b[0] && b[0] == c[0] { Transitive(a[1..], b[1..], c[1..]); }
  }

  predicate Increasing(s: seq<string>) {
    forall i, j :: 0 <= i < j < |s| ==> Before(s[i], s[j])
  }

  predicate Ordered(s: seq<string>) {
    forall i, j :: 0 <= i < j < |s| ==> s[i] == s[j] || Before(s[i], s[j])
  }

  function Names(s: seq<string>): set<string> {
    set x | x in s
  }

  lemma NamesConcat(s: seq<string>, t: seq<string>)
    ensures Names(s + t) == Names(s) + Names(t)
  {
  }

  /** A strictly increasing list is determined by its elements. */
  lemma {:induction false} IncreasingIsUnique(s: seq<string>, t: seq<string>)
    requires Increasing(s) && Increasing(t) && Names(s) == Names(t)
    ensures s == t
  {
    assert s != [] ==> s[0] in Names(t);
    assert t != [] ==> t[0] in Names(s);
    if s != [] && t != [] {
      Total(s[0], t[0]);
      forall x ensures x in Names(s[1..]) <==> x in Names(t[1..]) {
        FirstOnce(s, x);
        FirstOnce(t, x);
      }
      IncreasingIsUnique(s[1..], t[1..]);
      assert s == [s[0]] + s[1..] && t == [t[0]] + t[1..];
    }
  }

  lemma FirstOnce(s: seq<string>, x: string)
    requires Increasing(s) && s != []
    ensures x in Names(s[1..]) <==> x in Names(s) && x != s[0]
  {
    Total(x, x);
    if x in s[1..] {
      var i :| 0 <= i < |s[1..]| && s[1..][i] == x;
      assert Before(s[0], s[i + 1]);
    }
  }

  /** Adds a name to a strictly increasing list, unless it is there. */
  function Insert(s: seq<string>, x: string): (r: seq<string>)
    requires Increasing(s)
    ensures Increasing(r) && Names(r) == Names(s) + {x}
    ensures r[0] == x || (s != [] && r[0] == s[0])
  {
    if s == [] then [x]
    else if s[0] == x then s
    else if Before(x, s[0]) then
      assert forall j :: 0 <= j < |s| ==> Before(x, s[j]) by {
        forall j | 0 <= j < |s| ensures Before(x, s[j]) { if j > 0 { Transitive(x, s[0], s[j]); } }
      }
      [x] + s
    else
      var rest := Insert(s[1..], x);
      assert forall j :: 0 <= j < |rest| ==> Before(s[0], rest[j]) by {
        Total(s[0], x);
        forall j | 0 <= j < |rest| ensures Before(s[0], rest[j]) {
          assert rest[j] in Names(s[1..]) + {x};
        }
      }
      assert s == [s[0]] + s[1..];
      NamesConcat([s[0]], s[1..]);
      NamesConcat([s[0]], rest);
      [s[0]] + rest
  }

  /** The sorted list without duplicates of the same names. */
  function Canonical(s: seq<string>): (r: seq<string>)
    ensures Increasing(r) && Names(r) == Names(s)
  {
    if s == [] then []
    else
      assert s == s[..|s| - 1] + [s[|s| - 1]];
      Insert(Canonical(s[..|s| - 1]), s[|s| - 1])
  }

  /** Two lists have one canonical form exactly when they hold the same names. */
  lemma CanonicalExactly(s: seq<string>, t: seq<string>)
    ensures Canonical(s) == Canonical(t) <==> Names(s) == Names(t)
    ensures Canonical(Canonical(s)) == Canonical(s)
  {
    if Names(s) == Names(t) { IncreasingIsUnique(Canonical(s), Canonical(t)); }
    IncreasingIsUnique(Canonical(Canonical(s)), Canonical(s));
  }

  /** Stands for the library sort. */
  method SortStrings(s: seq<string>) returns (a: array<string>)
    ensures fresh(a) && Ordered(a[..]) && Names(a[..]) == Names(s) && a.Length == |s|
  {
    var sorted := Sorted(s);
    a := new string[|sorted|](i requires 0 <= i < |sorted| => sorted[i]);
    assert a[..] == sorted;
  }

  function Sorted(s: seq<string>): (r: seq<string>)
    ensures Ordered(r) && Names(r) == Names(s) && |r| == |s|
  {
    if s == [] then []
    else
      assert s == s[..|s| - 1] + [s[|s| - 1]];
      Place(Sorted(s[..|s| - 1]), s[|s| - 1])
  }

  function Place(s: seq<string>, x: string): (r: seq<string>)
    requires Ordered(s)
    ensures Ordered(r) && Names(r) == Names(s) + {x} && |r| == |s| + 1
    ensures r[0] == x || (s != [] && r[0] == s[0])
  {
    if s == [] then [x]
    else if Before(s[0], x) then
      var rest := Place(s[1..], x);
      assert s == [s[0]] + s[1..];
      assert forall j :: 0 <= j < |rest| ==> s[0] == rest[j] || Before(s[0], rest[j]) by {
        forall j | 0 <= j < |rest| ensures s[0] == rest[j] || Before(s[0], rest[j]) {
          assert rest[j] in Names(s[1..]) + {x};
        }
      }
      NamesConcat([s[0]], s[1..]);
      NamesConcat([s[0]], rest);
      [s[0]] + rest
    else
      Total(s[0], x);
      assert forall j :: 0 <= j < |s| ==> x == s[j] || Before(x, s[j]) by {
        forall j | 0 <= j < |s| ensures x == s[j] || Before(x, s[j]) {
          if j > 0 && x != s[0] && s[0] != s[j] { Transitive(x, s[0], s[j]); }
        }
      }
      [x] + s
  }

  /** Removes duplicates from a sorted array by writing the kept names over its front: the
      names still to be read and the names already kept share the array. */
  method DedupeInPlace(a: array<string>) returns (n: nat)
    requires Ordered(a[..])
    modifies a
    ensures n <= a.Length && a[..n] == Canonical(old(a[..]))
  {
    n := 0;
    ghost var before := a[..];
    for k := 0 to a.Length
      invariant n <= k
      invariant forall i :: k <= i < a.Length ==> a[i] == before[i]
      invariant Increasing(a[..n]) && Names(a[..n]) == Names(before[..k])
      invariant k > 0 ==> n > 0 && a[n - 1] == before[k - 1]
    {
      var value := a[k];
      assert before[..k + 1] == before[..k] + [value];
      NamesConcat(before[..k], [value]);
      if n == 0 || a[n - 1] != value {
        KeepsIncreasing(a[..n], value, before, k);
        a[n] := value;
        n := n + 1;
        assert a[..n] == a[..n - 1] + [value];
        NamesConcat(a[..n - 1], [value]);
      } else {
        assert value in a[..n];
      }
    }
    assert before[..a.Length] == before;
    IncreasingIsUnique(a[..n], Canonical(before));
  }

  lemma KeepsIncreasing(kept: seq<string>, value: string, all: seq<string>, k: nat)
    requires Increasing(kept) && Ordered(all) && k < |all| && all[k] == value
    requires kept != [] ==> k > 0 && kept[|kept| - 1] == all[k - 1] && kept[|kept| - 1] != value
    ensures Increasing(kept + [value])
  {
    if kept != [] {
      var last := kept[|kept| - 1];
      assert Before(last, value);
      forall i | 0 <= i < |kept| ensures Before(kept[i], value) {
        if i < |kept| - 1 { Transitive(kept[i], last, value); }
      }
    }
  }

  /** Names are ordered like words: a proper prefix comes first, and otherwise the first character
      in which they differ decides. */
  lemma {:induction false} BeforeExactly(a: string, b: string)
    ensures Before(a, b) <==> exists i :: 0 <= i <= |a| && i < |b| && DiffersAt(a, b, i)
  {
    if a != "" && b != "" && a[0] == b[0] {
      BeforeExactly(a[1..], b[1..]);
      if Before(a, b) {
        var i :| 0 <= i <= |a[1..]| && i < |b[1..]| && DiffersAt(a[1..], b[1..], i);
        assert a[..i + 1] == [a[0]] + a[1..][..i] && b[..i + 1] == [b[0]] + b[1..][..i];
        assert DiffersAt(a, b, i + 1);
      }
      forall i | 0 <= i <= |a| && i < |b| && DiffersAt(a, b, i) ensures Before(a, b) {
        assert i > 0;
        assert a[1..][..i - 1] == a[..i][1..] && b[1..][..i - 1] == b[..i][1..];
        assert DiffersAt(a[1..], b[1..], i - 1);
      }
    } else if a == "" && b != "" {
      assert DiffersAt(a, b, 0);
    } else if a != "" && b != "" {
      assert DiffersAt(a, b, 0) <==> a[0] < b[0];
      forall i | 0 < i <= |a| && i < |b| ensures !DiffersAt(a, b, i) { assert a[..i][0] != b[..i][0]; }
    }
  }

  predicate DiffersAt(a: string, b: string, i: nat)
    requires i <= |a| && i < |b|
  {
    a[..i] == b[..i] && (i == |a| || a[i] < b[i])
  }
}
