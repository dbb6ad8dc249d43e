/** The order of strings by code points, and `sorted` on a set of them. */
module Order {
  predicate Below(a: string, b: string) {
    b != "" && (a == "" || a[0] < b[0] || (a[0] == b[0] && Below(a[1..], b[1..])))
  }

  lemma {:induction false} Total(a: string, b: string)
    ensures (Below(a, b) && !Below(b, a) && a != b) || (Below(b, a) && !Below(a, b) && a != b)
         || (a == b && !Below(a, b) && !Below(b, a))
  {
    if a != "" && b != "" {
      Total(a[1..], b[1..]);
      assert a == [a[0]] + a[1..] && b == [b[0]] + b[1..];
    }
  }

  lemma {:induction false} Transitive(a: string, b: string, c: string)
    requires Below(a, b) && Below(b, c)
    ensures Below(a, c)
  {
    if a != "" && a[0] == b[0] == c[0] { Transitive(a[1..], b[1..], c[1..]); }
  }

  /** The first character in which they differ decides, or that only one of them goes on. */
  ghost predicate DiffersAt(a: string, b: string, i: nat) {
    i <= |a| && i < |b| && a[..i] == b[..i] && (i == |a| || a[i] < b[i])
  }

  lemma SameBeginning(a: string, b: string, i: nat)
    requires 0 < i <= |a| && i <= |b| && a[..i] == b[..i]
    ensures a[0] == b[0]
  {
    assert a[..i][0] == a[0] && b[..i][0] == b[0];
  }

  lemma {:induction false} BelowByPosition(a: string, b: string)
    ensures Below(a, b) <==> exists i: nat :: DiffersAt(a, b, i)
  {
    if a != "" && b != "" && a[0] == b[0] {
      BelowByPosition(a[1..], b[1..]);
      assert a == [a[0]] + a[1..] && b == [b[0]] + b[1..];
      if Below(a, b) {
        var i: nat :| DiffersAt(a[1..], b[1..], i);
        assert a[..i + 1] == [a[0]] + a[1..][..i] && b[..i + 1] == [b[0]] + b[1..][..i];
        assert DiffersAt(a, b, i + 1);
      }
      if i: nat :| DiffersAt(a, b, i) {
        assert i > 0;
        assert a[..i][1..] == a[1..][..i - 1] && b[..i][1..] == b[1..][..i - 1];
        assert DiffersAt(a[1..], b[1..], i - 1);
      }
    } else {
      if Below(a, b) { assert DiffersAt(a, b, 0); }
      if i: nat :| DiffersAt(a, b, i) {
        if i > 0 { SameBeginning(a, b, i); }
      }
    }
  }

  ghost predicate Ascending(s: seq<string>) {
    forall i, j :: 0 <= i < j < |s| ==> Below(s[i], s[j])
  }

  function Elements(s: seq<string>): set<string> {
    set x | x in s
  }

  /** Ascending lists are determined by what is in them. */
  lemma {:induction false} AscendingIsUnique(s: seq<string>, t: seq<string>)
    requires Ascending(s) && Ascending(t) && Elements(s) == Elements(t)
    ensures s == t
  {
    hide Below;
    SameEmptiness(s, t);
    if s != [] {
      assert s[0] in Elements(s);
      assert t[0] in Elements(t);
      LeastIsFirst(s, t);
      LeastIsFirst(t, s);
      Total(s[0], t[0]);
      TailElements(s);
      TailElements(t);
      AscendingIsUnique(s[1..], t[1..]);
    }
  }

  lemma SameEmptiness(s: seq<string>, t: seq<string>)
    requires Elements(s) == Elements(t)
    ensures s == [] <==> t == []
  {
    assert forall u: seq<string> :: u != [] ==> u[0] in Elements(u);
  }

  lemma LeastIsFirst(s: seq<string>, t: seq<string>)
    requires Ascending(s) && s != [] && t != [] && t[0] in Elements(s)
    ensures s[0] == t[0] || Below(s[0], t[0])
  {
  }

  lemma TailElements(s: seq<string>)
    requires Ascending(s) && s != []
    ensures Elements(s[1..]) == Elements(s) - {s[0]}
  {
    forall i | 0 < i < |s| ensures s[i] != s[0] { Total(s[0], s[i]); }
    assert s == [s[0]] + s[1..];
  }

  lemma InsertedIsAscending(s: seq<string>, x: string, i: nat)
    requires Ascending(s) && x !in s && i <= |s| && (forall k :: 0 <= k < i ==> Below(s[k], x))
    requires i < |s| ==> !Below(s[i], x)
    ensures Ascending(s[..i] + [x] + s[i..])
  {
    hide Below;
    forall k | i <= k < |s| ensures Below(x, s[k]) {
      Total(s[i], x);
      if i < k { Transitive(x, s[i], s[k]); }
    }
    var r := s[..i] + [x] + s[i..];
    assert forall k :: 0 <= k < |r| ==> r[k] == if k < i then s[k] else if k == i then x else s[k - 1];
  }

  /** Where a string that is not in an ascending list belongs. */
  method Insert(s: seq<string>, x: string) returns (r: seq<string>)
    requires Ascending(s) && x !in s
    ensures Ascending(r) && Elements(r) == Elements(s) + {x}
  {
    hide Below;
    var i := 0;
    while i < |s| && Below(s[i], x)
      invariant 0 <= i <= |s|
      invariant forall k :: 0 <= k < i ==> Below(s[k], x)
    {
      i := i + 1;
    }
    r := s[..i] + [x] + s[i..];
    InsertedIsAscending(s, x, i);
    assert Elements(r) == Elements(s) + {x} by {
      assert s == s[..i] + s[i..];
    }
  }

  /** `sorted(keys)` for a set of strings. */
  method Sorted(keys: set<string>) returns (r: seq<string>)
    ensures Ascending(r) && Elements(r) == keys
  {
    r := [];
    var rest := keys;
    while rest != {}
      invariant Ascending(r) && rest <= keys && Elements(r) == keys - rest
      decreases |rest|
    {
      var x :| x in rest;
      rest := rest - {x};
      assert x !in Elements(r);
      r := Insert(r, x);
    }
  }
}
