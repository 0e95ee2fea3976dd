/**
 Code-point order on text and the canonical listing of a finite set of texts, the meaning of
 `tuple(sorted(...))` wherever the controllers store one.
 */
module Text {

  /** The characters `str.strip` removes and `\s` matches. */
  predicate Whitespace(c: char) {
    || c == ' '
    || '\t' <= c <= '\r'
    || '\U{1c}' <= c <= '\U{1f}'
    || c in "\U{85}\U{a0}\U{1680}\U{2028}\U{2029}\U{202f}\U{205f}\U{3000}"
    || '\U{2000}' <= c <= '\U{200a}'
  }

  predicate Blank(s: string) {
    forall k :: 0 <= k < |s| ==> Whitespace(s[k])
  }

  /** Equal to its own `strip()`. */
  predicate Stripped(s: string) {
    s == "" || (!Whitespace(s[0]) && !Whitespace(s[|s| - 1]))
  }

  predicate Less(a: string, b: string) {
    b != [] && (a == [] || a[0] < b[0] || (a[0] == b[0] && Less(a[1..], b[1..])))
  }

  predicate LessEq(a: string, b: string) {
    a == b || Less(a, b)
  }

  lemma {:induction false} LessIsTotal(a: string, b: string)
    ensures Less(a, b) || Less(b, a) || a == b
  {
    if a != [] && b != [] && a[0] == b[0] {
      LessIsTotal(a[1..], b[1..]);
      assert a[1..] == b[1..] ==> [a[0]] + a[1..] == [b[0]] + b[1..];
    }
  }

  lemma {:induction false} LessIsAsymmetric(a: string, b: string)
    ensures !(Less(a, b) && Less(b, a)) && !Less(a, a)
    decreases |a|
  {
    if a != [] {
      LessIsAsymmetric(a[1..], if b == [] then [] else b[1..]);
    }
  }

  lemma {:induction false} LessIsTransitive(a: string, b: string, c: string)
    requires Less(a, b) && Less(b, c)
    ensures Less(a, c)
    decreases |a|
  {
    if a != [] && a[0] == b[0] && b[0] == c[0] {
      LessIsTransitive(a[1..], b[1..], c[1..]);
    }
  }

  predicate Ascending(s: seq<string>) {
    forall i :: 0 <= i < |s| - 1 ==> Less(s[i], s[i + 1])
  }

  lemma {:induction false} AscendingFromHead(s: seq<string>, k: nat)
    requires Ascending(s) && 0 < k < |s|
    ensures Less(s[0], s[k])
  {
    if k > 1 {
      AscendingFromHead(s, k - 1);
      LessIsTransitive(s[0], s[k - 1], s[k]);
    }
  }

  lemma {:induction false} AscendingHasNoRepeats(s: seq<string>)
    requires Ascending(s)
    ensures forall i, j :: 0 <= i < j < |s| ==> Less(s[i], s[j]) && s[i] != s[j]
  {
    forall i, j | 0 <= i < j < |s|
      ensures Less(s[i], s[j]) && s[i] != s[j]
    {
      AscendingFromHead(s[i..], j - i);
      LessIsAsymmetric(s[i], s[j]);
    }
  }

  lemma LeastExists(s: set<string>)
    requires s != {}
    ensures exists x :: x in s && forall y :: y in s ==> LessEq(x, y)
    decreases |s|
  {
    var e :| e in s;
    var rest := s - {e};
    if rest != {} {
      LeastExists(rest);
      var m :| m in rest && forall y :: y in rest ==> LessEq(m, y);
      LessIsTotal(e, m);
      var x := if Less(e, m) then e else m;
      forall y | y in s
        ensures LessEq(x, y)
      {
        if y in rest && Less(e, m) && m != y {
          LessIsTransitive(e, m, y);
        }
      }
    }
  }

  function Least(s: set<string>): (x: string)
    requires s != {}
    ensures x in s && forall y :: y in s ==> LessEq(x, y)
  {
    LeastExists(s);
    assert forall x, y :: LessEq(x, y) && LessEq(y, x) ==> x == y by {
      forall x, y | LessEq(x, y) && LessEq(y, x)
        ensures x == y
      {
        LessIsAsymmetric(x, y);
      }
    }
    var x :| x in s && forall y :: y in s ==> LessEq(x, y);
    x
  }

  /** The strictly ascending sequence of exactly the members of `s`. */
  function Sorted(s: set<string>): (r: seq<string>)
    ensures Ascending(r)
    ensures forall x :: x in r <==> x in s
    ensures |r| == |s|
  {
    if s == {} then []
    else
      var x := Least(s);
      var rest := Sorted(s - {x});
      assert rest != [] ==> rest[0] in s && rest[0] != x;
      [x] + rest
  }

  lemma {:induction false} AscendingIsCanonical(a: seq<string>, b: seq<string>)
    requires Ascending(a) && Ascending(b)
    requires forall x :: x in a <==> x in b
    ensures a == b
    decreases |a|
  {
    assert a != [] ==> a[0] in a;
    assert b != [] ==> b[0] in b;
    if a != [] {
      assert a[0] == b[0] by {
        var i :| 0 <= i < |b| && b[i] == a[0];
        var j :| 0 <= j < |a| && a[j] == b[0];
        AscendingHasNoRepeats(a);
        AscendingHasNoRepeats(b);
        LessIsAsymmetric(a[0], b[0]);
      }
      AscendingHasNoRepeats(a);
      AscendingHasNoRepeats(b);
      forall x
        ensures x in a[1..] <==> x in b[1..]
      {
        assert x in a <==> x in b;
      }
      AscendingIsCanonical(a[1..], b[1..]);
      assert a == [a[0]] + a[1..] && b == [b[0]] + b[1..];
    }
  }

  /** A strictly ascending sequence is the sorted listing of its own members. */
  lemma SortedOfMembers(a: seq<string>)
    requires Ascending(a)
    ensures Sorted(set x | x in a) == a
  {
    AscendingIsCanonical(Sorted(set x | x in a), a);
  }
}
