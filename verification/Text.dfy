/** Byte-wise string order, the sort-then-compact idiom applied to service names, trimming and ASCII case folding. */
module Text {

  /** Strict lexicographic order on strings. */
  predicate Before(a: string, b: string) {
    b != "" && (a == "" || a[0] < b[0] || (a[0] == b[0] && Before(a[1..], b[1..])))
  }

  lemma {:induction false} BeforeIsTotal(a: string, b: string)
    ensures a == b || Before(a, b) || Before(b, a)
    ensures !(Before(a, b) && Before(b, a))
    ensures !Before(a, a)
  {
    if a != "" {
      BeforeIsTotal(a[1..], a[1..]);
      if b != "" {
        BeforeIsTotal(a[1..], b[1..]);
        assert a == [a[0]] + a[1..] && b == [b[0]] + b[1..];
      }
    }
  }

  lemma {:induction false} BeforeIsTransitive(a: string, b: string, c: string)
    requires Before(a, b) && Before(b, c)
    ensures Before(a, c)
  {
    if a != "" && a[0] == b[0] && b[0] == c[0] {
      BeforeIsTransitive(a[1..], b[1..], c[1..]);
    }
  }

  /** The smaller string is a proper prefix, or has the smaller character at the first difference. */
  lemma {:induction false} BeforeIff(a: string, b: string)
    ensures Before(a, b) <==>
      exists k :: 0 <= k <= |a| && k < |b| && a[..k] == b[..k] && (k == |a| || a[k] < b[k])
  {
    if Before(a, b) {
      var k := FirstDifference(a, b);
    }
    if k :| 0 <= k <= |a| && k < |b| && a[..k] == b[..k] && (k == |a| || a[k] < b[k]) {
      DifferenceDecides(a, b, k);
    }
  }

  lemma {:induction false} FirstDifference(a: string, b: string) returns (k: nat)
    requires Before(a, b)
    ensures k <= |a| && k < |b| && a[..k] == b[..k] && (k == |a| || a[k] < b[k])
  {
    k := 0;
    if a != "" && a[0] == b[0] {
      var n := FirstDifference(a[1..], b[1..]);
      k := n + 1;
      assert a[..k] == [a[0]] + a[1..][..k - 1] && b[..k] == [b[0]] + b[1..][..k - 1];
    }
  }

  lemma {:induction false} DifferenceDecides(a: string, b: string, k: nat)
    requires k <= |a| && k < |b| && a[..k] == b[..k] && (k == |a| || a[k] < b[k])
    ensures Before(a, b)
  {
    if k > 0 {
      assert a[..k][0] == b[..k][0];
      assert a[1..][..k - 1] == a[..k][1..] && b[1..][..k - 1] == b[..k][1..];
      DifferenceDecides(a[1..], b[1..], k - 1);
    }
  }

  predicate Sorted(names: seq<string>) {
    forall i :: 0 < i < |names| ==> !Before(names[i], names[i - 1])
  }

  predicate StrictlySorted(names: seq<string>) {
    forall i :: 0 < i < |names| ==> Before(names[i - 1], names[i])
  }

  function Insert(name: string, names: seq<string>): (r: seq<string>)
    requires Sorted(names)
    ensures Sorted(r) && multiset(r) == multiset(names) + multiset{name}
    ensures r != [] && (names == [] || r[0] == name || r[0] == names[0])
  {
    if names == [] || !Before(names[0], name) then [name] + names
    else
      var rest := Insert(name, names[1..]);
      assert names == [names[0]] + names[1..];
      BeforeIsTotal(names[0], name);
      [names[0]] + rest
  }

  /** The ascending sort of a list of names. */
  function Sort(names: seq<string>): (r: seq<string>)
    ensures Sorted(r) && multiset(r) == multiset(names)
  {
    if names == [] then []
    else
      assert names == [names[0]] + names[1..];
      Insert(names[0], Sort(names[1..]))
  }

  /** Collapses runs of equal neighbours to one element. */
  function Compact(names: seq<string>): (r: seq<string>)
    ensures forall n :: n in r <==> n in names
    ensures names != [] ==> r != [] && r[0] == names[0]
    ensures Sorted(names) ==> StrictlySorted(r)
  {
    if |names| < 2 then names
    else if names[0] == names[1] then
      assert Sorted(names) ==> Sorted(names[1..]);
      Compact(names[1..])
    else
      assert Sorted(names) ==> Sorted(names[1..]);
      BeforeIsTotal(names[0], names[1]);
      [names[0]] + Compact(names[1..])
  }

  /** Sorting and compacting keeps exactly the names of the list, each once and in order. */
  function SortCompact(names: seq<string>): (r: seq<string>)
    ensures StrictlySorted(r)
    ensures forall n :: n in r <==> n in names
  {
    var sorted := Sort(names);
    assert forall n :: n in sorted <==> n in multiset(sorted);
    Compact(sorted)
  }

  // ---------------------------------------------------------------- trimming and case folding

  function LowerChar(c: char): char {
    if 'A' <= c <= 'Z' then (c as int - 'A' as int + 'a' as int) as char else c
  }

  function Lower(s: string): string {
    seq(|s|, i requires 0 <= i < |s| => LowerChar(s[i]))
  }

  predicate Blank(c: char) {
    c == ' ' || c == '\t' || c == '\n' || c == '\r'
  }

  function TrimLeft(s: string): string {
    if s != "" && Blank(s[0]) then TrimLeft(s[1..]) else s
  }

  function Trim(s: string): string {
    var t := TrimLeft(s);
    TrimRight(t)
  }

  function TrimRight(s: string): string {
    if s != "" && Blank(s[|s| - 1]) then TrimRight(s[..|s| - 1]) else s
  }

  lemma {:induction false} TrimLeftDrops(s: string) returns (n: nat)
    ensures n <= |s| && TrimLeft(s) == s[n..] && (n < |s| ==> !Blank(s[n]))
    ensures forall k :: 0 <= k < n ==> Blank(s[k])
  {
    n := 0;
    if s != "" && Blank(s[0]) {
      var m := TrimLeftDrops(s[1..]);
      n := m + 1;
      forall k | 0 <= k < n ensures Blank(s[k]) { if k > 0 { assert s[k] == s[1..][k - 1]; } }
    }
  }

  lemma {:induction false} TrimRightDrops(s: string) returns (n: nat)
    ensures n <= |s| && TrimRight(s) == s[..n] && (n > 0 ==> !Blank(s[n - 1]))
    ensures forall k :: n <= k < |s| ==> Blank(s[k])
  {
    n := |s|;
    if s == "" || !Blank(s[|s| - 1]) {
      assert s[..n] == s;
    } else {
      n := TrimRightDrops(s[..|s| - 1]);
    }
  }

  /** Trimming drops exactly the blanks at both ends. */
  lemma TrimDropsBlanks(s: string) returns (i: nat, j: nat)
    ensures i <= j <= |s| && Trim(s) == s[i..j]
    ensures i < j ==> !Blank(s[i]) && !Blank(s[j - 1])
    ensures forall k :: 0 <= k < i || j <= k < |s| ==> Blank(s[k])
  {
    i := TrimLeftDrops(s);
    var n := TrimRightDrops(s[i..]);
    j := i + n;
    assert s[i..][..n] == s[i..j];
    forall k | j <= k < |s| ensures Blank(s[k]) { assert s[k] == s[i..][k - i]; }
    if i < j { assert s[j - 1] == s[i..][n - 1] && s[i] == s[i..][0]; }
  }

  predicate EqualFold(a: string, b: string) {
    Lower(a) == Lower(b)
  }

  /** Two texts are equal up to case when they differ only in the case of single letters. */
  lemma {:induction false} EqualFoldIff(a: string, b: string)
    ensures EqualFold(a, b) <==> |a| == |b| && forall i :: 0 <= i < |a| ==>
      || a[i] == b[i]
      || ('A' <= a[i] <= 'Z' && b[i] as int == a[i] as int + 32)
      || ('A' <= b[i] <= 'Z' && a[i] as int == b[i] as int + 32)
  {
    assert |Lower(a)| == |a| && |Lower(b)| == |b|;
    if EqualFold(a, b) {
      forall i | 0 <= i < |a| ensures LowerChar(a[i]) == LowerChar(b[i]) {
        assert Lower(a)[i] == Lower(b)[i];
      }
    }
  }

  predicate Contains(s: string, part: string) {
    part <= s || (s != "" && Contains(s[1..], part))
  }

  /** A text contains a part exactly when the part stands somewhere in it. */
  lemma {:induction false} ContainsIff(s: string, part: string)
    ensures Contains(s, part) <==> exists i :: 0 <= i <= |s| && part <= s[i..]
  {
    if part <= s {
      assert s[0..] == s;
    } else if s != "" {
      ContainsIff(s[1..], part);
      forall i | 0 <= i < |s| ensures s[1..][i..] == s[i + 1..] {}
      if i :| 0 <= i <= |s| && part <= s[i..] {
        assert i > 0 && part <= s[1..][i - 1..];
      }
    }
  }
}
