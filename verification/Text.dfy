/** The few operations of Go's `strings` package that the modelled code relies on. */
module Text {
  import opened Common

  /** White space in the sense of Go's unicode.IsSpace. */
  predicate IsSpace(c: char) {
    || '\t' <= c <= '\r'
    || c in {' ', '\U{85}', '\U{A0}', '\U{1680}', '\U{2028}', '\U{2029}', '\U{202F}', '\U{205F}', '\U{3000}'}
    || '\U{2000}' <= c <= '\U{200A}'
  }

  predicate Blank(s: string) {
    forall i :: 0 <= i < |s| ==> IsSpace(s[i])
  }

  function TrimLeft(s: string): string {
    if s != [] && IsSpace(s[0]) then TrimLeft(s[1..]) else s
  }

  function TrimRight(s: string): string {
    if s != [] && IsSpace(s[|s| - 1]) then TrimRight(s[..|s| - 1]) else s
  }

  function TrimSpace(s: string): string {
    TrimRight(TrimLeft(s))
  }

  predicate Trimmed(s: string) {
    s == [] || (!IsSpace(s[0]) && !IsSpace(s[|s| - 1]))
  }

  predicate OccursAt(s: string, sub: string, i: int) {
    0 <= i <= |s| - |sub| && s[i..i + |sub|] == sub
  }

  predicate Contains(s: string, sub: string) {
    exists i :: 0 <= i <= |s| && OccursAt(s, sub, i)
  }

  function IndexOf(t: string, c: char): (r: Option<nat>)
    ensures r.Some? ==> r.value < |t| && t[r.value] == c
  {
    if t == [] then None
    else if t[0] == c then Some(0)
    else match IndexOf(t[1..], c)
      case Some(i) => Some(i + 1)
      case None => None
  }

  function Split(s: string, sep: char): (parts: seq<string>)
    ensures |parts| > 0
  {
    if s == [] then [[]]
    else if s[0] == sep then [[]] + Split(s[1..], sep)
    else
      var rest := Split(s[1..], sep);
      [[s[0]] + rest[0]] + rest[1..]
  }

  function Join(parts: seq<string>, sep: char): string
    requires |parts| > 0
  {
    if |parts| == 1 then parts[0] else parts[0] + [sep] + Join(parts[1..], sep)
  }

  // ---------------------------------------------------------------- trimming

  lemma {:induction false} TrimLeftParts(s: string) returns (k: nat)
    ensures k <= |s| && TrimLeft(s) == s[k..] && Blank(s[..k])
    ensures k < |s| ==> !IsSpace(s[k])
  {
    if s != [] && IsSpace(s[0]) {
      var j := TrimLeftParts(s[1..]);
      k := j + 1;
      assert s[1..][j..] == s[k..];
      forall i | 0 <= i < k ensures IsSpace(s[..k][i]) {
        if i > 0 { assert s[..k][i] == s[1..][..j][i - 1]; }
      }
    } else {
      k := 0;
    }
  }

  lemma {:induction false} TrimRightParts(s: string) returns (k: nat)
    ensures k <= |s| && TrimRight(s) == s[..k] && Blank(s[k..])
    ensures k > 0 ==> !IsSpace(s[k - 1])
  {
    if s != [] && IsSpace(s[|s| - 1]) {
      k := TrimRightParts(s[..|s| - 1]);
      assert s[..|s| - 1][..k] == s[..k];
      forall i | 0 <= i < |s| - k ensures IsSpace(s[k..][i]) {
        if i < |s| - k - 1 { assert s[k..][i] == s[..|s| - 1][k..][i]; }
      }
    } else {
      k := |s|;
    }
  }

  /** Trimming cuts blank ends off and nothing else, and cannot be done twice. */
  lemma {:induction false} TrimSpaceParts(s: string) returns (a: string, b: string)
    ensures s == a + TrimSpace(s) + b && Blank(a) && Blank(b)
    ensures Trimmed(TrimSpace(s))
  {
    var i := TrimLeftParts(s);
    var t := TrimLeft(s);
    var j := TrimRightParts(t);
    a, b := s[..i], t[j..];
    assert t == t[..j] + t[j..];
    assert s == s[..i] + s[i..];
  }

  lemma TrimTrimmed(s: string)
    requires Trimmed(s)
    ensures TrimSpace(s) == s
  {
  }

  // ---------------------------------------------------------------- searching

  lemma OccursChars(s: string, sub: string, i: int)
    requires OccursAt(s, sub, i)
    ensures forall j :: 0 <= j < |sub| ==> s[i + j] == sub[j]
  {
    forall j | 0 <= j < |sub| ensures s[i + j] == sub[j] {
      assert s[i..i + |sub|][j] == s[i + j];
    }
  }

  lemma ContainsTrimmed(s: string, sub: string)
    requires Contains(s, sub) && sub != [] && forall i :: 0 <= i < |sub| ==> !IsSpace(sub[i])
    ensures Contains(TrimSpace(s), sub)
  {
    var a, b := TrimSpaceParts(s);
    var t := TrimSpace(s);
    var i :| 0 <= i <= |s| && OccursAt(s, sub, i);
    OccursChars(s, sub, i);
    var k := i + |sub| - 1;
    assert !IsSpace(s[i + 0]) && !IsSpace(s[i + (|sub| - 1)]);
    assert forall j :: 0 <= j < |a| ==> s[j] == a[j];
    assert forall j :: |a| + |t| <= j < |s| ==> s[j] == b[j - |a| - |t|];
    assert |a| <= i && k < |a| + |t|;
    assert s[i..i + |sub|] == t[i - |a|..i - |a| + |sub|];
    assert OccursAt(t, sub, i - |a|);
  }

  lemma ContainsTail(s: string, sub: string)
    requires Contains(s, sub) && s != [] && sub != [] && s[0] != sub[0]
    ensures Contains(s[1..], sub)
  {
    var i :| 0 <= i <= |s| && OccursAt(s, sub, i);
    OccursChars(s, sub, i);
    assert s[i + 0] == sub[0];
    assert s[1..][i - 1..i - 1 + |sub|] == s[i..i + |sub|];
    assert OccursAt(s[1..], sub, i - 1);
  }

  lemma NotContained(s: string, sub: string)
    requires sub != [] && sub[0] !in s
    ensures !Contains(s, sub)
  {
    forall i | 0 <= i <= |s| ensures !OccursAt(s, sub, i) {
      if i + |sub| <= |s| {
        assert s[i..i + |sub|][0] == s[i] && s[i] in s;
      }
    }
  }

  lemma IndexOfMeans(t: string, c: char)
    ensures match IndexOf(t, c) case Some(i) => c !in t[..i] case None => c !in t
  {
    if t != [] && t[0] != c {
      IndexOfMeans(t[1..], c);
      match IndexOf(t[1..], c)
      case Some(i) => assert t[..i + 1] == [t[0]] + t[1..][..i];
      case None => assert t == [t[0]] + t[1..];
    }
  }

  lemma IndexFound(t: string, c: char, n: nat)
    requires n < |t| && t[n] == c && c !in t[..n]
    ensures IndexOf(t, c) == Some(n)
  {
    if n > 0 {
      assert t[0] == t[..n][0];
      assert t[1..][..n - 1] == t[..n][1..];
      IndexFound(t[1..], c, n - 1);
    }
  }

  // ---------------------------------------------------------------- splitting

  lemma SplitParts(s: string, sep: char)
    ensures forall i :: 0 <= i < |Split(s, sep)| ==> sep !in Split(s, sep)[i]
  {
    if s != [] && s[0] != sep {
      var rest := Split(s[1..], sep);
      SplitParts(s[1..], sep);
      assert forall i :: 0 < i < |rest| ==> Split(s, sep)[i] == rest[i];
    }
  }

  lemma SplitWhole(s: string, sep: char)
    requires sep !in s
    ensures Split(s, sep) == [s]
  {
    if s != [] {
      SplitWhole(s[1..], sep);
      assert [s[0]] + s[1..] == s;
    }
  }

  lemma SplitFirst(a: string, sep: char, b: string)
    requires sep !in a
    ensures Split(a + [sep] + b, sep) == [a] + Split(b, sep)
  {
    if a == [] {
      assert a + [sep] + b == [sep] + b;
      assert ([sep] + b)[1..] == b;
    } else {
      SplitFirst(a[1..], sep, b);
      assert (a + [sep] + b)[1..] == a[1..] + [sep] + b;
      assert [a[0]] + a[1..] == a;
    }
  }

  /** The parts of a text with one more character in front. */
  function Extended(c: char, sep: char, parts: seq<string>): seq<string>
    requires |parts| > 0
  {
    if c == sep then [[]] + parts else [[c] + parts[0]] + parts[1..]
  }

  lemma SplitCons(c: char, s: string, sep: char)
    ensures Split([c] + s, sep) == Extended(c, sep, Split(s, sep))
  {
    assert ([c] + s)[1..] == s;
  }

  lemma ExtendedConcat(c: char, sep: char, x: seq<string>, y: seq<string>)
    requires |x| > 0
    ensures Extended(c, sep, x + y) == Extended(c, sep, x) + y
  {
    assert (x + y)[1..] == x[1..] + y;
  }

  /** The parts in front of a separator and the parts behind it. */
  lemma {:induction false} SplitAround(a: string, sep: char, b: string)
    ensures Split(a + [sep] + b, sep) == Split(a, sep) + Split(b, sep)
  {
    if a == [] {
      SplitCons(sep, b, sep);
      assert a + [sep] + b == [sep] + b;
    } else {
      SplitAround(a[1..], sep, b);
      hide Split;
      assert a == [a[0]] + a[1..] && a + [sep] + b == [a[0]] + (a[1..] + [sep] + b);
      SplitCons(a[0], a[1..], sep);
      SplitCons(a[0], a[1..] + [sep] + b, sep);
      ExtendedConcat(a[0], sep, Split(a[1..], sep), Split(b, sep));
    }
  }

  /** Splitting undoes joining when no part holds the separator. */
  lemma {:induction false} SplitJoin(parts: seq<string>, sep: char)
    requires |parts| > 0 && forall i :: 0 <= i < |parts| ==> sep !in parts[i]
    ensures Split(Join(parts, sep), sep) == parts
  {
    if |parts| == 1 {
      SplitWhole(parts[0], sep);
    } else {
      SplitJoin(parts[1..], sep);
      SplitFirst(parts[0], sep, Join(parts[1..], sep));
      assert parts == [parts[0]] + parts[1..];
    }
  }
}
