/** The rewrite of the AWS provider version in kubernetes.tf: ModifyTerraformProviderVersion of
    pkg/utils/terraform_utils.go. */
module ProviderVersion {
  import opened Common
  import opened Text
  import opened ProviderPattern

  // ---------------------------------------------------------------- replacing all matches

  type Finder = string -> Option<Quotes>

  /** What is needed of a way to find matches: a match begins with an `a` and holds two quotes. */
  ghost predicate Finds(find: Finder) {
    forall t :: find(t).Some? ==> AreQuotes(t, find(t).value) && t[0] == 'a'
  }

  /** Replaces the quoted text of every match, going on behind each. */
  function ReplaceAll(find: Finder, t: string, version: string): string
    requires Finds(find)
    decreases |t|
  {
    if t == [] then []
    else match find(t)
      case Some(q) => t[..q.open + 1] + version + ['"'] + ReplaceAll(find, t[q.close + 1..], version)
      case None => [t[0]] + ReplaceAll(find, t[1..], version)
  }

  function Rewrite(t: string, version: string): string {
    MatchFinds();
    ReplaceAll(MatchHere, t, version)
  }

  predicate MatchesAnywhere(t: string) {
    t != [] && (MatchHere(t).Some? || MatchesAnywhere(t[1..]))
  }

  /** The value between the quotes hides no version behind a closing brace. */
  predicate HidesNothing(t: string, q: Quotes)
    requires AreQuotes(t, q)
  {
    '}' !in t[q.open + 1..q.close] || LastVersion(t[q.close + 1..]) == None
  }

  /** No replaced value does. */
  predicate NothingHidden(t: string)
    decreases |t|
  {
    t == [] ||
    match MatchHere(t)
    case Some(q) => HidesNothing(t, q) && NothingHidden(t[q.close + 1..])
    case None => NothingHidden(t[1..])
  }

  /** The value of the version that a pass leaves last before the first closing brace. */
  function Visible(t: string, version: string): Option<string>
    decreases |t|
  {
    if t == [] then None
    else match MatchHere(t)
      case Some(q) =>
        var later := Visible(t[q.close + 1..], version);
        if later.Some? then later else Some(version)
      case None =>
        if t[0] == '}' then None
        else
          var later := Visible(t[1..], version);
          if later.Some? then later else Value(t, VersionHere(t))
  }

  /** The text between two quotes. */
  function Value(t: string, q: Option<Quotes>): Option<string>
    requires q.Some? ==> AreQuotes(t, q.value)
  {
    match q
    case Some(x) => Some(t[x.open + 1..x.close])
    case None => None
  }

  /** Once a match is replaced, the version that comes into view behind it, if any, is the new one. */
  predicate Calm(t: string, version: string)
    decreases |t|
  {
    t == [] ||
    match MatchHere(t)
    case Some(q) =>
      (Visible(t[q.close + 1..], version) in {None, Some(version)}) && Calm(t[q.close + 1..], version)
    case None => Calm(t[1..], version)
  }

  /** A version that does not look like an assignment of a version itself. */
  predicate Plain(version: string) {
    '"' !in version && !Contains(version, VERSION)
  }

  // ---------------------------------------------------------------- what a replacement leaves in place

  lemma FrontBeforeQuote(t: string, q: nat, x: string, w: string)
    requires q < |t| && t[q] == '"' && '"' !in w && w <= t[..q + 1] + x
    ensures w <= t
  {
    var after := t[..q + 1] + x;
    assert after[..|w|] == w;
    assert after[q] == '"';
    assert t[..q] == after[..q];
  }

  /** Text without quotes at the front of the result is the front of the original. */
  lemma {:induction false} FrontKept(find: Finder, t: string, version: string, w: string)
    requires Finds(find) && '"' !in w && w <= ReplaceAll(find, t, version)
    ensures w <= t
    decreases |t|
  {
    if t != [] && w != [] {
      match find(t)
      case Some(q) =>
        var x := version + ['"'] + ReplaceAll(find, t[q.close + 1..], version);
        assert ReplaceAll(find, t, version) == t[..q.open + 1] + x;
        FrontBeforeQuote(t, q.open, x, w);
      case None =>
        var rest := ReplaceAll(find, t[1..], version);
        assert w[1..] <= rest;
        FrontKept(find, t[1..], version, w[1..]);
        assert t == [t[0]] + t[1..] && w == [w[0]] + w[1..];
    }
  }

  lemma ReplaceCons(find: Finder, c: char, t: string, version: string)
    requires Finds(find) && c != 'a'
    ensures ReplaceAll(find, [c] + t, version) == [c] + ReplaceAll(find, t, version)
  {
    assert ([c] + t)[0] == c && ([c] + t)[1..] == t;
  }

  /** No match begins in text without an `a`. */
  lemma {:induction false} FrontSkipped(find: Finder, w: string, t: string, version: string)
    requires Finds(find) && 'a' !in w
    ensures ReplaceAll(find, w + t, version) == w + ReplaceAll(find, t, version)
  {
    hide ReplaceAll;
    if w == [] {
      assert w + t == t && w + ReplaceAll(find, t, version) == ReplaceAll(find, t, version);
    } else {
      assert w == [w[0]] + w[1..] && w + t == [w[0]] + (w[1..] + t);
      FrontSkipped(find, w[1..], t, version);
      ReplaceCons(find, w[0], w[1..] + t, version);
      assert [w[0]] + (w[1..] + ReplaceAll(find, t, version)) == w + ReplaceAll(find, t, version);
    }
  }

  /** Both together: the front can be cut off before or after replacing. */
  lemma CutFront(find: Finder, t: string, version: string, w: string)
    requires Finds(find) && '"' !in w && 'a' !in w && w <= ReplaceAll(find, t, version)
    ensures w <= t && ReplaceAll(find, t, version) == w + ReplaceAll(find, t[|w|..], version)
  {
    FrontKept(find, t, version, w);
    assert t == w + t[|w|..];
    FrontSkipped(find, w, t[|w|..], version);
  }

  lemma {:induction false} QuoteKept(find: Finder, t: string, version: string)
    requires Finds(find) && '"' in ReplaceAll(find, t, version)
    ensures '"' in t
    decreases |t|
  {
    if t != [] && find(t).None? {
      if t[0] != '"' {
        assert '"' in ReplaceAll(find, t[1..], version);
        QuoteKept(find, t[1..], version);
      }
      assert t == [t[0]] + t[1..];
    }
  }

  lemma FirstKept(find: Finder, t: string, version: string)
    requires Finds(find) && ReplaceAll(find, t, version) != []
    ensures t != [] && ReplaceAll(find, t, version)[0] == t[0]
    ensures t[0] != 'a' ==> ReplaceAll(find, t, version) == [t[0]] + ReplaceAll(find, t[1..], version)
  {
  }

  /** A quoted value in the result was a quoted value before. */
  lemma ValueKept(find: Finder, t: string, version: string)
    requires Finds(find) && QuotedNext(ReplaceAll(find, t, version))
    ensures QuotedNext(t)
  {
    FirstKept(find, t, version);
    assert ReplaceAll(find, t, version)[1..] == ReplaceAll(find, t[1..], version);
    QuoteKept(find, t[1..], version);
  }

  predicate QuotedNext(t: string) {
    t != [] && t[0] == '"' && '"' in t[1..]
  }

  lemma QuotedHereIs(t: string)
    ensures QuotedHere(t).Some? <==> AssignLen(t).Some? && QuotedNext(t[AssignLen(t).value..])
  {
    match AssignLen(t)
    case None =>
    case Some(e) =>
      if e < |t| {
        assert t[e..][1..] == t[e + 1..];
        IndexOfMeans(t[e + 1..], '"');
      }
  }

  lemma AssignmentKept(find: Finder, t: string, version: string)
    requires Finds(find) && QuotedHere(ReplaceAll(find, t, version)).Some?
    ensures QuotedHere(t).Some?
  {
    hide QuotedHere, AssignLen, ReplaceAll, QuotedNext;
    var u := ReplaceAll(find, t, version);
    QuotedHereIs(u);
    var e := AssignLen(u).value;
    AssignLenMeans(u, e);
    NoQuoteOrA(u[..e]);
    CutFront(find, t, version, u[..e]);
    assert u[e..] == ReplaceAll(find, t[e..], version);
    ValueKept(find, t[e..], version);
    NextIsQuote(t[e..]);
    AssignLenKept(u, e, t[e..]);
    assert t == u[..e] + t[e..];
    QuotedHereIs(t);
  }

  lemma NoQuoteOrA(w: string)
    requires forall c :: c in w ==> Assigns(c)
    ensures '"' !in w && 'a' !in w
  {
    assert !Assigns('"') && !Assigns('a');
  }

  lemma NextIsQuote(t: string)
    requires QuotedNext(t)
    ensures t != [] && !IsRegexSpace(t[0])
  {
  }

  lemma VersionChars()
    ensures |VERSION| == 7 && VERSION[0] == 'v'
    ensures '"' !in VERSION && 'a' !in VERSION && '}' !in VERSION && 'v' !in VERSION[1..]
  {
  }

  /** A version assignment in the result was one before. */
  lemma VersionKept(find: Finder, t: string, version: string)
    requires Finds(find) && VersionHere(ReplaceAll(find, t, version)).Some?
    ensures VersionHere(t).Some?
  {
    VersionChars();
    var u := ReplaceAll(find, t, version);
    CutFront(find, t, version, VERSION);
    var x := t[7..];
    assert u[7..] == ReplaceAll(find, x, version);
    if KeyEnd(u) == 8 {
      FirstKept(find, x, version);
      assert u[8..] == u[7..][1..] == ReplaceAll(find, x[1..], version);
      assert x[1..] == t[8..];
      AssignmentKept(find, t[8..], version);
    } else {
      if u[7..] != [] {
        FirstKept(find, x, version);
      }
      AssignmentKept(find, x, version);
    }
  }

  lemma {:induction false} LastVersionKept(find: Finder, t: string, version: string)
    requires Finds(find) && forall x :: find(x).Some? ==> LastVersion(x).Some?
    requires LastVersion(ReplaceAll(find, t, version)).Some?
    ensures LastVersion(t).Some?
    decreases |t|
  {
    var u := ReplaceAll(find, t, version);
    FirstKept(find, t, version);
    if find(t).None? {
      assert u[1..] == ReplaceAll(find, t[1..], version);
      if LastVersion(u[1..]).Some? {
        LastVersionKept(find, t[1..], version);
      } else {
        VersionKept(find, t, version);
      }
    }
  }

  // ---------------------------------------------------------------- the last version of a block

  /** More text in front, without a closing brace, does not hide a version. */
  lemma {:induction false} LastVersionBehind(w: string, t: string)
    requires '}' !in w && LastVersion(t).Some?
    ensures LastVersion(w + t) == Some(|w| + LastVersion(t).value)
  {
    hide VersionHere;
    if w == [] {
      assert w + t == t;
    } else {
      assert (w + t)[1..] == w[1..] + t;
      LastVersionBehind(w[1..], t);
    }
  }

  /** Text without a `v` cannot begin a version. */
  lemma {:induction false} LastVersionAhead(w: string, t: string)
    requires 'v' !in w && LastVersion(w + t).Some?
    ensures LastVersion(t).Some?
  {
    hide VersionHere;
    if w == [] {
      assert w + t == t;
    } else {
      assert (w + t)[1..] == w[1..] + t;
      if VersionHere(w + t).Some? {
        VersionBegins(w + t);
      }
      LastVersionAhead(w[1..], t);
    }
  }

  lemma HeadHasNoBrace(t: string, h: nat)
    requires HeadLen(t) == Some(h)
    ensures '}' !in t[..h]
  {
    AssignLenMeans(t[3..], h - 4);
    assert t[..3] == AWS;
    forall i | 0 <= i < h ensures t[i] != '}' {
      if i < 3 {
        assert t[i] == AWS[i];
      } else if i < h - 1 {
        assert t[i] == t[3..][..h - 4][i - 3];
        assert t[i] in t[3..][..h - 4];
      }
    }
  }

  lemma BehindHead(t: string, h: nat)
    requires h <= |t| && '}' !in t[..h] && LastVersion(t[h..]).Some?
    ensures LastVersion(t).Some?
  {
    hide LastVersion;
    LastVersionBehind(t[..h], t[h..]);
    assert t == t[..h] + t[h..];
  }

  lemma MatchHasVersion(t: string)
    requires MatchHere(t).Some?
    ensures t[0] == 'a' && LastVersion(t).Some?
  {
    var h := HeadLen(t).value;
    HeadLenMeans(t, h);
    HeadHasNoBrace(t, h);
    BehindHead(t, h);
  }

  lemma MatchFinds()
    ensures Finds(MatchHere)
    ensures forall t :: MatchHere(t).Some? ==> LastVersion(t).Some?
  {
    forall t: string | MatchHere(t).Some? ensures t[0] == 'a' && LastVersion(t).Some? {
      MatchHasVersion(t);
    }
  }

  // ---------------------------------------------------------------- a replaced match is found again

  lemma IndexBehind(w: string, t: string, c: char)
    requires c !in w
    ensures IndexOf(w + [c] + t, c) == Some(|w|)
  {
    var u := w + [c] + t;
    if w == [] {
      assert u[0] == c;
    } else {
      assert u[0] == w[0] && u[1..] == w[1..] + [c] + t;
      IndexBehind(w[1..], t, c);
    }
  }

  /** The text with another value between the quotes and other text behind them. */
  function Replaced(t: string, q: Quotes, version: string, rest: string): string
    requires AreQuotes(t, q)
  {
    t[..q.open + 1] + version + ['"'] + rest
  }

  function NewQuotes(q: Quotes, version: string): Quotes {
    Quotes(q.open, q.open + 1 + |version|)
  }

  lemma QuotedReplaced(t: string, q: Quotes, version: string, rest: string)
    requires QuotedHere(t) == Some(q) && '"' !in version
    ensures QuotedHere(Replaced(t, q, version, rest)) == Some(NewQuotes(q, version))
  {
    hide QuotedHere, IsAssign;
    var u, p := Replaced(t, q, version, rest), NewQuotes(q, version);
    QuotedIs(t, q);
    assert u[..q.open] == t[..q.open];
    assert u == t[..q.open + 1] + (version + ['"'] + rest);
    assert u[p.close] == '"' && u[p.open + 1..p.close] == version;
    QuotedFound(u, p);
  }

  lemma ReplacedBehind(t: string, n: nat, q: Quotes, version: string, rest: string)
    requires n <= |t| && AreQuotes(t[n..], q)
    ensures AreQuotes(t, Quotes(n + q.open, n + q.close))
    ensures Replaced(t, Quotes(n + q.open, n + q.close), version, rest) == t[..n] + Replaced(t[n..], q, version, rest)
  {
    assert t[..n + q.open + 1] == t[..n] + t[n..][..q.open + 1];
  }

  /** A key in front of an assignment of a quoted value. */
  lemma VersionFrom(key: string, tail: string, p: Quotes)
    requires VERSION <= key && QuotedHere(tail) == Some(p)
    requires (|key| == 7 && tail[0] != '"') || (|key| == 8 && key[7] == '"')
    ensures VersionHere(key + tail) == Some(Quotes(|key| + p.open, |key| + p.close))
  {
    hide QuotedHere;
    var u := key + tail;
    assert u[..7] == key[..7] == VERSION;
    assert u[|key|..] == tail;
    assert KeyEnd(u) == |key|;
  }

  lemma KeyOf(t: string, q: Quotes) returns (key: string, tail: string, p: Quotes)
    requires VersionHere(t) == Some(q)
    ensures t == key + tail && VERSION <= key
    ensures QuotedHere(tail) == Some(p) && q == Quotes(|key| + p.open, |key| + p.close)
    ensures (|key| == 7 && tail[0] != '"') || (|key| == 8 && key[7] == '"')
  {
    hide QuotedHere;
    var n := KeyEnd(t);
    key, tail, p := t[..n], t[n..], Quotes(q.open - n, q.close - n);
    assert t[..7] == VERSION;
    assert key[..7] == VERSION;
  }

  lemma ReplacedConcat(key: string, tail: string, p: Quotes, version: string, rest: string)
    requires AreQuotes(tail, p)
    ensures AreQuotes(key + tail, Quotes(|key| + p.open, |key| + p.close))
    ensures Replaced(key + tail, Quotes(|key| + p.open, |key| + p.close), version, rest)
         == key + Replaced(tail, p, version, rest)
  {
    assert (key + tail)[..|key| + p.open + 1] == key + tail[..p.open + 1];
  }

  lemma VersionReplaced(t: string, q: Quotes, version: string, rest: string)
    requires VersionHere(t) == Some(q) && '"' !in version
    ensures VersionHere(Replaced(t, q, version, rest)) == Some(NewQuotes(q, version))
  {
    hide QuotedHere, VersionHere;
    var key, tail, p := KeyOf(t, q);
    ReplacedFrom(key, tail, p, version, rest);
    ReplacedConcat(key, tail, p, version, rest);
  }

  lemma ReplacedFrom(key: string, t: string, p: Quotes, version: string, rest: string)
    requires QuotedHere(t) == Some(p) && '"' !in version && VERSION <= key
    requires (|key| == 7 && t[0] != '"') || (|key| == 8 && key[7] == '"')
    ensures VersionHere(key + Replaced(t, p, version, rest))
         == Some(Quotes(|key| + p.open, |key| + p.open + 1 + |version|))
  {
    hide QuotedHere, VersionHere;
    QuotedReplaced(t, p, version, rest);
    assert Replaced(t, p, version, rest)[0] == t[0];
    VersionFrom(key, Replaced(t, p, version, rest), NewQuotes(p, version));
  }

  /** Between the key and its opening quote there is neither a brace nor a `v`. */
  lemma KeyChars(t: string, q: Quotes)
    requires VersionHere(t) == Some(q)
    ensures q.open >= 7 && 'v' !in t[1..q.open + 1] && '}' !in t[1..q.open + 1]
  {
    VersionChars();
    var n := KeyEnd(t);
    var e := AssignLen(t[n..]).value;
    AssignLenMeans(t[n..], e);
    assert t[..7] == VERSION;
    forall i | 1 <= i <= q.open ensures t[i] != 'v' && t[i] != '}' {
      if i < 7 {
        assert t[i] == VERSION[i] == VERSION[1..][i - 1];
      } else if n <= i < q.open {
        assert t[i] == t[n..][..e][i - n];
        assert t[i] in t[n..][..e];
      }
    }
  }

  /** No version begins in a plain value. */
  lemma {:induction false} PlainAhead(value: string, t: string)
    requires Plain(value) && LastVersion(value + ['"'] + t).Some?
    ensures LastVersion(t).Some?
  {
    hide VersionHere;
    if value == [] {
      assert value + ['"'] + t == ['"'] + t;
      LastVersionAhead(['"'], t);
    } else {
      assert (value + ['"'] + t)[1..] == value[1..] + ['"'] + t;
      PlainHasNone(value, t);
      PlainTail(value);
      PlainAhead(value[1..], t);
    }
  }

  lemma PlainTail(value: string)
    requires Plain(value) && value != []
    ensures Plain(value[1..])
  {
    forall i | 0 <= i <= |value[1..]| ensures !OccursAt(value[1..], VERSION, i) {
      if OccursAt(value[1..], VERSION, i) {
        assert value[1..][i..i + 7] == value[i + 1..i + 8];
        assert OccursAt(value, VERSION, i + 1);
      }
    }
  }

  lemma PlainHasNone(value: string, t: string)
    requires Plain(value)
    ensures VersionHere(value + ['"'] + t) == None
  {
    if VERSION <= value + ['"'] + t {
      VersionInside(value, t);
    }
  }

  lemma VersionInside(value: string, t: string)
    requires '"' !in value && VERSION <= value + ['"'] + t
    ensures Contains(value, VERSION)
  {
    VersionChars();
    var u := value + ['"'] + t;
    assert u[..7] == VERSION && u[|value|] == '"';
    assert forall i :: 0 <= i < 7 ==> u[i] == VERSION[i];
    assert |value| >= 7;
    assert value[0..0 + |VERSION|] == u[..7];
    assert OccursAt(value, VERSION, 0);
  }

  lemma BehindKey(t: string, q: Quotes, version: string, rest: string)
    requires AreQuotes(t, q) && q.open >= 1
    ensures t[1..] == t[1..q.open + 1] + t[q.open + 1..q.close] + ['"'] + t[q.close + 1..]
    ensures Replaced(t, q, version, rest)[1..] == t[1..q.open + 1] + version + ['"'] + rest
  {
  }

  lemma NoLaterVersion(t: string, q: Quotes, version: string, rest: string)
    requires VersionHere(t) == Some(q) && Plain(version) && LastVersion(rest) == None
    ensures LastVersion(Replaced(t, q, version, rest)[1..]) == None
  {
    KeyChars(t, q);
    BehindKey(t, q, version, rest);
    var key := t[1..q.open + 1];
    hide *;
    NoneInValue(key, version, rest);
  }

  lemma NoneInValue(key: string, version: string, rest: string)
    requires 'v' !in key && Plain(version) && LastVersion(rest) == None
    ensures LastVersion(key + version + ['"'] + rest) == None
  {
    hide *;
    var tail := version + ['"'] + rest;
    assert key + version + ['"'] + rest == key + tail;
    if LastVersion(key + tail).Some? {
      LastVersionAhead(key, tail);
      PlainAhead(version, rest);
    }
  }

  lemma FirstIsLast(t: string, q: Quotes, version: string, rest: string)
    requires VersionHere(t) == Some(q) && t[0] != '}' && Plain(version) && LastVersion(rest) == None
    ensures LastVersion(Replaced(t, q, version, rest)) == Some(0)
  {
    NoLaterVersion(t, q, version, rest);
    VersionReplaced(t, q, version, rest);
    assert Replaced(t, q, version, rest)[0] == t[0];
  }

  lemma {:induction false} BlockReplaced(t: string, k: nat, q: Quotes, version: string, rest: string)
    requires LastVersion(t) == Some(k) && VersionHere(t[k..]) == Some(q)
    requires Plain(version) && LastVersion(rest) == None
    ensures LastVersion(t[..k] + Replaced(t[k..], q, version, rest)) == Some(k)
    decreases k
  {
    hide VersionHere;
    var tail := Replaced(t[k..], q, version, rest);
    if k == 0 {
      assert t[0..] == t && t[..0] + tail == tail;
      FirstIsLast(t, q, version, rest);
    } else {
      assert t[1..][k - 1..] == t[k..];
      BlockReplaced(t[1..], k - 1, q, version, rest);
      FrontOf(t, k, tail);
    }
  }

  lemma FrontOf(t: string, k: nat, tail: string)
    requires 0 < k <= |t|
    ensures (t[..k] + tail)[0] == t[0] && (t[..k] + tail)[1..] == t[1..][..k - 1] + tail
  {
  }

  /** The same match, with the new value in place of the old one. */
  lemma BlockStays(t: string, q: Quotes, version: string, rest: string)
    requires BlockHere(t) == Some(q) && Plain(version) && LastVersion(rest) == None
    ensures BlockHere(Replaced(t, q, version, rest)) == Some(NewQuotes(q, version))
  {
    hide VersionHere, LastVersion, BlockHere, Replaced, IsKey;
    var k := BlockParts(t, q);
    VersionAt(t, k, q);
    var p := Quotes(q.open - k, q.close - k);
    var tail := Replaced(t[k..], p, version, rest);
    BlockReplaced(t, k, p, version, rest);
    VersionReplaced(t[k..], p, version, rest);
    ReplacedBehind(t, k, p, version, rest);
    assert (t[..k] + tail)[k..] == tail;
    BlockIs(t[..k] + tail, k, NewQuotes(p, version));
  }

  /** A head in front of a block. */
  lemma MatchFrom(head: string, tail: string, p: Quotes)
    requires HeadLen(head) == Some(|head|) && BlockHere(tail) == Some(p)
    ensures MatchHere(head + tail) == Some(Quotes(|head| + p.open, |head| + p.close))
  {
    hide BlockHere, HeadLen;
    HeadLenKept(head, |head|, tail);
    assert head[..|head|] == head;
    assert (head + tail)[|head|..] == tail;
  }

  lemma HeadOf(t: string, q: Quotes) returns (head: string, tail: string, p: Quotes)
    requires MatchHere(t) == Some(q)
    ensures t == head + tail && HeadLen(head) == Some(|head|)
    ensures BlockHere(tail) == Some(p) && q == Quotes(|head| + p.open, |head| + p.close)
  {
    hide BlockHere, HeadLen;
    var h := HeadLen(t).value;
    head, tail := t[..h], t[h..];
    p := BlockHere(tail).value;
    HeadLenKept(t, h, []);
    assert head + [] == head;
  }

  lemma BehindFront(front: string, tail: string, i: nat, j: nat)
    requires i <= j <= |tail|
    ensures (front + tail)[|front| + i..|front| + j] == tail[i..j]
    ensures (front + tail)[|front| + j..] == tail[j..]
  {
  }

  lemma MatchStays(t: string, q: Quotes, version: string, rest: string)
    requires MatchHere(t) == Some(q) && Plain(version) && LastVersion(rest) == None
    ensures MatchHere(Replaced(t, q, version, rest)) == Some(NewQuotes(q, version))
  {
    hide BlockHere, HeadLen, MatchHere, Replaced, LastVersion;
    var head, tail, p := HeadOf(t, q);
    BlockStays(tail, p, version, rest);
    MatchFrom(head, Replaced(tail, p, version, rest), NewQuotes(p, version));
    ReplacedConcat(head, tail, p, version, rest);
  }

  /** Where nothing matched nothing matches afterwards. */
  lemma NoMatchStays(t: string, version: string)
    requires t != [] && MatchHere(t) == None && Finds(MatchHere)
    ensures MatchHere([t[0]] + ReplaceAll(MatchHere, t[1..], version)) == None
  {
    hide BlockHere, HeadLen, ReplaceAll;
    var u := [t[0]] + ReplaceAll(MatchHere, t[1..], version);
    assert u[1..] == ReplaceAll(MatchHere, t[1..], version);
    if HeadLen(u).Some? {
      var h := HeadLen(u).value;
      HeadLenMeans(u, h);
      var w := u[1..h];
      assert '"' !in w by { assert forall c :: c in w ==> c in u[..h]; }
      CutFront(MatchHere, t[1..], version, w);
      assert t == u[..h] + t[h..];
      assert t[1..][|w|..] == t[h..];
      HeadLenKept(u, h, t[h..]);
      assert u[h..] == ReplaceAll(MatchHere, t[h..], version);
      BlockKept(t[h..], version);
    }
  }

  lemma BlockKept(t: string, version: string)
    requires BlockHere(t) == None
    ensures Finds(MatchHere) && BlockHere(ReplaceAll(MatchHere, t, version)) == None
  {
    hide VersionHere, LastVersion;
    MatchFinds();
    if BlockHere(ReplaceAll(MatchHere, t, version)).Some? {
      LastVersionKept(MatchHere, t, version);
      LastVersionMeans(t);
    }
  }

  lemma {:induction false} ReplacedTwice(t: string, version: string)
    requires Plain(version) && NothingHidden(t) && Finds(MatchHere)
    ensures ReplaceAll(MatchHere, ReplaceAll(MatchHere, t, version), version) == ReplaceAll(MatchHere, t, version)
    decreases |t|
  {
    hide MatchHere;
    if t != [] {
      match MatchHere(t)
      case Some(q) =>
        var rest := ReplaceAll(MatchHere, t[q.close + 1..], version);
        var u := Replaced(t, q, version, rest);
        RestHidesNothing(t, q, version);
        MatchStays(t, q, version, rest);
        ReplacedTwice(t[q.close + 1..], version);
        var p := NewQuotes(q, version);
        assert u[..p.open + 1] == t[..q.open + 1];
        assert u[p.close + 1..] == rest;
      case None =>
        var rest := ReplaceAll(MatchHere, t[1..], version);
        NoMatchStays(t, version);
        ReplacedTwice(t[1..], version);
        assert ([t[0]] + rest)[1..] == rest;
    }
  }

  lemma RestHidesNothing(t: string, q: Quotes, version: string)
    requires MatchHere(t) == Some(q) && HidesNothing(t, q) && Finds(MatchHere)
    ensures LastVersion(ReplaceAll(MatchHere, t[q.close + 1..], version)) == None
  {
    hide MatchHere, LastVersion, ReplaceAll;
    MatchFinds();
    if '}' !in t[q.open + 1..q.close] {
      NoneBehindMatch(t, q);
    }
    if LastVersion(ReplaceAll(MatchHere, t[q.close + 1..], version)).Some? {
      LastVersionKept(MatchHere, t[q.close + 1..], version);
    }
  }

  /** The place of the last version in the block of a match, and what the match is made of. */
  lemma MatchText(t: string, q: Quotes) returns (h: nat, k: nat)
    requires MatchHere(t) == Some(q)
    ensures HeadLen(t) == Some(h) && h <= k < q.open && LastVersion(t[h..]) == Some(k - h)
    ensures '}' !in t[..q.open + 1]
  {
    hide MatchHere, LastVersion, HeadLen, BlockHere, VersionHere, IsKey;
    var head, tail, p := HeadOf(t, q);
    h := |head|;
    HeadLenKept(head, h, tail);
    assert head[..h] == head;
    HeadHasNoBrace(t, h);
    var r := BlockParts(tail, p);
    k := h + r;
    VersionAt(tail, r, p);
    KeyChars(tail[r..], Quotes(p.open - r, p.close - r));
    assert t[h..] == tail;
    NoBraceIn(t, h, k, q.open + 1);
  }

  lemma VersionAt(b: string, k: nat, p: Quotes)
    requires BlockHere(b) == Some(p) && LastVersion(b) == Some(k)
    ensures k <= p.open && VersionHere(b[k..]) == Some(Quotes(p.open - k, p.close - k))
    ensures b[k] != '}'
  {
    hide VersionHere, LastVersion;
    LastVersionMeans(b);
    VersionBegins(b[k..]);
    assert b[k..][0] == b[k];
  }

  lemma NoBraceIn(t: string, h: nat, k: nat, n: nat)
    requires h <= k < n <= |t| && '}' !in t[..h] && '}' !in t[h..][..k - h] && t[k] != '}'
    requires '}' !in t[h..][k - h..][1..n - k]
    ensures '}' !in t[..n]
  {
    forall i | 0 <= i < n ensures t[i] != '}' {
      if i < h {
        assert t[i] == t[..h][i];
      } else if i < k {
        assert t[i] == t[h..][..k - h][i - h];
      } else if i > k {
        assert t[i] == t[h..][k - h..][1..n - k][i - k - 1];
      }
    }
  }

  lemma NoneBehindMatch(t: string, q: Quotes)
    requires MatchHere(t) == Some(q) && '}' !in t[q.open + 1..q.close]
    ensures LastVersion(t[q.close + 1..]) == None
  {
    hide MatchHere, LastVersion, HeadLen;
    var h, k := MatchText(t, q);
    var w, rest := t[h..q.close + 1], t[q.close + 1..];
    assert t[h..] == w + rest;
    if LastVersion(rest).Some? {
      assert w == t[..q.open + 1][h..] + t[q.open + 1..q.close] + ['"'];
      LastVersionBehind(w, rest);
    }
  }

  // ---------------------------------------------------------------- what a pass brings into view

  lemma NoVersion(t: string)
    ensures BlockHere(t) == None <==> LastVersion(t) == None
  {
    hide VersionHere, LastVersion;
    if LastVersion(t).Some? {
      LastVersionMeans(t);
    }
  }

  /** More text in front of a block, without a closing brace. */
  lemma BlockBehind(w: string, t: string, p: Quotes)
    requires BlockHere(t) == Some(p) && '}' !in w
    ensures BlockHere(w + t) == Some(Quotes(|w| + p.open, |w| + p.close))
  {
    hide VersionHere, LastVersion;
    LastVersionBehind(w, t);
    var k := LastVersion(t).value;
    assert (w + t)[|w| + k..] == t[k..];
  }

  function BlockValue(t: string): Option<string> {
    Value(t, BlockHere(t))
  }

  lemma ValueBehind(w: string, t: string)
    requires BlockHere(t).Some? && '}' !in w
    ensures BlockValue(w + t) == BlockValue(t)
  {
    hide BlockHere;
    var p := BlockHere(t).value;
    BlockBehind(w, t, p);
    BehindFront(w, t, p.open + 1, p.close);
  }

  lemma OneReplaced(find: Finder, t: string, q: Quotes, version: string)
    requires Finds(find) && find(t) == Some(q)
    ensures ReplaceAll(find, t, version) == Replaced(t, q, version, ReplaceAll(find, t[q.close + 1..], version))
  {
  }

  lemma OneSkipped(find: Finder, t: string, version: string)
    requires Finds(find) && t != [] && find(t) == None
    ensures ReplaceAll(find, t, version) == [t[0]] + ReplaceAll(find, t[1..], version)
  {
  }

  /** The text up to the first quote stays, the quote included. */
  lemma {:induction false} FirstQuoteKept(find: Finder, w: string, y: string, version: string) returns (after: string)
    requires Finds(find) && '"' !in w
    ensures ReplaceAll(find, w + ['"'] + y, version) == w + ['"'] + after
  {
    hide ReplaceAll;
    var t := w + ['"'] + y;
    if find(t).Some? {
      var q := find(t).value;
      OneReplaced(find, t, q, version);
      after := QuoteInFront(w, y, q, version, ReplaceAll(find, t[q.close + 1..], version));
    } else if w == [] {
      OneSkipped(find, t, version);
      after := ReplaceAll(find, y, version);
      assert t[1..] == y;
    } else {
      OneSkipped(find, t, version);
      assert t[1..] == w[1..] + ['"'] + y;
      after := FirstQuoteKept(find, w[1..], y, version);
      assert w == [w[0]] + w[1..];
    }
  }

  lemma QuoteInFront(w: string, y: string, q: Quotes, version: string, rest: string) returns (after: string)
    requires '"' !in w && AreQuotes(w + ['"'] + y, q)
    ensures Replaced(w + ['"'] + y, q, version, rest) == w + ['"'] + after
  {
    var t := w + ['"'] + y;
    assert forall i :: 0 <= i < |w| ==> t[i] == w[i];
    assert q.open >= |w|;
    assert t[..q.open + 1] == w + ['"'] + t[|w| + 1..q.open + 1];
    after := t[|w| + 1..q.open + 1] + version + ['"'] + rest;
  }

  lemma KeyHasNoA(t: string, q: Quotes)
    requires VersionHere(t) == Some(q)
    ensures 'a' !in t[..q.open + 1]
  {
    VersionChars();
    var n := KeyEnd(t);
    var e := AssignLen(t[n..]).value;
    AssignLenMeans(t[n..], e);
    assert t[..7] == VERSION;
    forall i | 0 <= i <= q.open ensures t[i] != 'a' {
      if i < 7 {
        assert t[i] == VERSION[i];
      } else if n <= i < q.open {
        assert t[i] == t[n..][..e][i - n];
        assert t[i] in t[n..][..e];
      }
    }
  }

  /** A version at which no match begins keeps its value. */
  lemma VersionStays(t: string, q: Quotes, version: string)
    requires VersionHere(t) == Some(q) && Finds(MatchHere)
    ensures var u := ReplaceAll(MatchHere, t, version);
            VersionHere(u) == Some(q) && u[q.open + 1..q.close] == t[q.open + 1..q.close]
  {
    hide MatchHere, VersionHere, ReplaceAll, IsKey;
    var x := t[q.open + 1..q.close];
    KeyRead(t, q);
    KeyHasNoA(t, q);
    var front, behind := t[..q.open + 1], x + ['"'] + t[q.close + 1..];
    assert t == front + behind;
    FrontSkipped(MatchHere, front, behind, version);
    var after := FirstQuoteKept(MatchHere, x, t[q.close + 1..], version);
    VersionReplaced(t, q, x, after);
    assert ReplaceAll(MatchHere, t, version) == Replaced(t, q, x, after);
  }

  lemma VisibleAtMatch(t: string, q: Quotes, version: string, rest: string)
    requires MatchHere(t) == Some(q) && Plain(version) && '}' !in version
    ensures BlockValue(Replaced(t, q, version, rest)) == if BlockValue(rest).Some? then BlockValue(rest)
      else Some(version)
  {
    hide MatchHere, BlockHere, LastVersion, HeadLen;
    var h, k := MatchText(t, q);
    if BlockHere(rest).Some? {
      var w := t[..q.open + 1] + version + ['"'];
      assert Replaced(t, q, version, rest) == w + rest;
      ValueBehind(w, rest);
    } else {
      NoVersion(rest);
      var head, tail, p := HeadOf(t, q);
      BlockStays(tail, p, version, rest);
      ReplacedConcat(head, tail, p, version, rest);
      var u := Replaced(tail, p, version, rest);
      assert u[p.open + 1..p.open + 1 + |version|] == version;
      assert head == t[..q.open + 1][..|head|];
      ValueBehind(head, u);
    }
  }

  lemma VisibleElsewhere(t: string, version: string)
    requires t != [] && MatchHere(t) == None && t[0] != '}' && Finds(MatchHere)
    ensures var later := BlockValue(ReplaceAll(MatchHere, t[1..], version));
            BlockValue(ReplaceAll(MatchHere, t, version)) == if later.Some? then later else Value(t, VersionHere(t))
  {
    hide MatchHere, BlockHere, VersionHere;
    var u, rest := ReplaceAll(MatchHere, t, version), ReplaceAll(MatchHere, t[1..], version);
    assert u == [t[0]] + rest;
    if BlockHere(rest).Some? {
      ValueBehind([t[0]], rest);
    } else {
      NoVersion(rest);
      assert u[1..] == rest;
      LastHere(u);
      if VersionHere(t).Some? {
        VersionStays(t, VersionHere(t).value, version);
      } else if VersionHere(u).Some? {
        VersionKept(MatchHere, t, version);
      }
    }
  }

  lemma LastHere(u: string)
    requires u != [] && u[0] != '}' && LastVersion(u[1..]) == None
    ensures BlockHere(u) == VersionHere(u)
  {
    hide VersionHere;
    assert u[0..] == u;
  }

  /** What a pass brings into view, computed from the text before the pass. */
  lemma {:induction false} VisibleIs(t: string, version: string)
    requires Plain(version) && '}' !in version && Finds(MatchHere)
    ensures BlockValue(ReplaceAll(MatchHere, t, version)) == Visible(t, version)
    decreases |t|
  {
    hide MatchHere, BlockValue;
    if t == [] {
      NothingVisible();
    } else {
      match MatchHere(t)
      case Some(q) =>
        var rest := ReplaceAll(MatchHere, t[q.close + 1..], version);
        VisibleIs(t[q.close + 1..], version);
        VisibleAtMatch(t, q, version, rest);
        assert ReplaceAll(MatchHere, t, version) == Replaced(t, q, version, rest);
      case None =>
        if t[0] == '}' {
          BraceFirst(ReplaceAll(MatchHere, t, version));
        } else {
          VisibleIs(t[1..], version);
          VisibleElsewhere(t, version);
        }
    }
  }

  lemma NothingVisible()
    ensures BlockValue([]) == None
  {
  }

  lemma BraceFirst(t: string)
    requires t != [] && t[0] == '}'
    ensures BlockValue(t) == None
  {
  }

  // ---------------------------------------------------------------- the second pass

  /** A match that begins in front of a visible version has that version. */
  lemma MatchOfBlock(v: string, p: Quotes, q: Quotes)
    requires BlockHere(v) == Some(p) && MatchHere(v) == Some(q)
    ensures q == p
  {
    hide MatchHere, BlockHere, LastVersion, HeadLen;
    var h, k := MatchText(v, q);
    HeadHasNoBrace(v, h);
    assert v == v[..h] + v[h..];
    BlockBehindHead(v, h, k - h, q);
  }

  lemma BlockBehindHead(v: string, h: nat, k: nat, q: Quotes)
    requires HeadLen(v) == Some(h) && '}' !in v[..h] && MatchHere(v) == Some(q)
    ensures BlockHere(v) == Some(q)
  {
    hide HeadLen, BlockHere;
    var p := BlockHere(v[h..]).value;
    BlockBehind(v[..h], v[h..], p);
    assert v == v[..h] + v[h..];
  }

  /** A pass goes past a visible version that is the new one already. */
  lemma {:induction false} Through(v: string, p: Quotes, version: string)
    requires BlockHere(v) == Some(p) && v[p.open + 1..p.close] == version && '{' !in version && Finds(MatchHere)
    ensures ReplaceAll(MatchHere, v, version) == v[..p.close + 1] + ReplaceAll(MatchHere, v[p.close + 1..], version)
    decreases |v|
  {
    hide MatchHere, BlockHere, VersionHere, LastVersion, ReplaceAll;
    var rest := ReplaceAll(MatchHere, v[p.close + 1..], version);
    if MatchHere(v).Some? {
      MatchOfBlock(v, p, MatchHere(v).value);
      OneReplaced(MatchHere, v, p, version);
      assert v[..p.close + 1] == v[..p.open + 1] + version + ['"'];
    } else if LastVersion(v[1..]).Some? {
      LaterBlock(v, p);
      var r := Quotes(p.open - 1, p.close - 1);
      OneCharOn(v, p, r);
      Through(v[1..], r, version);
      OneSkipped(MatchHere, v, version);
      assert v[..p.close + 1] == [v[0]] + v[1..][..r.close + 1];
    } else {
      FirstBlockHere(v, p);
      KeyHasNoA(v, p);
      var w, tail := v[..p.open + 1], version + ['"'] + v[p.close + 1..];
      assert v == w + tail;
      FrontSkipped(MatchHere, w, tail, version);
      NoQuoteInValue(v, p);
      ValueSkipped(version, v[p.close + 1..], version);
      assert w + (version + ['"'] + rest) == v[..p.close + 1] + rest;
    }
  }

  /** No match begins in a value without quotes and without an opening brace. */
  lemma {:induction false} ValueSkipped(value: string, t: string, version: string)
    requires '"' !in value && '{' !in value && Finds(MatchHere)
    ensures ReplaceAll(MatchHere, value + ['"'] + t, version) == value + ['"'] + ReplaceAll(MatchHere, t, version)
  {
    hide MatchHere, ReplaceAll;
    var u := value + ['"'] + t;
    NoMatchInValue(value, t);
    OneSkipped(MatchHere, u, version);
    if value == [] {
      assert u[1..] == t;
    } else {
      assert u[1..] == value[1..] + ['"'] + t;
      ValueSkipped(value[1..], t, version);
      assert value == [value[0]] + value[1..];
    }
  }

  lemma NoMatchInValue(value: string, t: string)
    requires '"' !in value && '{' !in value
    ensures MatchHere(value + ['"'] + t) == None
  {
    hide HeadLen, BlockHere;
    if HeadLen(value + ['"'] + t).Some? {
      HeadInside(value, t, HeadLen(value + ['"'] + t).value);
    }
  }

  lemma HeadInside(value: string, t: string, h: nat)
    requires '"' !in value && HeadLen(value + ['"'] + t) == Some(h)
    ensures '{' in value
  {
    hide HeadLen;
    var u := value + ['"'] + t;
    HeadLenMeans(u, h);
    assert forall i :: 0 <= i < h ==> u[i] == u[..h][i];
    assert u[|value|] == '"';
    assert h <= |value|;
    assert value[h - 1] == u[h - 1];
  }

  lemma OneCharOn(v: string, p: Quotes, r: Quotes)
    requires AreQuotes(v, p) && p.open > 0 && r == Quotes(p.open - 1, p.close - 1)
    ensures v[1..][r.open + 1..r.close] == v[p.open + 1..p.close] && v[1..][r.close + 1..] == v[p.close + 1..]
  {
  }

  lemma LaterBlock(v: string, p: Quotes)
    requires BlockHere(v) == Some(p) && LastVersion(v[1..]).Some?
    ensures p.open > 0 && BlockHere(v[1..]) == Some(Quotes(p.open - 1, p.close - 1))
  {
    hide VersionHere;
    var k := LastVersion(v[1..]).value;
    assert v[1..][k..] == v[k + 1..];
    LastVersionMeans(v[1..]);
  }

  lemma FirstBlockHere(v: string, p: Quotes)
    requires BlockHere(v) == Some(p) && LastVersion(v[1..]) == None
    ensures VersionHere(v) == Some(p)
  {
    hide VersionHere;
    assert v[0..] == v;
  }

  lemma SameTail(front: string, a: string, b: string)
    ensures front + a == front + b <==> a == b
  {
    if front + a == front + b {
      assert (front + a)[|front|..] == a && (front + b)[|front|..] == b;
    }
  }

  lemma SameQuoted(a: string, x: string, b: string, y: string)
    requires '"' !in a && '"' !in b && a + ['"'] + x == b + ['"'] + y
    ensures a == b
  {
    var s := a + ['"'] + x;
    assert s == b + ['"'] + y;
    assert s[|a|] == '"' && s[|b|] == '"';
    assert forall i :: 0 <= i < |a| ==> s[i] == a[i];
    assert forall i :: 0 <= i < |b| ==> s[i] == b[i];
    assert |a| == |b|;
    assert a == s[..|a|] == b;
  }

  /** The text of a replaced match up to its closing quote. */
  function Front(t: string, q: Quotes, version: string): string
    requires AreQuotes(t, q)
  {
    t[..q.open + 1] + version + ['"']
  }

  /** A match of the second pass, where the first has brought a later version into view. */
  lemma MatchMoves(t: string, q: Quotes, version: string, rest: string, p: Quotes)
    requires MatchHere(t) == Some(q) && '}' !in version && BlockHere(rest) == Some(p)
    ensures var m := |Front(t, q, version)|;
            MatchHere(Front(t, q, version) + rest) == Some(Quotes(m + p.open, m + p.close))
  {
    hide MatchHere, BlockHere, LastVersion, HeadLen;
    var h, k := MatchText(t, q);
    var head, tail, r := HeadOf(t, q);
    var w := tail[..r.open + 1] + version + ['"'];
    assert tail[..r.open + 1] == t[..q.open + 1][|head|..];
    BlockBehind(w, rest, p);
    MatchFrom(head, w + rest, Quotes(|w| + p.open, |w| + p.close));
    assert Front(t, q, version) == head + w;
    assert head + (w + rest) == head + w + rest;
  }

  /** Whether the second pass leaves the text behind a match alone. */
  lemma SecondPassBehind(v: string, p: Quotes, version: string)
    requires BlockHere(v) == Some(p) && '"' !in version && '{' !in version && Finds(MatchHere)
    ensures v == Replaced(v, p, version, ReplaceAll(MatchHere, v[p.close + 1..], version))
       <==> v[p.open + 1..p.close] == version && ReplaceAll(MatchHere, v, version) == v
  {
    hide MatchHere, BlockHere, ReplaceAll;
    var y, rest, again := v[p.open + 1..p.close], v[p.close + 1..], ReplaceAll(MatchHere, v[p.close + 1..], version);
    assert v == v[..p.open + 1] + (y + ['"'] + rest);
    assert v[..p.open + 1] + version + ['"'] + again == v[..p.open + 1] + (version + ['"'] + again);
    SameTail(v[..p.open + 1], y + ['"'] + rest, version + ['"'] + again);
    NoQuoteInValue(v, p);
    if y == version {
      Through(v, p, version);
      assert v == v[..p.close + 1] + rest;
      SameTail(v[..p.close + 1], rest, again);
      SameTail(y + ['"'], rest, again);
    } else if y + ['"'] + rest == version + ['"'] + again {
      SameQuoted(y, rest, version, again);
    }
  }

  lemma NoQuoteInValue(v: string, p: Quotes)
    requires BlockHere(v) == Some(p)
    ensures '"' !in v[p.open + 1..p.close]
  {
    hide BlockHere;
    var k := BlockParts(v, p);
  }

  /** Rewriting once more changes nothing exactly where everything is calm. */
  lemma {:induction false} TwiceExactly(t: string, version: string)
    requires Plain(version) && '}' !in version && '{' !in version && Finds(MatchHere)
    ensures var u := ReplaceAll(MatchHere, t, version);
            ReplaceAll(MatchHere, u, version) == u <==> Calm(t, version)
    decreases |t|
  {
    hide MatchHere, BlockHere, Visible;
    if t != [] {
      match MatchHere(t)
      case Some(q) =>
        TwiceExactly(t[q.close + 1..], version);
        TwiceAtMatch(t, q, version);
      case None =>
        var rest := ReplaceAll(MatchHere, t[1..], version);
        var u := [t[0]] + rest;
        NoMatchStays(t, version);
        TwiceExactly(t[1..], version);
        assert u[1..] == rest;
        SameTail([t[0]], rest, ReplaceAll(MatchHere, rest, version));
    }
  }

  lemma TwiceAtMatch(t: string, q: Quotes, version: string)
    requires MatchHere(t) == Some(q) && Finds(MatchHere)
    requires Plain(version) && '}' !in version && '{' !in version
    ensures var u, rest := ReplaceAll(MatchHere, t, version), ReplaceAll(MatchHere, t[q.close + 1..], version);
            ReplaceAll(MatchHere, u, version) == u <==>
              (Visible(t[q.close + 1..], version) in {None, Some(version)})
                && ReplaceAll(MatchHere, rest, version) == rest
  {
    hide MatchHere, BlockHere, Visible, ReplaceAll, Replaced, LastVersion, Front;
    var rest := ReplaceAll(MatchHere, t[q.close + 1..], version);
    VisibleIs(t[q.close + 1..], version);
    OneReplaced(MatchHere, t, q, version);
    match BlockHere(rest)
    case None =>
      NoVersion(rest);
      MatchStays(t, q, version, rest);
      TwiceAtSameMatch(t, q, version, rest);
    case Some(p) =>
      MatchMoves(t, q, version, rest, p);
      ReplacedText(t, q, version, rest);
      TwiceAround(Front(t, q, version), rest, p, version);
      SecondPassBehind(rest, p, version);
  }

  lemma TwiceAtSameMatch(t: string, q: Quotes, version: string, rest: string)
    requires AreQuotes(t, q) && Finds(MatchHere)
    requires MatchHere(Replaced(t, q, version, rest)) == Some(NewQuotes(q, version))
    ensures var u := Replaced(t, q, version, rest);
            ReplaceAll(MatchHere, u, version) == u <==> ReplaceAll(MatchHere, rest, version) == rest
  {
    hide MatchHere, ReplaceAll;
    var u, p := Replaced(t, q, version, rest), NewQuotes(q, version);
    OneReplaced(MatchHere, u, p, version);
    assert u[..p.open + 1] == t[..q.open + 1] && u[p.close + 1..] == rest;
    SameTail(t[..q.open + 1] + version + ['"'], rest, ReplaceAll(MatchHere, rest, version));
  }

  lemma TwiceAround(front: string, rest: string, p: Quotes, version: string)
    requires AreQuotes(rest, p) && Finds(MatchHere)
    requires MatchHere(front + rest) == Some(Quotes(|front| + p.open, |front| + p.close))
    ensures ReplaceAll(MatchHere, front + rest, version) == front + rest <==>
              rest == Replaced(rest, p, version, ReplaceAll(MatchHere, rest[p.close + 1..], version))
  {
    hide MatchHere, ReplaceAll, Replaced;
    NextReplaced(front, rest, p, version);
    SameTail(front, rest, Replaced(rest, p, version, ReplaceAll(MatchHere, rest[p.close + 1..], version)));
  }

  lemma ReplacedText(t: string, q: Quotes, version: string, rest: string)
    requires AreQuotes(t, q)
    ensures Replaced(t, q, version, rest) == Front(t, q, version) + rest
  {
  }

  lemma NextReplaced(front: string, rest: string, p: Quotes, version: string)
    requires AreQuotes(rest, p) && Finds(MatchHere)
    requires MatchHere(front + rest) == Some(Quotes(|front| + p.open, |front| + p.close))
    ensures ReplaceAll(MatchHere, front + rest, version)
         == front + Replaced(rest, p, version, ReplaceAll(MatchHere, rest[p.close + 1..], version))
  {
    hide MatchHere, ReplaceAll, Replaced;
    OneReplaced(MatchHere, front + rest, Quotes(|front| + p.open, |front| + p.close), version);
    BehindFront(front, rest, p.close + 1, p.close + 1);
    ReplacedConcat(front, rest, p, version, ReplaceAll(MatchHere, rest[p.close + 1..], version));
  }

  // ---------------------------------------------------------------- the laws of the rewrite

  /** Exactly when rewriting twice is rewriting once, for every plain version without braces: no
      replacement may bring a version into view, behind the value it replaces, that is not the new
      one already. */
  lemma IdempotentExactly(t: string, version: string)
    requires Plain(version) && '}' !in version && '{' !in version
    ensures Rewrite(Rewrite(t, version), version) == Rewrite(t, version) <==> Calm(t, version)
  {
    hide ReplaceAll, Calm;
    MatchFinds();
    TwiceExactly(t, version);
  }

  /** In particular, and for every plain version, where no replaced value hides a later version of its
      block behind a closing brace, as a value without a brace never does. */
  lemma Idempotent(t: string, version: string)
    requires Plain(version) && NothingHidden(t)
    ensures Rewrite(Rewrite(t, version), version) == Rewrite(t, version)
  {
    MatchFinds();
    ReplacedTwice(t, version);
  }

  /** A file without a match is left as it is. */
  lemma {:induction false} NoMatchNoChange(t: string, version: string)
    requires !MatchesAnywhere(t)
    ensures Rewrite(t, version) == t
  {
    hide MatchHere;
    MatchFinds();
    if t != [] {
      NoMatchNoChange(t[1..], version);
      assert t == [t[0]] + t[1..];
    }
  }

  // ---------------------------------------------------------------- a value with a brace

  /** The text of a version assignment. */
  function Assigned(value: string): string {
    VERSION + (['='] + (['"'] + (value + ['"'])))
  }

  const HEAD := "aws={"

  lemma HeadIsHead()
    ensures HeadLen(HEAD) == Some(5)
  {
    assert HEAD[3..] == "={";
    assert AssignLen("={") == Some(1);
    assert HEAD[..3] == AWS;
  }

  lemma JustAssign()
    ensures IsAssign(['='])
  {
    assert ['='][0] == '=' && ['='][..0] == [] && ['='][1..] == [];
  }

  lemma QuotedAssign(value: string, rest: string)
    requires '"' !in value
    ensures QuotedHere(['='] + (['"'] + (value + (['"'] + rest)))) == Some(Quotes(1, 2 + |value|))
  {
    hide QuotedHere, IsAssign;
    var t := ['='] + (['"'] + (value + (['"'] + rest)));
    assert t[..1] == ['='] && t[1] == '"' && t[2 + |value|] == '"';
    assert t[2..2 + |value|] == value;
    JustAssign();
    QuotedFound(t, Quotes(1, 2 + |value|));
  }

  lemma AssignedHere(value: string, rest: string)
    requires '"' !in value
    ensures VersionHere(Assigned(value) + rest) == Some(Quotes(8, 9 + |value|))
  {
    hide QuotedHere, VersionHere;
    var tail := ['='] + (['"'] + (value + (['"'] + rest)));
    QuotedAssign(value, rest);
    VersionChars();
    VersionFrom(VERSION, tail, Quotes(1, 2 + |value|));
    assert Assigned(value) + rest == VERSION + tail;
  }

  /** Putting another value into an assignment. */
  lemma ReplacedAssigned(value: string, version: string, rest: string, tail: string)
    requires AreQuotes(Assigned(value) + tail, Quotes(8, 9 + |value|))
    ensures Replaced(Assigned(value) + tail, Quotes(8, 9 + |value|), version, rest) == Assigned(version) + rest
  {
    VersionChars();
    var key := VERSION + ['='] + ['"'];
    assert (Assigned(value) + tail)[..9] == key;
    assert key + version + ['"'] + rest == Assigned(version) + rest;
  }

  /** Without a brace in its value a single assignment is the last one there is; with one at the
      front of its value it hides everything behind it. */
  lemma AssignedLast(value: string, rest: string)
    requires Plain(value) && (rest == [] || (value != [] && value[0] == '}'))
    ensures LastVersion(Assigned(value) + rest) == Some(0)
  {
    hide VersionHere;
    VersionChars();
    AssignedHere(value, rest);
    var t := Assigned(value) + rest;
    var w := VERSION[1..] + ['='] + ['"'];
    var u := value + ['"'] + rest;
    assert t[1..] == w + u;
    if LastVersion(t[1..]).Some? {
      LastVersionAhead(w, u);
      if rest == [] {
        PlainAhead(value, []);
      }
    }
  }

  lemma NoMatchInside(t: string, version: string)
    requires 'a' !in t
    ensures Rewrite(t, version) == t
  {
    MatchFinds();
    FrontSkipped(MatchHere, t, [], version);
    assert t + [] == t;
  }

  lemma FirstBlock(value: string)
    requires Plain(value)
    ensures BlockHere(Assigned("}") + Assigned(value)) == Some(Quotes(8, 10))
  {
    hide VersionHere;
    var b := Assigned("}") + Assigned(value);
    AssignedHere("}", Assigned(value));
    AssignedLast("}", Assigned(value));
    assert b[0..] == b;
  }

  /** One pass over a text that begins with a match. */
  lemma OnePass(t: string, q: Quotes, version: string)
    requires MatchHere(t) == Some(q) && t != []
    ensures Rewrite(t, version) == Replaced(t, q, version, Rewrite(t[q.close + 1..], version))
  {
    hide MatchHere;
  }

  lemma AssignedRest(value: string, tail: string)
    ensures AreQuotes(Assigned(value) + tail, Quotes(8, 9 + |value|))
    ensures (Assigned(value) + tail)[10 + |value|..] == tail
  {
    VersionChars();
  }

  lemma FirstPass(value: string, version: string)
    requires Plain(value) && Plain(version) && 'a' !in value
    ensures Rewrite(HEAD + (Assigned("}") + Assigned(value)), version) == HEAD + (Assigned(version) + Assigned(value))
  {
    hide BlockHere, HeadLen, Rewrite, MatchHere, Assigned, Replaced;
    var rest := Assigned(value);
    var b := Assigned("}") + rest;
    HeadIsHead();
    FirstBlock(value);
    MatchFrom(HEAD, b, Quotes(8, 10));
    OnePass(HEAD + b, Quotes(13, 15), version);
    NoMatchInAssigned(value, version);
    AssignedRest("}", rest);
    BehindFront(HEAD, b, 11, 11);
    ReplacedConcat(HEAD, b, Quotes(8, 10), version, rest);
    ReplacedAssigned("}", version, rest, rest);
  }

  lemma NoMatchInAssigned(value: string, version: string)
    requires 'a' !in value
    ensures Rewrite(Assigned(value), version) == Assigned(value)
  {
    VersionChars();
    NoMatchInside(Assigned(value), version);
  }

  lemma SecondBlock(value: string, version: string)
    requires Plain(value) && '"' !in version && '}' !in version
    ensures var n := |Assigned(version)|;
            BlockHere(Assigned(version) + Assigned(value)) == Some(Quotes(n + 8, n + 9 + |value|))
  {
    hide VersionHere;
    var b := Assigned(version) + Assigned(value);
    VersionChars();
    AssignedLast(value, []);
    AssignedHere(value, []);
    assert Assigned(value) + [] == Assigned(value);
    assert VersionHere(Assigned(value)) == Some(Quotes(8, 9 + |value|));
    LastVersionBehind(Assigned(version), Assigned(value));
    assert b[|Assigned(version)|..] == Assigned(value);
  }

  lemma SecondPass(value: string, version: string)
    requires Plain(value) && Plain(version) && '}' !in value && '}' !in version
    ensures Rewrite(HEAD + (Assigned(version) + Assigned(value)), version) ==
      HEAD + (Assigned(version) + Assigned(version))
  {
    hide BlockHere, HeadLen, Rewrite, MatchHere, Assigned, Replaced;
    var front, last := Assigned(version), Assigned(value);
    var q := Quotes(|front| + 8, |front| + 9 + |value|);
    HeadIsHead();
    SecondBlock(value, version);
    MatchFrom(HEAD, front + last, q);
    OnePass(HEAD + (front + last), Quotes(5 + q.open, 5 + q.close), version);
    NoMatchInside([], version);
    AssignedRest(value, []);
    assert last + [] == last;
    BehindFront(front, last, 10 + |value|, 10 + |value|);
    BehindFront(HEAD, front + last, q.close + 1, q.close + 1);
    ReplacedConcat(front, last, Quotes(8, 9 + |value|), version, []);
    ReplacedConcat(HEAD, front + last, q, version, []);
    ReplacedAssigned(value, version, [], []);
    assert front + [] == front;
  }

  /** With a closing brace in a replaced value the rewrite is not idempotent: it first replaces
      that value, which brings a later version of the same block into view, and then that one. */
  lemma BraceBreaksIdempotence(value: string, version: string)
    requires Plain(value) && Plain(version) && 'a' !in value && '}' !in value && '}' !in version && value != version
    ensures exists t :: Rewrite(Rewrite(t, version), version) != Rewrite(t, version)
  {
    hide Rewrite;
    var t := HEAD + (Assigned("}") + Assigned(value));
    FirstPass(value, version);
    SecondPass(value, version);
    DifferentEnds(HEAD + Assigned(version) + (VERSION + ['='] + ['"']), value, version);
    assert HEAD + (Assigned(version) + Assigned(value)) ==
      HEAD + Assigned(version) + (VERSION + ['='] + ['"']) + value + ['"'];
    assert HEAD + (Assigned(version) + Assigned(version)) ==
      HEAD + Assigned(version) + (VERSION + ['='] + ['"']) + version + ['"'];
  }

  lemma DifferentEnds(front: string, a: string, b: string)
    requires a != b
    ensures front + a + ['"'] != front + b + ['"']
  {
    assert (front + a + ['"'])[|front|..|front| + |a|] == a;
    assert (front + b + ['"'])[|front|..|front| + |b|] == b;
  }

  // ---------------------------------------------------------------- dollar signs in a version

  /** Letters, digits and the underscore; of the letters and digits only those of ASCII. */
  predicate IsNameChar(c: char) {
    'a' <= c <= 'z' || 'A' <= c <= 'Z' || '0' <= c <= '9' || c == '_'
  }

  function NameLen(s: string): (n: nat)
    ensures n <= |s|
  {
    if s != [] && IsNameChar(s[0]) then 1 + NameLen(s[1..]) else 0
  }

  /** A reference to a group, behind its dollar sign: its name, and how long it is with its braces. */
  datatype Reference = Reference(name: string, length: nat)

  function ReferenceHere(s: string): (r: Option<Reference>)
    ensures r.Some? ==> 0 < r.value.length <= |s|
  {
    var braced := s != [] && s[0] == '{';
    var body := if braced then s[1..] else s;
    var n := NameLen(body);
    if n == 0 then None
    else if !braced then Some(Reference(body[..n], n))
    else if n < |body| && body[n] == '}' then Some(Reference(body[..n], n + 2))
    else None
  }

  /** The expression has one group; every other name stands for nothing. */
  function GroupText(name: string, whole: string, group: string): string {
    if name == "0" then whole else if name == "1" then group else []
  }

  /** Go's Regexp.Expand: references are replaced, two dollar signs are one, and a dollar sign in
      front of anything else is itself. */
  function Expand(template: string, whole: string, group: string): string
    decreases |template|
  {
    if template == [] then []
    else if template[0] != '$' then [template[0]] + Expand(template[1..], whole, group)
    else if |template| > 1 && template[1] == '$' then ['$'] + Expand(template[2..], whole, group)
    else match ReferenceHere(template[1..])
      case Some(r) => GroupText(r.name, whole, group) + Expand(template[1 + r.length..], whole, group)
      case None => ['$'] + Expand(template[1..], whole, group)
  }

  /** The replacement text of the code for a version. */
  function Template(version: string): string {
    "${1}" + (['"'] + version + ['"'])
  }

  /** Go's ReplaceAllString with that template. */
  function Substituted(t: string, version: string): string
    decreases |t|
  {
    if t == [] then []
    else match MatchHere(t)
      case Some(q) => Expand(Template(version), t[..q.close + 1], t[..q.open]) + Substituted(t[q.close + 1..], version)
      case None => [t[0]] + Substituted(t[1..], version)
  }

  /** What each piece of a template stands for: text without a dollar sign for itself, two dollar signs
      for one, a group in braces for its text, and a dollar sign in front of anything else for itself. */
  lemma ExpandPieces(s: string, name: string, whole: string, group: string)
    requires name != [] && forall i :: 0 <= i < |name| ==> IsNameChar(name[i])
    ensures Expand("$$" + s, whole, group) == "$" + Expand(s, whole, group)
    ensures Expand("${" + name + "}" + s, whole, group) ==
      (if name == "0" then whole else if name == "1" then group else []) + Expand(s, whole, group)
    ensures s == [] || (s[0] != '$' && s[0] != '{' && !IsNameChar(s[0])) ==>
      Expand("$" + s, whole, group) == "$" + Expand(s, whole, group)
  {
    var t := "${" + name + "}" + s;
    assert ("$$" + s)[2..] == s;
    assert ("$" + s)[1..] == s;
    var body := name + ("}" + s);
    assert t[1..][1..] == body;
    NameIs(name, "}" + s);
    assert body[..|name|] == name && body[|name|] == '}';
    assert ReferenceHere(t[1..]) == Some(Reference(name, |name| + 2));
    assert t[1 + |name| + 2..] == s;
  }

  lemma {:induction false} NameIs(name: string, rest: string)
    requires forall i :: 0 <= i < |name| ==> IsNameChar(name[i])
    requires rest == [] || !IsNameChar(rest[0])
    ensures NameLen(name + rest) == |name|
  {
    if name != [] {
      NameIs(name[1..], rest);
      assert (name + rest)[1..] == name[1..] + rest;
    } else {
      assert name + rest == rest;
    }
  }

  lemma {:induction false} NothingToExpand(s: string, whole: string, group: string)
    requires '$' !in s
    ensures Expand(s, whole, group) == s
  {
    if s != [] {
      NothingToExpand(s[1..], whole, group);
      assert s == [s[0]] + s[1..];
    }
  }

  lemma FirstGroup(s: string, whole: string, group: string)
    ensures Expand("${1}" + s, whole, group) == group + Expand(s, whole, group)
  {
    var t := "${1}" + s;
    var body := t[1..][1..];
    assert body == "1}" + s && body[1..] == "}" + s;
    assert NameLen("}" + s) == 0;
    assert NameLen(body) == 1;
    assert body[..1] == "1";
    assert ReferenceHere(t[1..]) == Some(Reference("1", 3));
    assert t[4..] == s;
  }

  lemma TemplateText(version: string, whole: string, group: string)
    requires '$' !in version
    ensures Expand(Template(version), whole, group) == group + (['"'] + version + ['"'])
  {
    FirstGroup(['"'] + version + ['"'], whole, group);
    NothingToExpand(['"'] + version + ['"'], whole, group);
  }

  lemma OneSubstituted(t: string, q: Quotes, version: string)
    requires MatchHere(t) == Some(q) && '$' !in version
    ensures Substituted(t, version) == Replaced(t, q, version, Substituted(t[q.close + 1..], version))
  {
    hide MatchHere, Expand, Template;
    TemplateText(version, t[..q.close + 1], t[..q.open]);
    SameReplacement(t, q, version, Substituted(t[q.close + 1..], version));
  }

  lemma OneCharOfRewrite(t: string, version: string)
    requires t != [] && MatchHere(t) == None
    ensures Rewrite(t, version) == [t[0]] + Rewrite(t[1..], version)
  {
    hide MatchHere;
  }

  lemma SameReplacement(t: string, q: Quotes, version: string, rest: string)
    requires AreQuotes(t, q)
    ensures t[..q.open] + (['"'] + version + ['"']) + rest == t[..q.open + 1] + version + ['"'] + rest
  {
    assert t[..q.open + 1] == t[..q.open] + ['"'];
  }

  lemma NothingRewritten(version: string)
    ensures Rewrite([], version) == []
  {
    MatchFinds();
  }

  /** Without a dollar sign in the version the template stands for the version itself, and the
      operation is the rewrite that the laws above are about. */
  lemma {:induction false} NoDollarNoExpansion(t: string, version: string)
    requires '$' !in version
    ensures Substituted(t, version) == Rewrite(t, version)
    decreases |t|
  {
    hide MatchHere, Expand, Rewrite, Replaced;
    if t == [] {
      NothingRewritten(version);
    } else {
      match MatchHere(t)
      case Some(q) =>
        NoDollarNoExpansion(t[q.close + 1..], version);
        OneSubstituted(t, q, version);
        OnePass(t, q, version);
      case None =>
        NoDollarNoExpansion(t[1..], version);
        OneCharOfRewrite(t, version);
    }
  }

  // ---------------------------------------------------------------- the operation

  datatype RewriteError = ReadFailed | PatternNotFound | WriteFailed

  predicate IsQuote(c: char) {
    c == '"' || c == '\''
  }

  /** Go's strings.Trim with both kinds of quotes. */
  function TrimQuotes(s: string): string {
    if s == [] then s
    else if IsQuote(s[0]) then TrimQuotes(s[1..])
    else if IsQuote(s[|s| - 1]) then TrimQuotes(s[..|s| - 1])
    else s
  }

  predicate AllQuotes(s: string) {
    forall i :: 0 <= i < |s| ==> s[i] == '"' || s[i] == '\''
  }

  /** However a version is quoted, the quotes around it are dropped and no others. */
  lemma {:induction false} QuotesDropped(a: string, version: string, b: string)
    requires AllQuotes(a) && AllQuotes(b)
    requires version != [] && version[0] !in {'"', '\''} && version[|version| - 1] !in {'"', '\''}
    ensures TrimQuotes(a + version + b) == version
    decreases |a| + |b|
  {
    var s := a + version + b;
    if a != [] {
      assert s[1..] == a[1..] + version + b;
      QuotesDropped(a[1..], version, b);
    } else if b != [] {
      assert s[..|s| - 1] == a + version + b[..|b| - 1];
      QuotesDropped(a, version, b[..|b| - 1]);
    } else {
      assert s == version;
    }
  }

  method Matches(t: string) returns (found: bool)
    ensures found == MatchesAnywhere(t)
  {
    var i := 0;
    assert t[0..] == t;
    while i < |t|
      invariant 0 <= i <= |t|
      invariant MatchesAnywhere(t) == MatchesAnywhere(t[i..])
    {
      if MatchHere(t[i..]).Some? {
        return true;
      }
      assert t[i..][1..] == t[i + 1..];
      i := i + 1;
    }
    return false;
  }

  /** kubernetes.tf; None when the file cannot be read. */
  class KubernetesFile {
    var content: Option<string>

    /** A write that fails may leave only the beginning of the rewritten file. */
    method ModifyTerraformProviderVersion(awsProviderVersion: string, wrote: Written)
      returns (error: Option<RewriteError>)
      modifies this
      ensures old(content).None? ==> error == Some(ReadFailed) && content == None
      ensures old(content).Some? && !MatchesAnywhere(old(content).value) ==>
        error == Some(PatternNotFound) && content == old(content)
      ensures old(content).Some? && MatchesAnywhere(old(content).value) ==>
        && (error == if wrote.Complete? then None else Some(WriteFailed))
        && var text := WrittenText(Substituted(old(content).value, TrimQuotes(awsProviderVersion)), wrote);
           content == if text.Some? then text else old(content)
    {
      var cleanVersion := TrimQuotes(awsProviderVersion);
      if content.None? {
        return Some(ReadFailed);
      }
      var found := Matches(content.value);
      if !found {
        return Some(PatternNotFound);
      }
      var newContent := Substituted(content.value, cleanVersion);
      var text := WrittenText(newContent, wrote);
      if text.Some? {
        content := text;
      }
      return if wrote.Complete? then None else Some(WriteFailed);
    }
  }
}
