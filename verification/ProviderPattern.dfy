/** The regular expression with which ModifyTerraformProviderVersion of
    pkg/utils/terraform_utils.go finds the version of the AWS provider,

      (aws\s*=\s*\{[^}]*"?version"?\s*=\s*)"[^"]*"

    as a function that finds its match at the start of a text, repetitions being greedy. */
module ProviderPattern {
  import opened Common
  import opened Text

  const AWS := "aws"
  const VERSION := "version"

  predicate IsRegexSpace(c: char) {
    c == '\t' || c == '\n' || c == '\U{000C}' || c == '\r' || c == ' '
  }

  // ---------------------------------------------------------------- matching from the left

  function SpacesLen(t: string): (n: nat)
    ensures n <= |t|
  {
    if t != [] && IsRegexSpace(t[0]) then 1 + SpacesLen(t[1..]) else 0
  }

  /** The length of an equals sign with its white space. */
  function AssignLen(t: string): (r: Option<nat>)
    ensures r.Some? ==> r.value <= |t|
  {
    var a := SpacesLen(t);
    if a < |t| && t[a] == '=' then Some(a + 1 + SpacesLen(t[a + 1..])) else None
  }

  /** The length of the beginning of the aws block, up to its brace. */
  function HeadLen(t: string): (r: Option<nat>)
    ensures r.Some? ==> r.value <= |t|
  {
    if !(AWS <= t) then None
    else match AssignLen(t[3..])
      case Some(e) => if 3 + e < |t| && t[3 + e] == '{' then Some(4 + e) else None
      case None => None
  }

  /** The two quotes around a version. */
  datatype Quotes = Quotes(open: nat, close: nat)

  predicate AreQuotes(t: string, q: Quotes) {
    q.open < q.close < |t| && t[q.open] == '"' && t[q.close] == '"'
  }

  /** An assignment of a quoted value, at the start of the text. */
  function QuotedHere(t: string): (r: Option<Quotes>)
    ensures r.Some? ==> AreQuotes(t, r.value)
  {
    match AssignLen(t)
    case None => None
    case Some(e) =>
      if e < |t| && t[e] == '"' then
        match IndexOf(t[e + 1..], '"')
        case Some(i) => Some(Quotes(e, e + 1 + i))
        case None => None
      else None
  }

  /** What is found in the text behind the first `n` characters. */
  function Behind(t: string, n: nat, q: Option<Quotes>): (r: Option<Quotes>)
    requires n <= |t| && (q.Some? ==> AreQuotes(t[n..], q.value))
    ensures r.Some? ==> AreQuotes(t, r.value)
  {
    match q
    case Some(x) => Some(Quotes(n + x.open, n + x.close))
    case None => None
  }

  /** The end of the key `version`, with or without a quote behind it. */
  function KeyEnd(t: string): (n: nat)
    ensures |t| >= 7 ==> n <= |t|
  {
    if 7 < |t| && t[7] == '"' then 8 else 7
  }

  /** The key `version` with its assignment and its quoted value, at the start of the text. */
  function VersionHere(t: string): (r: Option<Quotes>)
    ensures r.Some? ==> AreQuotes(t, r.value)
  {
    if VERSION <= t then Behind(t, KeyEnd(t), QuotedHere(t[KeyEnd(t)..])) else None
  }

  /** The last place before the first closing brace where a version is assigned: greedy repetition
      takes as much of the block as it can. */
  function LastVersion(t: string): (r: Option<nat>)
    ensures r.Some? ==> r.value < |t|
  {
    if t == [] || t[0] == '}' then None
    else match LastVersion(t[1..])
      case Some(k) => Some(k + 1)
      case None => if VersionHere(t).Some? then Some(0) else None
  }

  /** The rest of a block, behind its opening brace. */
  function BlockHere(t: string): (r: Option<Quotes>)
    ensures r.Some? ==> AreQuotes(t, r.value)
  {
    match LastVersion(t)
    case None => None
    case Some(k) => Behind(t, k, VersionHere(t[k..]))
  }

  function MatchHere(t: string): (r: Option<Quotes>)
    ensures r.Some? ==> AreQuotes(t, r.value)
  {
    match HeadLen(t)
    case None => None
    case Some(h) => Behind(t, h, BlockHere(t[h..]))
  }

  // ---------------------------------------------------------------- prefixes

  lemma SpacesLenIs(t: string, n: nat)
    requires n <= |t| && (forall i :: 0 <= i < n ==> IsRegexSpace(t[i])) && (n < |t| ==> !IsRegexSpace(t[n]))
    ensures SpacesLen(t) == n
  {
    if n > 0 {
      SpacesLenIs(t[1..], n - 1);
    }
  }

  lemma SpacesLenMeans(t: string)
    ensures forall i :: 0 <= i < SpacesLen(t) ==> IsRegexSpace(t[i])
    ensures SpacesLen(t) < |t| ==> !IsRegexSpace(t[SpacesLen(t)])
  {
    if t != [] && IsRegexSpace(t[0]) {
      SpacesLenMeans(t[1..]);
      forall i | 0 <= i < SpacesLen(t) ensures IsRegexSpace(t[i]) {
        if i > 0 { assert t[1..][i - 1] == t[i]; }
      }
      if SpacesLen(t) < |t| { assert t[1..][SpacesLen(t) - 1] == t[SpacesLen(t)]; }
    }
  }

  predicate Assigns(c: char) {
    IsRegexSpace(c) || c == '='
  }

  lemma AssignLenMeans(t: string, e: nat)
    requires AssignLen(t) == Some(e)
    ensures e > 0 && forall c :: c in t[..e] ==> Assigns(c)
    ensures e < |t| ==> !IsRegexSpace(t[e])
  {
    var a := SpacesLen(t);
    SpacesLenMeans(t);
    SpacesLenMeans(t[a + 1..]);
    forall i | 0 <= i < e ensures Assigns(t[..e][i]) {
      if i > a { assert t[a + 1..][i - a - 1] == t[i]; }
    }
    if e < |t| { assert t[a + 1..][e - a - 1] == t[e]; }
  }

  /** An assignment is found again in front of anything that does not begin with white space. */
  lemma AssignLenKept(t: string, e: nat, rest: string)
    requires AssignLen(t) == Some(e) && (rest != [] ==> !IsRegexSpace(rest[0]))
    ensures AssignLen(t[..e] + rest) == Some(e)
  {
    var a, u := SpacesLen(t), t[..e] + rest;
    SpacesLenMeans(t);
    SpacesLenMeans(t[a + 1..]);
    SpacesLenIs(u, a);
    var after := u[a + 1..];
    forall i | 0 <= i < e - a - 1 ensures IsRegexSpace(after[i]) {
      assert after[i] == t[a + 1..][i];
    }
    SpacesLenIs(after, e - a - 1);
  }

  lemma HeadLenMeans(t: string, h: nat)
    requires HeadLen(t) == Some(h)
    ensures h > 3 && '"' !in t[..h] && t[0] == 'a' && 'a' !in t[1..h] && t[h - 1] == '{'
  {
    AssignLenMeans(t[3..], h - 4);
    assert t[..3] == AWS;
    forall i | 0 <= i < h ensures t[i] != '"' && (i > 0 ==> t[i] != 'a') {
      if i < 3 {
        assert t[i] == AWS[i];
      } else if i < h - 1 {
        assert t[i] == t[3..][..h - 4][i - 3];
        assert t[i] in t[3..][..h - 4];
      }
    }
  }

  lemma HeadLenKept(t: string, h: nat, rest: string)
    requires HeadLen(t) == Some(h)
    ensures HeadLen(t[..h] + rest) == Some(h)
  {
    var u := t[..h] + rest;
    assert u[..3] == t[..3] == AWS;
    var e := h - 4;
    var tail := [t[h - 1]] + rest;
    AssignLenKept(t[3..], e, tail);
    assert u[3..] == t[3..][..e] + tail;
  }

  // ---------------------------------------------------------------- the pattern, piece by piece

  predicate Spaces(s: string) {
    forall i :: 0 <= i < |s| ==> IsRegexSpace(s[i])
  }

  /** `\s*=\s*` */
  predicate IsAssign(s: string) {
    exists i :: 0 <= i < |s| && s[i] == '=' && Spaces(s[..i]) && Spaces(s[i + 1..])
  }

  /** `aws\s*=\s*\{` */
  predicate IsHead(s: string) {
    |s| > 4 && s[..3] == AWS && IsAssign(s[3..|s| - 1]) && s[|s| - 1] == '{'
  }

  /** `version"?\s*=\s*` */
  predicate IsKey(s: string) {
    |s| > 7 && s[..7] == VERSION && (IsAssign(s[7..]) || (s[7] == '"' && IsAssign(s[8..])))
  }

  /** One way to match the pattern at the start of a text: the head ends at `h`, the repetition
      `[^}]*` at `j`, and the key, with a quote in front of it or not, at the opening quote. */
  predicate IsMatch(t: string, h: nat, j: nat, q: Quotes) {
    && h <= j <= q.open && AreQuotes(t, q)
    && IsHead(t[..h]) && '}' !in t[h..j]
    && (IsKey(t[j..q.open]) || (j < q.open && t[j] == '"' && IsKey(t[j + 1..q.open])))
    && '"' !in t[q.open + 1..q.close]
  }

  lemma AssignFound(t: string, e: nat)
    requires e <= |t| && IsAssign(t[..e]) && (e < |t| ==> !IsRegexSpace(t[e]))
    ensures AssignLen(t) == Some(e)
  {
    var i :| 0 <= i < e && t[..e][i] == '=' && Spaces(t[..e][..i]) && Spaces(t[..e][i + 1..]);
    assert forall k :: 0 <= k < i ==> t[k] == t[..e][..i][k];
    SpacesLenIs(t, i);
    var after := t[i + 1..];
    assert forall k :: 0 <= k < e - i - 1 ==> after[k] == t[..e][i + 1..][k];
    SpacesLenIs(after, e - i - 1);
  }

  lemma AssignIs(t: string, e: nat)
    requires AssignLen(t) == Some(e)
    ensures IsAssign(t[..e])
  {
    var a := SpacesLen(t);
    SpacesLenMeans(t);
    var after := t[a + 1..];
    SpacesLenMeans(after);
    AssignParts(t[..e], a, after);
  }

  lemma AssignParts(s: string, a: nat, after: string)
    requires a < |s| && s[a] == '=' && Spaces(s[..a])
    requires |s| - a - 1 <= |after| && Spaces(after[..|s| - a - 1]) && s[a + 1..] == after[..|s| - a - 1]
    ensures IsAssign(s)
  {
  }

  lemma HeadIs(t: string, h: nat)
    requires h <= |t|
    ensures IsHead(t[..h]) <==> HeadLen(t) == Some(h)
  {
    if IsHead(t[..h]) {
      assert t[..3] == t[..h][..3] == AWS;
      assert t[..h][3..h - 1] == t[3..][..h - 4];
      assert t[3..][h - 4] == t[h - 1] == t[..h][h - 1];
      AssignFound(t[3..], h - 4);
    }
    if HeadLen(t) == Some(h) {
      AssignIs(t[3..], h - 4);
      assert t[..h][3..h - 1] == t[3..][..h - 4];
    }
  }

  lemma QuotedFound(t: string, q: Quotes)
    requires AreQuotes(t, q) && IsAssign(t[..q.open]) && '"' !in t[q.open + 1..q.close]
    ensures QuotedHere(t) == Some(q)
  {
    AssignFound(t, q.open);
    var after := t[q.open + 1..];
    assert after[..q.close - q.open - 1] == t[q.open + 1..q.close];
    IndexFound(after, '"', q.close - q.open - 1);
  }

  lemma QuotedIs(t: string, q: Quotes)
    requires QuotedHere(t) == Some(q)
    ensures IsAssign(t[..q.open]) && '"' !in t[q.open + 1..q.close]
  {
    AssignIs(t, q.open);
    var after := t[q.open + 1..];
    IndexOfMeans(after, '"');
    assert after[..q.close - q.open - 1] == t[q.open + 1..q.close];
  }

  lemma AssignBegins(s: string)
    requires IsAssign(s)
    ensures s != [] && Assigns(s[0])
  {
    var i :| 0 <= i < |s| && s[i] == '=' && Spaces(s[..i]) && Spaces(s[i + 1..]);
    if i > 0 {
      assert s[..i][0] == s[0];
    }
  }

  lemma VersionIs(t: string, q: Quotes)
    requires AreQuotes(t, q)
    ensures IsKey(t[..q.open]) && '"' !in t[q.open + 1..q.close] <==> VersionHere(t) == Some(q)
  {
    hide QuotedHere, IsKey, VersionHere;
    if IsKey(t[..q.open]) && '"' !in t[q.open + 1..q.close] {
      KeyFound(t, q);
    }
    if VersionHere(t) == Some(q) {
      KeyRead(t, q);
    }
  }

  lemma KeyRead(t: string, q: Quotes)
    requires VersionHere(t) == Some(q)
    ensures IsKey(t[..q.open]) && '"' !in t[q.open + 1..q.close]
  {
    hide QuotedHere, IsAssign;
    var n := KeyEnd(t);
    QuotedIs(t[n..], Quotes(q.open - n, q.close - n));
    assert t[n..][..q.open - n] == t[..q.open][n..];
    assert t[n..][q.open - n + 1..q.close - n] == t[q.open + 1..q.close];
    KeyText(t[..q.open], n, t);
  }

  lemma KeyText(s: string, n: nat, t: string)
    requires s <= t && VERSION <= t && n < |s| && (n == 7 || (n == 8 && t[7] == '"')) && IsAssign(s[n..])
    ensures IsKey(s)
  {
    hide IsAssign;
    assert s[..7] == t[..7] == VERSION;
  }

  lemma KeyFound(t: string, q: Quotes)
    requires AreQuotes(t, q) && IsKey(t[..q.open]) && '"' !in t[q.open + 1..q.close]
    ensures VersionHere(t) == Some(q)
  {
    hide QuotedHere;
    var s := t[..q.open];
    assert t[..7] == s[..7] == VERSION;
    var n := if IsAssign(s[7..]) then 7 else 8;
    AssignBegins(s[n..]);
    assert s[n..][0] == t[n];
    assert KeyEnd(t) == n;
    assert t[n..][..q.open - n] == s[n..];
    assert t[n..][q.open - n + 1..q.close - n] == t[q.open + 1..q.close];
    QuotedFound(t[n..], Quotes(q.open - n, q.close - n));
  }

  lemma {:induction false} LastVersionMeans(t: string)
    requires LastVersion(t).Some?
    ensures VersionHere(t[LastVersion(t).value..]).Some? && '}' !in t[..LastVersion(t).value]
  {
    hide VersionHere;
    if LastVersion(t[1..]).Some? {
      LastVersionMeans(t[1..]);
      var k := LastVersion(t[1..]).value;
      assert t[1..][k..] == t[k + 1..];
      assert t[..k + 1] == [t[0]] + t[1..][..k];
    } else {
      assert t[0..] == t;
    }
  }

  lemma VersionBegins(t: string)
    requires VersionHere(t).Some?
    ensures t != [] && t[0] == 'v'
  {
    assert VERSION[0] == 'v';
  }

  lemma {:induction false} LastVersionIsLast(t: string, k: nat)
    requires k < |t| && '}' !in t[..k] && VersionHere(t[k..]).Some?
    ensures LastVersion(t).Some? && LastVersion(t).value >= k
  {
    hide VersionHere;
    if k == 0 {
      assert t[0..] == t;
      VersionBegins(t);
    } else {
      assert t[0] == t[..k][0];
      assert t[1..][..k - 1] == t[..k][1..] && t[1..][k - 1..] == t[k..];
      LastVersionIsLast(t[1..], k - 1);
    }
  }

  /** A match begins with the head, and its key is found where the pattern puts it. */
  lemma MatchParts(t: string, h: nat, j: nat, q: Quotes) returns (k: nat)
    requires IsMatch(t, h, j, q)
    ensures HeadLen(t) == Some(h)
    ensures j <= k <= j + 1 && k <= q.open && (k == j || t[j] == '"')
    ensures '}' !in t[h..k] && VersionHere(t[k..]) == Some(Quotes(q.open - k, q.close - k))
  {
    hide VersionHere, HeadLen, IsHead, IsKey;
    HeadIs(t, h);
    k := if IsKey(t[j..q.open]) then j else j + 1;
    KeyOfMatch(t, k, q);
    assert k == j + 1 ==> t[h..k] == t[h..j] + [t[j]];
  }

  lemma KeyOfMatch(t: string, k: nat, q: Quotes)
    requires AreQuotes(t, q) && k <= q.open && IsKey(t[k..q.open]) && '"' !in t[q.open + 1..q.close]
    ensures VersionHere(t[k..]) == Some(Quotes(q.open - k, q.close - k))
  {
    hide VersionHere, IsKey;
    var p := Quotes(q.open - k, q.close - k);
    assert t[k..][..p.open] == t[k..q.open];
    assert t[k..][p.open + 1..p.close] == t[q.open + 1..q.close];
    VersionIs(t[k..], p);
  }

  lemma BlockIs(b: string, k: nat, p: Quotes)
    requires LastVersion(b) == Some(k) && VersionHere(b[k..]) == Some(p)
    ensures BlockHere(b) == Some(Quotes(k + p.open, k + p.close))
  {
    hide VersionHere, LastVersion;
  }

  /** A match in a block has its key at the last version and before any closing brace. */
  lemma BlockParts(b: string, q: Quotes) returns (k: nat)
    requires BlockHere(b) == Some(q)
    ensures k <= q.open && LastVersion(b) == Some(k) && '}' !in b[..k]
    ensures IsKey(b[k..q.open]) && '"' !in b[q.open + 1..q.close]
  {
    hide VersionHere, LastVersion, IsKey;
    k := LastVersion(b).value;
    LastVersionMeans(b);
    var p := VersionHere(b[k..]).value;
    BlockIs(b, k, p);
    KeyRead(b[k..], p);
    assert b[k..][..p.open] == b[k..q.open];
    assert b[k..][p.open + 1..p.close] == b[q.open + 1..q.close];
  }

  lemma MatchIsMatch(t: string, q: Quotes) returns (h: nat, j: nat)
    requires MatchHere(t) == Some(q)
    ensures HeadLen(t) == Some(h) && j >= h && LastVersion(t[h..]) == Some(j - h)
    ensures IsMatch(t, h, j, q)
  {
    hide HeadLen, LastVersion, BlockHere, IsHead, IsKey;
    h := HeadLen(t).value;
    HeadIs(t, h);
    var b := t[h..];
    var r := BlockHere(b).value;
    var k := BlockParts(b, r);
    j := h + k;
    assert b[..k] == t[h..j] && b[k..r.open] == t[j..q.open];
    assert b[r.open + 1..r.close] == t[q.open + 1..q.close];
  }

  /** Any match agrees with the function on the head and does not go beyond it in the block. */
  predicate Bounded(t: string, h: nat, j: nat, q: Quotes) {
    && HeadLen(t) == Some(h) && MatchHere(t).Some? && LastVersion(t[h..]).Some?
    && var last := h + LastVersion(t[h..]).value;
       j <= last && (j == last ==> q == MatchHere(t).value)
  }

  /** A version in a block is not behind the last one. */
  lemma BlockBounded(b: string, k: nat, p: Quotes)
    requires k < |b| && '}' !in b[..k] && VersionHere(b[k..]) == Some(p)
    ensures BlockHere(b).Some? && LastVersion(b).Some?
    ensures var last := LastVersion(b).value;
            k <= last < |b| && b[last] == 'v' && (k == last ==> BlockHere(b) == Some(Quotes(k + p.open, k + p.close)))
  {
    hide VersionHere, LastVersion, BlockHere;
    LastVersionIsLast(b, k);
    LastVersionMeans(b);
    var last := LastVersion(b).value;
    VersionBegins(b[last..]);
    assert b[last..][0] == b[last];
    BlockIs(b, last, VersionHere(b[last..]).value);
  }

  lemma MatchBounded(t: string, h: nat, j: nat, q: Quotes)
    requires IsMatch(t, h, j, q)
    ensures Bounded(t, h, j, q)
  {
    hide VersionHere, HeadLen, LastVersion, IsHead, IsKey, BlockHere;
    var k := MatchParts(t, h, j, q);
    var b := t[h..];
    assert b[..k - h] == t[h..k] && b[k - h..] == t[k..];
    BlockBounded(b, k - h, Quotes(q.open - k, q.close - k));
    assert b[j - h] == t[j];
  }

  /** The longest of all matches at the start of the text. */
  ghost predicate Longest(t: string, h: nat, j: nat, q: Quotes) {
    IsMatch(t, h, j, q) && forall i: nat, k: nat, p :: IsMatch(t, i, k, p) ==> k <= j && (k == j ==> p == q)
  }

  /** The function is the regular expression: it finds a match whenever there is one at the start
      of the text, and then the one whose repetition `[^}]*` is longest. */
  lemma GreedyMatch(t: string)
    ensures MatchHere(t) == None ==> forall h: nat, j: nat, q :: !IsMatch(t, h, j, q)
    ensures MatchHere(t).Some? ==> exists h: nat, j: nat :: Longest(t, h, j, MatchHere(t).value)
  {
    hide MatchHere, HeadLen, LastVersion, IsMatch;
    forall i: nat, j: nat, q | IsMatch(t, i, j, q) ensures Bounded(t, i, j, q) {
      MatchBounded(t, i, j, q);
    }
    if MatchHere(t).Some? {
      var h, j := MatchIsMatch(t, MatchHere(t).value);
      assert Longest(t, h, j, MatchHere(t).value);
    }
  }
}
