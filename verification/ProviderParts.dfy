/** What the rewrite of the provider version changes in a file: of the parts between its quotes exactly
    the values of the leftmost matches that do not overlap, as Go's ReplaceAllString promises. */
module ProviderParts {
  import opened Common
  import opened Text
  import opened ProviderPattern
  import opened ProviderVersion

  // ---------------------------------------------------------------- matches and parts

  /** The number of quotes in a text. */
  function QuoteCount(t: string): nat {
    multiset(t)['"']
  }

  /** A match that begins at a place in the text, with the places of the quotes around its value. */
  datatype Site = Site(at: nat, open: nat, close: nat)

  /** The longest match at the start of the text. */
  ghost predicate IsLongest(t: string, q: Quotes) {
    exists h: nat, j: nat :: Longest(t, h, j, q)
  }

  /** The longest match at this place. */
  ghost predicate MatchAt(t: string, s: Site) {
    s.at <= s.open <= s.close && s.at <= |t| && IsLongest(t[s.at..], Quotes(s.open - s.at, s.close - s.at))
  }

  /** No match begins at this place. */
  ghost predicate NoMatchAt(t: string, n: nat) {
    n <= |t| ==> forall h: nat, j: nat, q :: !IsMatch(t[n..], h, j, q)
  }

  /** It is the first match from a place on. */
  ghost predicate FirstFrom(t: string, n: nat, s: Site) {
    n <= s.at && MatchAt(t, s) && forall i: nat :: n <= i < s.at ==> NoMatchAt(t, i)
  }

  ghost predicate NoneFrom(t: string, n: nat) {
    forall i: nat :: n <= i <= |t| ==> NoMatchAt(t, i)
  }

  /** These are the leftmost matches from a place on that do not overlap: each is the first behind the
      one before, and behind the last there is none. */
  ghost predicate Leftmost(t: string, n: nat, sites: seq<Site>)
    decreases |sites|
  {
    if sites == [] then NoneFrom(t, n)
    else FirstFrom(t, n, sites[0]) && Leftmost(t, sites[0].close + 1, sites[1..])
  }

  /** The part of a text, counted between all its quotes, that is the value of a match. */
  function PartOf(t: string, s: Site): nat {
    if s.open < |t| then QuoteCount(t[..s.open + 1]) else 0
  }

  /** The i-th part is one of these values. */
  predicate IsChosen(t: string, sites: seq<Site>, i: int) {
    exists k :: 0 <= k < |sites| && PartOf(t, sites[k]) == i
  }

  // ---------------------------------------------------------------- the leftmost matches

  /** The matches that the rewrite replaces, from a place on. */
  function Scan(t: string, n: nat): seq<Site>
    requires n <= |t|
    decreases |t| - n
  {
    if n == |t| then []
    else match MatchHere(t[n..])
      case Some(q) => [Site(n, n + q.open, n + q.close)] + Scan(t, n + q.close + 1)
      case None => Scan(t, n + 1)
  }

  lemma FoundAt(t: string, n: nat)
    requires n <= |t|
    ensures match MatchHere(t[n..])
            case Some(q) => MatchAt(t, Site(n, n + q.open, n + q.close))
            case None => NoMatchAt(t, n)
  {
    hide MatchHere, IsMatch, Longest;
    GreedyMatch(t[n..]);
    if MatchHere(t[n..]).Some? {
      assert IsLongest(t[n..], MatchHere(t[n..]).value);
    }
  }

  lemma ScanMatch(t: string, n: nat, q: Quotes)
    requires n < |t| && MatchHere(t[n..]) == Some(q)
    ensures n + q.close < |t|
    ensures Scan(t, n) == [Site(n, n + q.open, n + q.close)] + Scan(t, n + q.close + 1)
  {
    hide MatchHere;
  }

  lemma ScanNone(t: string, n: nat)
    requires n < |t| && MatchHere(t[n..]) == None
    ensures Scan(t, n) == Scan(t, n + 1)
  {
    hide MatchHere;
  }

  lemma NothingAtEnd(t: string)
    ensures NoneFrom(t, |t|)
  {
    FoundAt(t, |t|);
    assert t[|t|..] == [];
  }

  lemma FirstSooner(t: string, n: nat, s: Site)
    requires NoMatchAt(t, n) && FirstFrom(t, n + 1, s)
    ensures FirstFrom(t, n, s)
  {
    hide NoMatchAt, MatchAt;
  }

  lemma NoneSooner(t: string, n: nat)
    requires NoMatchAt(t, n) && NoneFrom(t, n + 1)
    ensures NoneFrom(t, n)
  {
    hide NoMatchAt;
  }

  lemma FirstHere(t: string, s: Site)
    requires MatchAt(t, s)
    ensures FirstFrom(t, s.at, s)
  {
    hide MatchAt;
  }

  lemma {:induction false} ScanIsLeftmost(t: string, n: nat)
    requires n <= |t|
    ensures Leftmost(t, n, Scan(t, n))
    decreases |t| - n
  {
    hide MatchHere, MatchAt, NoMatchAt, FirstFrom, NoneFrom;
    if n == |t| {
      NothingAtEnd(t);
    } else {
      FoundAt(t, n);
      match MatchHere(t[n..])
      case Some(q) =>
        var s, rest := Site(n, n + q.open, n + q.close), Scan(t, n + q.close + 1);
        ScanIsLeftmost(t, n + q.close + 1);
        FirstHere(t, s);
        assert ([s] + rest)[1..] == rest;
      case None =>
        ScanIsLeftmost(t, n + 1);
        if Scan(t, n + 1) == [] {
          NoneSooner(t, n);
        } else {
          FirstSooner(t, n, Scan(t, n + 1)[0]);
        }
    }
  }

  /** There is only one such list. */
  lemma {:induction false} LeftmostIsUnique(t: string, n: nat, x: seq<Site>, y: seq<Site>)
    requires Leftmost(t, n, x) && Leftmost(t, n, y)
    ensures x == y
    decreases |x|
  {
    hide FirstFrom, NoneFrom;
    if x == [] && y != [] {
      FirstOrNone(t, n, y[0]);
    } else if x != [] && y == [] {
      FirstOrNone(t, n, x[0]);
    } else if x != [] {
      FirstIsOne(t, n, x[0], y[0]);
      LeftmostIsUnique(t, x[0].close + 1, x[1..], y[1..]);
      assert x == [x[0]] + x[1..] && y == [y[0]] + y[1..];
    }
  }

  lemma FirstOrNone(t: string, n: nat, s: Site)
    requires FirstFrom(t, n, s)
    ensures !NoneFrom(t, n)
  {
    hide NoMatchAt;
    MatchThere(t, s);
  }

  lemma FirstIsOne(t: string, n: nat, a: Site, b: Site)
    requires FirstFrom(t, n, a) && FirstFrom(t, n, b)
    ensures a == b
  {
    hide NoMatchAt, MatchAt;
    MatchThere(t, a);
    MatchThere(t, b);
    assert a.at == b.at;
    MatchIsOne(t, a, b);
  }

  lemma OneLongest(u: string, p: Quotes, q: Quotes)
    requires IsLongest(u, p) && IsLongest(u, q)
    ensures p == q
  {
    hide IsMatch;
    var h: nat, j: nat :| Longest(u, h, j, p);
    var i: nat, k: nat :| Longest(u, i, k, q);
    assert IsMatch(u, h, j, p) && IsMatch(u, i, k, q);
  }

  lemma MatchIsOne(t: string, a: Site, b: Site)
    requires MatchAt(t, a) && MatchAt(t, b) && a.at == b.at
    ensures a == b
  {
    hide IsLongest;
    OneLongest(t[a.at..], Quotes(a.open - a.at, a.close - a.at), Quotes(b.open - b.at, b.close - b.at));
  }

  lemma MatchThere(t: string, s: Site)
    requires MatchAt(t, s)
    ensures s.at <= |t| && !NoMatchAt(t, s.at)
  {
    hide IsMatch;
    var q := Quotes(s.open - s.at, s.close - s.at);
    var h: nat, j: nat :| Longest(t[s.at..], h, j, q);
    assert IsMatch(t[s.at..], h, j, q);
  }

  // ---------------------------------------------------------------- counting quotes

  lemma CountConcat(a: string, b: string)
    ensures QuoteCount(a + b) == QuoteCount(a) + QuoteCount(b)
  {
  }

  lemma CountNone(a: string)
    requires '"' !in a
    ensures QuoteCount(a) == 0
  {
  }

  lemma {:induction false} CountOfSplit(t: string)
    ensures |Split(t, '"')| == QuoteCount(t) + 1
  {
    if t != [] {
      CountOfSplit(t[1..]);
      assert t == [t[0]] + t[1..];
      CountConcat([t[0]], t[1..]);
    }
  }

  lemma CountNext(t: string, n: nat)
    requires n < |t|
    ensures QuoteCount(t[..n + 1]) == QuoteCount(t[..n]) + if t[n] == '"' then 1 else 0
  {
    assert t[..n + 1] == t[..n] + [t[n]];
  }

  lemma CountUpTo(t: string, m: nat, n: nat)
    requires m <= n <= |t|
    ensures QuoteCount(t[..n]) == QuoteCount(t[..m]) + QuoteCount(t[m..n])
  {
    assert t[..n] == t[..m] + t[m..n];
    CountConcat(t[..m], t[m..n]);
  }

  /** The values found from a place on are parts behind that place. */
  lemma {:induction false} PartsBehind(t: string, n: nat)
    requires n <= |t|
    ensures forall k :: 0 <= k < |Scan(t, n)| ==> QuoteCount(t[..n]) < PartOf(t, Scan(t, n)[k]) < QuoteCount(t)
    decreases |t| - n
  {
    hide MatchHere, QuoteCount;
    if n < |t| {
      match MatchHere(t[n..])
      case Some(q) =>
        var m := n + q.close + 1;
        PartsBehind(t, m);
        SitePart(t, n, q);
        CountUpTo(t, n, m);
      case None =>
        PartsBehind(t, n + 1);
        CountNext(t, n);
    }
  }

  lemma SitePart(t: string, n: nat, q: Quotes)
    requires n <= |t| && AreQuotes(t[n..], q)
    ensures QuoteCount(t[..n]) < PartOf(t, Site(n, n + q.open, n + q.close)) < QuoteCount(t)
  {
    hide QuoteCount;
    CountUpTo(t, n, n + q.open);
    CountNext(t, n + q.open);
    CountNext(t, n + q.close);
    CountUpTo(t, n + q.open + 1, n + q.close);
    CountUpTo(t, n + q.close + 1, |t|);
    assert t[..|t|] == t;
  }

  // ---------------------------------------------------------------- part by part

  /** The parts behind the first `m`: those chosen become the version, all others stay. */
  predicate Exact(t: string, sites: seq<Site>, m: nat, before: seq<string>, after: seq<string>, version: string) {
    && |before| == |after|
    && forall i :: 0 <= i < |before| ==> after[i] == if IsChosen(t, sites, m + i) then version else before[i]
  }

  lemma ExactCons(t: string, sites: seq<Site>, m: nat, c: char, before: seq<string>, after: seq<string>,
    version: string)
    requires Exact(t, sites, m + if c == '"' then 1 else 0, before, after, version) && before != []
    requires forall k :: 0 <= k < |sites| ==> PartOf(t, sites[k]) > m + if c == '"' then 1 else 0
    ensures Exact(t, sites, m, Extended(c, '"', before), Extended(c, '"', after), version)
  {
    hide PartOf;
    assert !IsChosen(t, sites, m);
    var x, y := Extended(c, '"', before), Extended(c, '"', after);
    forall i | 0 <= i < |x| ensures y[i] == if IsChosen(t, sites, m + i) then version else x[i] {
      if c == '"' && i > 0 {
        assert y[i] == after[i - 1] && x[i] == before[i - 1] && m + i == m + 1 + (i - 1);
      } else if i == 0 && c != '"' {
        assert m + 0 == m;
        assert after[0] == before[0];
      }
    }
  }

  lemma ExactMatch(t: string, s: Site, rest: seq<Site>, m: nat, front: seq<string>, value: string,
                   before: seq<string>, after: seq<string>, version: string)
    requires Exact(t, rest, m + |front| + 1, before, after, version) && PartOf(t, s) == m + |front|
    requires forall k :: 0 <= k < |rest| ==> PartOf(t, rest[k]) > m + |front|
    ensures Exact(t, [s] + rest, m, front + [value] + before, front + [version] + after, version)
  {
    hide PartOf;
    var all, x, y := [s] + rest, front + [value] + before, front + [version] + after;
    forall i ensures IsChosen(t, all, i) <==> i == m + |front| || IsChosen(t, rest, i) {
      ChosenOneMore(t, s, rest, i);
    }
    forall i | 0 <= i < |x| ensures y[i] == if IsChosen(t, all, m + i) then version else x[i] {
      var k := i - |front| - 1;
      if k >= 0 {
        assert y[i] == after[k] && x[i] == before[k] && m + i == m + |front| + 1 + k;
      } else {
        assert !IsChosen(t, rest, m + i);
      }
    }
  }

  lemma ChosenOneMore(t: string, s: Site, rest: seq<Site>, i: int)
    ensures IsChosen(t, [s] + rest, i) <==> PartOf(t, s) == i || IsChosen(t, rest, i)
  {
    hide PartOf;
    var all := [s] + rest;
    assert all[0] == s;
    assert forall k :: 0 <= k < |rest| ==> all[k + 1] == rest[k];
    if IsChosen(t, rest, i) {
      var k :| 0 <= k < |rest| && PartOf(t, rest[k]) == i;
      assert PartOf(t, all[k + 1]) == i;
    }
  }

  lemma MatchedValue(t: string, q: Quotes)
    requires MatchHere(t) == Some(q)
    ensures '"' !in t[q.open + 1..q.close]
  {
    hide MatchHere;
    var h, j := MatchIsMatch(t, q);
  }

  lemma PartsAround(front: string, value: string, behind: string)
    requires '"' !in value
    ensures Split(front + ['"'] + value + ['"'] + behind, '"') == Split(front, '"') + [value] + Split(behind, '"')
  {
    hide Split;
    assert front + ['"'] + value + ['"'] + behind == front + ['"'] + (value + ['"'] + behind);
    SplitAround(front, '"', value + ['"'] + behind);
    SplitFirst(value, '"', behind);
  }

  /** Two quotes with a value between them. */
  predicate Quoted(t: string, n: nat, a: nat, b: nat) {
    n <= a < b < |t| && t[a] == '"' && t[b] == '"' && '"' !in t[a + 1..b]
  }

  lemma CountsAround(t: string, n: nat, a: nat, b: nat)
    requires Quoted(t, n, a, b)
    ensures QuoteCount(t[..a + 1]) == QuoteCount(t[..n]) + QuoteCount(t[n..a]) + 1
    ensures QuoteCount(t[..b + 1]) == QuoteCount(t[..n]) + QuoteCount(t[n..a]) + 2
  {
    hide QuoteCount;
    CountUpTo(t, n, a);
    CountNext(t, a);
    CountUpTo(t, a + 1, b);
    CountNone(t[a + 1..b]);
    CountNext(t, b);
  }

  lemma TextAround(t: string, n: nat, a: nat, b: nat)
    requires Quoted(t, n, a, b)
    ensures t[n..] == t[n..a] + ['"'] + t[a + 1..b] + ['"'] + t[b + 1..]
  {
  }

  lemma SlicesOf(t: string, n: nat, q: Quotes)
    requires n <= |t| && AreQuotes(t[n..], q)
    ensures t[n..][..q.open + 1] == t[n..n + q.open] + ['"']
    ensures t[n..][q.open + 1..q.close] == t[n + q.open + 1..n + q.close]
    ensures t[n..][q.close + 1..] == t[n + q.close + 1..]
  {
  }

  /** A match at a place of the text, taken apart, before and after the rewrite. */
  lemma TakenApart(t: string, n: nat, q: Quotes, version: string) returns (front: string, value: string)
    requires n < |t| && MatchHere(t[n..]) == Some(q)
    ensures var m := n + q.close + 1;
            && '"' !in value
            && t[n..] == front + ['"'] + value + ['"'] + t[m..]
            && Rewrite(t[n..], version) == front + ['"'] + version + ['"'] + Rewrite(t[m..], version)
            && PartOf(t, Site(n, n + q.open, n + q.close)) == QuoteCount(t[..n]) + QuoteCount(front) + 1
            && QuoteCount(t[..m]) == QuoteCount(t[..n]) + QuoteCount(front) + 2
  {
    hide MatchHere, Rewrite, QuoteCount;
    SlicesOf(t, n, q);
    MatchedValue(t[n..], q);
    OnePass(t[n..], q, version);
    assert Quoted(t, n, n + q.open, n + q.close);
    CountsAround(t, n, n + q.open, n + q.close);
    TextAround(t, n, n + q.open, n + q.close);
    front, value := t[n..n + q.open], t[n + q.open + 1..n + q.close];
  }

  lemma ExactText(t: string, s: Site, rest: seq<Site>, m: nat, front: string, value: string, behind: string,
                  again: string, version: string)
    requires '"' !in value && '"' !in version && PartOf(t, s) == m + QuoteCount(front) + 1
    requires forall k :: 0 <= k < |rest| ==> PartOf(t, rest[k]) > m + QuoteCount(front) + 1
    requires Exact(t, rest, m + QuoteCount(front) + 2, Split(behind, '"'), Split(again, '"'), version)
    ensures Exact(t, [s] + rest, m, Split(front + ['"'] + value + ['"'] + behind, '"'),
                  Split(front + ['"'] + version + ['"'] + again, '"'), version)
  {
    hide *;
    PartsAround(front, value, behind);
    PartsAround(front, version, again);
    CountOfSplit(front);
    ExactMatch(t, s, rest, m, Split(front, '"'), value, Split(behind, '"'), Split(again, '"'), version);
  }

  lemma RewrittenMatch(t: string, n: nat, q: Quotes, version: string)
    requires n < |t| && MatchHere(t[n..]) == Some(q) && '"' !in version
    requires var m := n + q.close + 1;
             Exact(t, Scan(t, m), QuoteCount(t[..m]), Split(t[m..], '"'), Split(Rewrite(t[m..], version), '"'), version)
    ensures Exact(t, Scan(t, n), QuoteCount(t[..n]), Split(t[n..], '"'), Split(Rewrite(t[n..], version), '"'), version)
  {
    hide *;
    var m := n + q.close + 1;
    ScanMatch(t, n, q);
    var front, value := TakenApart(t, n, q, version);
    PartsBehind(t, m);
    ExactText(t, Site(n, n + q.open, n + q.close), Scan(t, m), QuoteCount(t[..n]), front, value, t[m..],
              Rewrite(t[m..], version), version);
  }

  lemma CharTakenApart(t: string, n: nat, version: string)
    requires n < |t| && MatchHere(t[n..]) == None
    ensures t[n..] == [t[n]] + t[n + 1..] && Rewrite(t[n..], version) == [t[n]] + Rewrite(t[n + 1..], version)
  {
    hide MatchHere;
    assert t[n..][1..] == t[n + 1..];
  }

  lemma ExactChar(t: string, sites: seq<Site>, m: nat, c: char, u: string, v: string, version: string)
    requires Exact(t, sites, m + if c == '"' then 1 else 0, Split(u, '"'), Split(v, '"'), version)
    requires forall k :: 0 <= k < |sites| ==> PartOf(t, sites[k]) > m + if c == '"' then 1 else 0
    ensures Exact(t, sites, m, Split([c] + u, '"'), Split([c] + v, '"'), version)
  {
    hide *;
    SplitCons(c, u, '"');
    SplitCons(c, v, '"');
    ExactCons(t, sites, m, c, Split(u, '"'), Split(v, '"'), version);
  }

  lemma RewrittenChar(t: string, n: nat, version: string)
    requires n < |t| && MatchHere(t[n..]) == None
    requires Exact(t, Scan(t, n + 1), QuoteCount(t[..n + 1]), Split(t[n + 1..], '"'),
                   Split(Rewrite(t[n + 1..], version), '"'), version)
    ensures Exact(t, Scan(t, n), QuoteCount(t[..n]), Split(t[n..], '"'), Split(Rewrite(t[n..], version), '"'), version)
  {
    hide *;
    CharTakenApart(t, n, version);
    ScanNone(t, n);
    PartsBehind(t, n + 1);
    CountNext(t, n);
    ExactChar(t, Scan(t, n), QuoteCount(t[..n]), t[n], t[n + 1..], Rewrite(t[n + 1..], version), version);
  }

  lemma {:induction false} RewrittenParts(t: string, n: nat, version: string)
    requires n <= |t| && '"' !in version
    ensures Exact(t, Scan(t, n), QuoteCount(t[..n]), Split(t[n..], '"'), Split(Rewrite(t[n..], version), '"'), version)
    decreases |t| - n
  {
    hide MatchHere, Split, Exact, Scan, Rewrite, QuoteCount;
    if n == |t| {
      NothingToRewrite(t, version);
    } else {
      match MatchHere(t[n..])
      case Some(q) =>
        RewrittenParts(t, n + q.close + 1, version);
        RewrittenMatch(t, n, q, version);
      case None =>
        RewrittenParts(t, n + 1, version);
        RewrittenChar(t, n, version);
    }
  }

  lemma NothingToRewrite(t: string, version: string)
    ensures Exact(t, Scan(t, |t|), QuoteCount(t[..|t|]), Split(t[|t|..], '"'),
      Split(Rewrite(t[|t|..], version), '"'), version)
  {
  }

  // ---------------------------------------------------------------- what changes

  /** Exactly what a rewrite changes: of the parts of the text between its quotes those that are the
      values of its leftmost matches become the version, and all others stay as they are. */
  lemma ExactlyMatchedChange(t: string, version: string) returns (sites: seq<Site>)
    requires '"' !in version
    ensures Leftmost(t, 0, sites)
    ensures var before, after := Split(t, '"'), Split(Rewrite(t, version), '"');
            && |before| == |after|
            && forall i :: 0 <= i < |before| ==> after[i] == if IsChosen(t, sites, i) then version else before[i]
  {
    hide MatchHere, Split, Scan, Rewrite, Leftmost, IsChosen;
    sites := Scan(t, 0);
    ScanIsLeftmost(t, 0);
    RewrittenParts(t, 0, version);
    assert t[0..] == t;
    CountNone(t[..0]);
  }

  /** The i-th part of the text is the value of a longest match of the expression somewhere. */
  ghost predicate MatchedPart(t: string, i: int) {
    exists s :: MatchAt(t, s) && PartOf(t, s) == i
  }

  /** Part by part between the quotes, `after` is `before` with some inner parts set to the version,
      all of them matched values. */
  ghost predicate OnlyParts(t: string, before: seq<string>, after: seq<string>, version: string) {
    && |before| == |after|
    && forall i :: 0 <= i < |before| ==>
         after[i] == before[i] || (after[i] == version && 0 < i < |before| - 1 && MatchedPart(t, i))
  }

  lemma {:induction false} SiteIsMatch(t: string, n: nat, sites: seq<Site>, k: nat)
    requires Leftmost(t, n, sites) && k < |sites|
    ensures MatchAt(t, sites[k])
    decreases k
  {
    hide MatchAt, NoMatchAt;
    if k > 0 {
      SiteIsMatch(t, sites[0].close + 1, sites[1..], k - 1);
    }
  }

  lemma ChosenIsMatched(t: string, i: int)
    requires IsChosen(t, Scan(t, 0), i)
    ensures 0 < i < QuoteCount(t) && MatchedPart(t, i)
  {
    hide MatchHere, MatchAt, PartOf, QuoteCount, Leftmost;
    var sites := Scan(t, 0);
    ScanIsLeftmost(t, 0);
    PartsBehind(t, 0);
    var k :| 0 <= k < |sites| && PartOf(t, sites[k]) == i;
    SiteIsMatch(t, 0, sites, k);
  }

  /** Only matched values change, and what changes becomes the version; all other text, quoted or
      not, and the quotes themselves stay where they are. */
  lemma OnlyQuotedTextChanges(t: string, version: string)
    requires '"' !in version
    ensures OnlyParts(t, Split(t, '"'), Split(Rewrite(t, version), '"'), version)
  {
    hide Split, Scan, Rewrite, QuoteCount, IsChosen, MatchedPart;
    RewrittenParts(t, 0, version);
    CountOfSplit(t);
    assert t[0..] == t;
    CountNone(t[..0]);
    forall i | IsChosen(t, Scan(t, 0), i) ensures 0 < i < QuoteCount(t) && MatchedPart(t, i) {
      ChosenIsMatched(t, i);
    }
  }
}
