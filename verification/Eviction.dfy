/** Eviction thresholds of a kubelet, as kops writes them, turned into what Karpenter accepts:
    parseEvictionThresholds of pkg/utils/karpenter_utils.go. Which values are valid is left
    open. */
module Eviction {
  import opened Common
  import opened Text

  const SIGNALS := ["memory.available", "nodefs.available", "nodefs.inodesFree",
                    "imagefs.available", "imagefs.inodesFree", "pid.available"]

  type Values = map<string, string>

  datatype Parsed = Thresholds(values: Option<Values>) | Invalid(threshold: string)

  datatype Threshold = Threshold(signal: string, value: string)

  // ---------------------------------------------------------------- one threshold

  /** A signal and a value around the first comparison sign. */
  function Cut(segment: string): Option<Threshold> {
    var s := TrimSpace(segment);
    match IndexOf(s, '<')
    case None => None
    case Some(i) => Some(Threshold(TrimSpace(s[..i]), TrimSpace(s[i + 1..])))
  }

  predicate WellFormed(segment: string, valid: string -> bool) {
    match Cut(segment)
    case None => false
    case Some(t) => t.signal != [] && valid(t.value)
  }

  /** A threshold is well formed exactly if it has a comparison sign, its part before the first one is
      not blank and its part behind that one, trimmed, is a valid value. */
  lemma WellFormedExactly(segment: string, valid: string -> bool)
    ensures WellFormed(segment, valid) <==>
      exists left: string, right: string :: TrimSpace(segment) == left + (['<'] + right) && '<' !in left
        && !Blank(left) && valid(TrimSpace(right))
  {
    var s := TrimSpace(segment);
    IndexOfMeans(s, '<');
    if Cut(segment).Some? {
      var i := IndexOf(s, '<').value;
      assert s == s[..i] + (['<'] + s[i + 1..]);
      BlankTrims(s[..i]);
    }
    if left: string, right: string
      :| s == left + (['<'] + right) && '<' !in left && !Blank(left) && valid(TrimSpace(right))
    {
      CutAt(segment, left, right);
      BlankTrims(left);
    }
  }

  /** The signal and the value are what is on the two sides of the first comparison sign, trimmed. */
  lemma CutAt(segment: string, left: string, right: string)
    requires TrimSpace(segment) == left + (['<'] + right) && '<' !in left
    ensures Cut(segment) == Some(Threshold(TrimSpace(left), TrimSpace(right)))
  {
    var s := TrimSpace(segment);
    assert s[..|left|] == left && s[|left| + 1..] == right;
    IndexFound(s, '<', |left|);
  }

  lemma BlankTrims(s: string)
    ensures Blank(s) <==> TrimSpace(s) == []
  {
    var a, b := TrimSpaceParts(s);
    var t := TrimSpace(s);
    if t == [] {
      assert s == a + b;
    } else {
      assert s[|a|] == t[0];
    }
  }

  // ---------------------------------------------------------------- the list

  predicate AllWellFormed(segments: seq<string>, valid: string -> bool) {
    forall i :: 0 <= i < |segments| ==> WellFormed(segments[i], valid)
  }

  /** The value of the last threshold for a signal. */
  function LastValue(segments: seq<string>, signal: string): Option<string> {
    if segments == [] then None
    else
      var n := |segments| - 1;
      match Cut(segments[n])
      case Some(t) => if t.signal == signal then Some(t.value) else LastValue(segments[..n], signal)
      case None => LastValue(segments[..n], signal)
  }

  predicate Accepted(signal: string) {
    signal in SIGNALS
  }

  lemma AcceptedSignals(signal: string)
    ensures Accepted(signal) <==> signal in {
      "memory.available", "nodefs.available", "nodefs.inodesFree",
      "imagefs.available", "imagefs.inodesFree", "pid.available"}
  {
    assert SIGNALS[0] == "memory.available" && SIGNALS[1] == "nodefs.available" && SIGNALS[2] == "nodefs.inodesFree";
    assert SIGNALS[3] == "imagefs.available" && SIGNALS[4] == "imagefs.inodesFree" && SIGNALS[5] == "pid.available";
  }

  /** What is to be returned: every accepted signal with the value of its last occurrence, and no
      other signal. */
  predicate Collected(segments: seq<string>, values: Values) {
    && (forall s :: s in values ==> Accepted(s) && LastValue(segments, s) == Some(values[s]))
    && (forall s :: s in SIGNALS && LastValue(segments, s).Some? ==> s in values)
  }

  predicate FirstInvalid(segments: seq<string>, k: nat, valid: string -> bool) {
    k < |segments| && AllWellFormed(segments[..k], valid) && !WellFormed(segments[k], valid)
  }

  predicate NothingGiven(thresholds: Option<string>) {
    thresholds.None? || TrimSpace(thresholds.value) == []
  }

  method ParseEvictionThresholds(thresholds: Option<string>, valid: string -> bool) returns (r: Parsed)
    ensures NothingGiven(thresholds) ==> r == Thresholds(None)
    ensures !NothingGiven(thresholds) ==>
      var segments := Split(thresholds.value, ',');
      && (r.Thresholds? <==> AllWellFormed(segments, valid))
      && (r.Invalid? ==> exists k: nat :: FirstInvalid(segments, k, valid) && r.threshold == segments[k])
      && (r.Thresholds? ==>
            match r.values
            case Some(values) => values != map[] && Collected(segments, values)
            case None => Collected(segments, map[]))
  {
    hide Split, TrimSpace, LastValue, Cut;
    if thresholds.None? || TrimSpace(thresholds.value) == [] {
      return Thresholds(None);
    }
    var parsed: Values := map[];
    var segments := Split(thresholds.value, ',');
    NothingCollected(segments);
    var i := 0;
    while i < |segments|
      invariant 0 <= i <= |segments|
      invariant AllWellFormed(segments[..i], valid)
      invariant Collected(segments[..i], parsed)
    {
      if !WellFormed(segments[i], valid) {
        assert FirstInvalid(segments, i, valid);
        return Invalid(segments[i]);
      }
      var t := Cut(segments[i]).value;
      ghost var before := parsed;
      if t.signal in SIGNALS {
        parsed := parsed[t.signal := t.value];
      }
      OneMore(segments, i, before, parsed);
      i := i + 1;
    }
    assert segments[..i] == segments;
    return Thresholds(if parsed == map[] then None else Some(parsed));
  }

  lemma NothingCollected(segments: seq<string>)
    ensures Collected(segments[..0], map[])
  {
  }

  lemma OneMore(segments: seq<string>, i: nat, before: Values, after: Values)
    requires i < |segments| && Cut(segments[i]).Some? && Collected(segments[..i], before)
    requires var t := Cut(segments[i]).value;
             after == if Accepted(t.signal) then before[t.signal := t.value] else before
    ensures Collected(segments[..i + 1], after)
  {
    hide LastValue, Cut;
    assert segments[..i + 1] == segments[..i] + [segments[i]];
    forall s: string ensures LastValue(segments[..i + 1], s) ==
      if Cut(segments[i]).value.signal == s then Some(Cut(segments[i]).value.value) else LastValue(segments[..i], s)
    {
      LastValueNext(segments[..i], segments[i], s);
    }
  }

  // ---------------------------------------------------------------- rendering and parsing back

  function Render(signal: string, value: string): string {
    signal + (['<'] + value)
  }

  /** The thresholds in the order of `order`, as kops takes them. */
  function RenderAll(order: seq<string>, values: Values): seq<string>
    requires forall s :: s in order ==> s in values
  {
    seq(|order|, i requires 0 <= i < |order| => Render(order[i], values[order[i]]))
  }

  lemma SignalsArePlain(signal: string)
    requires Accepted(signal)
    ensures signal != [] && '<' !in signal && ',' !in signal && Trimmed(signal)
  {
  }

  lemma CutRendered(signal: string, value: string)
    requires Accepted(signal) && Trimmed(value)
    ensures Cut(Render(signal, value)) == Some(Threshold(signal, value))
  {
    SignalsArePlain(signal);
    var s := Render(signal, value);
    var t := TrimSpace(s);
    TrimmedOrBlankEnd(signal, value);
    IndexFound(t, '<', |signal|);
    assert t[..|signal|] == signal;
    TrimTrimmed(signal);
    TrimTrimmed(value);
    assert t[|signal| + 1..] == value;
  }

  lemma TrimmedOrBlankEnd(signal: string, value: string)
    requires Accepted(signal) && Trimmed(value)
    ensures TrimSpace(Render(signal, value)) == Render(signal, value)
  {
    SignalsArePlain(signal);
    TrimTrimmed(Render(signal, value));
  }

  lemma {:induction false} LastOfRendered(order: seq<string>, values: Values, signal: string)
    requires forall s :: s in order ==> s in values && Accepted(s) && Trimmed(values[s])
    ensures LastValue(RenderAll(order, values), signal) == if signal in order then Some(values[signal]) else None
  {
    if order != [] {
      var n := |order| - 1;
      var last := order[n];
      CutRendered(last, values[last]);
      LastOfRendered(order[..n], values, signal);
      RenderedLast(order, values);
      LastValueNext(RenderAll(order[..n], values), Render(last, values[last]), signal);
      assert order == order[..n] + [last];
    }
  }

  lemma RenderedLast(order: seq<string>, values: Values)
    requires order != [] && forall s :: s in order ==> s in values
    ensures var n := |order| - 1;
            RenderAll(order, values) == RenderAll(order[..n], values) + [Render(order[n], values[order[n]])]
  {
  }

  /** One more segment at the end. */
  lemma LastValueNext(segments: seq<string>, segment: string, signal: string)
    ensures LastValue(segments + [segment], signal) ==
      if Cut(segment).Some? && Cut(segment).value.signal == signal then Some(Cut(segment).value.value)
      else LastValue(segments, signal)
  {
    hide Cut;
    assert (segments + [segment])[..|segments|] == segments;
  }

  predicate Renderable(values: Values, valid: string -> bool) {
    values != map[] && forall s :: s in values ==>
      Accepted(s) && Trimmed(values[s]) && ',' !in values[s] && valid(values[s])
  }

  lemma CollectedIsUnique(segments: seq<string>, a: Values, b: Values)
    requires Collected(segments, a) && Collected(segments, b)
    ensures a == b
  {
  }

  /** Round trip: any non-empty map of accepted signals to trimmed, valid values without commas,
      rendered with its signals in any order, is what the result must be. */
  lemma RenderedParsesBack(order: seq<string>, values: Values, valid: string -> bool)
    requires Renderable(values, valid) && Elements(order) == values.Keys
    ensures order != [] && forall s :: s in order ==> s in values
    ensures var text := Join(RenderAll(order, values), ',');
            && !NothingGiven(Some(text))
            && AllWellFormed(Split(text, ','), valid)
            && forall other :: Collected(Split(text, ','), other) <==> other == values
  {
    assert forall s :: s in order <==> s in Elements(order);
    var all := RenderAll(order, values);
    assert values.Keys != {};
    assert order != [];
    forall i | 0 <= i < |all| ensures ',' !in all[i] && WellFormed(all[i], valid) {
      assert order[i] in order;
      CutRendered(order[i], values[order[i]]);
      SignalsArePlain(order[i]);
    }
    SplitJoin(all, ',');
    NotBlank(order, values);
    forall s ensures LastValue(all, s) == if s in order then Some(values[s]) else None {
      LastOfRendered(order, values, s);
    }
    assert Collected(all, values);
    forall other | Collected(all, other) ensures other == values {
      CollectedIsUnique(all, values, other);
    }
  }

  lemma NotBlank(order: seq<string>, values: Values)
    requires order != [] && forall s :: s in order ==> s in values && Accepted(s)
    ensures TrimSpace(Join(RenderAll(order, values), ',')) != []
  {
    var all := RenderAll(order, values);
    var text := Join(all, ',');
    SignalsArePlain(order[0]);
    assert order[0] in order;
    assert all[0] == Render(order[0], values[order[0]]);
    assert text[0] == order[0][0];
    var a, b := TrimSpaceParts(text);
    assert TrimSpace(text) == [] ==> text == a + b;
  }
}
