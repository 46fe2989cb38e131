/** The process-wide feature flags of the kops library and how one control plane sets them:
    ParseSpotinstFeatureflags of pkg/utils/kops_utils.go and the Karpenter lines of Reconcile. */
module FeatureFlags {
  import opened Common
  import opened Text

  type FlagTable = map<string, bool>

  datatype SpotInst = SpotInst(enabled: bool, featureFlags: string)

  /** What the kops library reads when it builds, populates and renders a cluster. */
  datatype FlagView = FlagView(karpenter: bool, spotinst: bool, ocean: bool, hybrid: bool, controller: bool)

  const SPOTINST := "Spotinst"
  const OCEAN := "SpotinstOcean"
  const HYBRID := "SpotinstHybrid"
  const CONTROLLER := "SpotinstController"

  /** The list that switches the four Spotinst flags off. */
  const RESET_LIST := "-" + SPOTINST + "," + ("-" + OCEAN + "," + ("-" + HYBRID + "," + ("-" + CONTROLLER)))

  predicate IsReset(name: string) {
    name == SPOTINST || name == OCEAN || name == HYBRID || name == CONTROLLER
  }

  predicate Flag(flags: FlagTable, name: string) {
    name in flags && flags[name]
  }

  function View(flags: FlagTable): FlagView {
    FlagView(Flag(flags, "Karpenter"), Flag(flags, SPOTINST), Flag(flags, OCEAN),
             Flag(flags, HYBRID), Flag(flags, CONTROLLER))
  }

  /** The flag a token names and the value it gives it. */
  function TokenName(token: string): string {
    if token != [] && (token[0] == '+' || token[0] == '-') then token[1..] else token
  }

  function SetToken(flags: FlagTable, token: string): FlagTable {
    if token == [] then flags else flags[TokenName(token) := token[0] != '-']
  }

  function SetTokens(flags: FlagTable, tokens: seq<string>): FlagTable
    decreases |tokens|
  {
    if tokens == [] then flags else SetTokens(SetToken(flags, tokens[0]), tokens[1..])
  }

  /** `featureflag.ParseFlags` of the kops library. */
  function ParseFlags(flags: FlagTable, list: string): FlagTable {
    SetTokens(flags, Split(TrimSpace(list), ','))
  }

  // ---------------------------------------------------------------- specification

  /** The last token that names a flag decides it. */
  function LastSetting(tokens: seq<string>, name: string): Option<bool> {
    if tokens == [] then None
    else
      var last := tokens[|tokens| - 1];
      if last != [] && TokenName(last) == name then Some(last[0] != '-')
      else LastSetting(tokens[..|tokens| - 1], name)
  }

  /** The user's tokens that mention Spotinst, trimmed, in order. */
  function SpotinstTokens(tokens: seq<string>): seq<string> {
    if tokens == [] then []
    else if Contains(tokens[0], SPOTINST) then [TrimSpace(tokens[0])] + SpotinstTokens(tokens[1..])
    else SpotinstTokens(tokens[1..])
  }

  predicate CredentialsMissing(spot: SpotInst, token: bool, account: bool) {
    spot.enabled && !(token && account)
  }

  /** The tokens in force for a control plane, the implicit one first. */
  function Settings(spot: SpotInst, token: bool, account: bool): seq<string> {
    if !spot.enabled || CredentialsMissing(spot, token, account) then []
    else [SPOTINST] + (if spot.featureFlags == [] then [] else SpotinstTokens(Split(spot.featureFlags, ',')))
  }

  function SpotinstFlagsAfter(flags: FlagTable, spot: SpotInst, token: bool, account: bool): FlagTable {
    SetTokens(ParseFlags(flags, RESET_LIST), Settings(spot, token, account))
  }

  function KarpenterFlagAfter(flags: FlagTable, enabled: bool): FlagTable {
    var off := ParseFlags(flags, "-Karpenter");
    if enabled then ParseFlags(off, "Karpenter") else off
  }

  /** What a control plane asks of a flag, no matter what was set before. */
  function Wanted(karpenter: bool, spot: SpotInst, token: bool, account: bool): FlagView {
    var s := Settings(spot, token, account);
    FlagView(karpenter, Setting(s, SPOTINST), Setting(s, OCEAN),
             Setting(s, HYBRID), Setting(s, CONTROLLER))
  }

  predicate Setting(tokens: seq<string>, name: string) {
    LastSetting(tokens, name) == Some(true)
  }

  // ---------------------------------------------------------------- implementation

  class Process {
    var flags: FlagTable

    method ParseSpotinstFeatureflags(spot: SpotInst, token: bool, account: bool) returns (err: bool)
      modifies this
      ensures err == CredentialsMissing(spot, token, account)
      ensures err <==> spot.enabled && (!token || !account)
      ensures flags == SpotinstFlagsAfter(old(flags), spot, token, account)
    {
      hide ParseFlags, SetTokens, TrimSpace, Split;
      flags := ParseFlags(flags, RESET_LIST);
      NoTokens(flags);
      if spot.enabled {
        if !token {
          return true;
        }
        if !account {
          return true;
        }
        ImplicitToken(flags, spot);
        flags := ParseFlags(flags, SPOTINST);
        ghost var start := flags;
        NoTokens(start);
        if |spot.featureFlags| > 0 {
          var tokens := Split(spot.featureFlags, ',');
          SplitParts(spot.featureFlags, ',');
          var i := 0;
          assert SpotinstTokens(tokens[..0]) == [];
          while i < |tokens|
            invariant 0 <= i <= |tokens|
            invariant flags == SetTokens(start, SpotinstTokens(tokens[..i]))
          {
            MoreTokens(tokens, i);
            if Contains(tokens[i], SPOTINST) {
              OneMoreToken(start, SpotinstTokens(tokens[..i]), tokens[i]);
              flags := ParseFlags(flags, tokens[i]);
            }
            i := i + 1;
          }
          assert tokens[..i] == tokens;
        }
      }
      return false;
    }
  }

  // ---------------------------------------------------------------- tokens

  lemma NoTokens(flags: FlagTable)
    ensures SetTokens(flags, []) == flags
  {
  }

  lemma {:induction false} SetTokensOfConcat(flags: FlagTable, a: seq<string>, b: seq<string>)
    ensures SetTokens(flags, a + b) == SetTokens(SetTokens(flags, a), b)
    decreases |a|
  {
    if a == [] {
      assert a + b == b;
    } else {
      SetTokensOfConcat(SetToken(flags, a[0]), a[1..], b);
      assert (a + b)[1..] == a[1..] + b;
    }
  }

  lemma SpotinstTokensOfConcat(a: seq<string>, b: seq<string>)
    ensures SpotinstTokens(a + b) == SpotinstTokens(a) + SpotinstTokens(b)
  {
    if a == [] {
      assert a + b == b;
    } else {
      assert (a + b)[1..] == a[1..] + b;
    }
  }

  lemma MoreTokens(tokens: seq<string>, i: nat)
    requires i < |tokens|
    ensures SpotinstTokens(tokens[..i + 1])
         == if Contains(tokens[i], SPOTINST) then SpotinstTokens(tokens[..i]) + [TrimSpace(tokens[i])]
            else SpotinstTokens(tokens[..i])
  {
    assert tokens[..i + 1] == tokens[..i] + [tokens[i]];
    SpotinstTokensOfConcat(tokens[..i], [tokens[i]]);
    assert [tokens[i]][1..] == [];
  }

  lemma TrimmedToken(token: string)
    requires ',' !in token
    ensures Split(TrimSpace(token), ',') == [TrimSpace(token)]
  {
    var a, b := TrimSpaceParts(token);
    assert ',' !in TrimSpace(token);
    SplitWhole(TrimSpace(token), ',');
  }

  lemma PlainToken(token: string)
    requires ',' !in token && Trimmed(token)
    ensures Split(TrimSpace(token), ',') == [token]
  {
    TrimTrimmed(token);
    SplitWhole(token, ',');
  }

  lemma OneMoreToken(flags: FlagTable, before: seq<string>, token: string)
    requires ',' !in token
    ensures SetTokens(flags, before + [TrimSpace(token)]) == ParseFlags(SetTokens(flags, before), token)
  {
    TrimmedToken(token);
    SetTokensOfConcat(flags, before, [TrimSpace(token)]);
  }

  lemma OneToken(flags: FlagTable, token: string)
    ensures SetTokens(flags, [token]) == SetToken(flags, token)
  {
    assert [token][1..] == [];
  }

  lemma ImplicitToken(flags: FlagTable, spot: SpotInst)
    requires spot.enabled
    ensures SetTokens(flags, Settings(spot, true, true))
         == SetTokens(ParseFlags(flags, SPOTINST),
                      if spot.featureFlags == [] then [] else SpotinstTokens(Split(spot.featureFlags, ',')))
  {
    PlainToken(SPOTINST);
    var rest := Settings(spot, true, true)[1..];
    SetTokensOfConcat(flags, [SPOTINST], rest);
  }

  /** The last token naming a flag wins; a flag no token names keeps its value. */
  lemma {:induction false} LastTokenWins(flags: FlagTable, tokens: seq<string>, name: string)
    ensures Flag(SetTokens(flags, tokens), name)
         == (match LastSetting(tokens, name) case Some(v) => v case None => Flag(flags, name))
    decreases |tokens|
  {
    if tokens != [] {
      var n := |tokens| - 1;
      assert tokens == tokens[..n] + [tokens[n]];
      SetTokensOfConcat(flags, tokens[..n], [tokens[n]]);
      LastTokenWins(flags, tokens[..n], name);
      OneToken(SetTokens(flags, tokens[..n]), tokens[n]);
    }
  }

  lemma FourTokens(a: string, b: string, c: string, d: string)
    requires ',' !in a && ',' !in b && ',' !in c && ',' !in d
    requires a != [] && !IsSpace(a[0]) && d != [] && !IsSpace(d[|d| - 1])
    ensures Split(TrimSpace(a + "," + (b + "," + (c + "," + d))), ',') == [a] + ([b] + ([c] + [d]))
  {
    TrimTrimmed(a + "," + (b + "," + (c + "," + d)));
    SplitWhole(d, ',');
    SplitFirst(c, ',', d);
    SplitFirst(b, ',', c + "," + d);
    SplitFirst(a, ',', b + "," + (c + "," + d));
  }

  lemma OffToken(flags: FlagTable, name: string, rest: seq<string>)
    ensures SetTokens(flags, ["-" + name] + rest) == SetTokens(flags[name := false], rest)
  {
    assert ("-" + name)[1..] == name;
    OneToken(flags, "-" + name);
    SetTokensOfConcat(flags, ["-" + name], rest);
  }

  lemma ResetEffect(flags: FlagTable)
    ensures ParseFlags(flags, RESET_LIST)
         == flags[SPOTINST := false][OCEAN := false][HYBRID := false][CONTROLLER := false]
  {
    FourTokens("-" + SPOTINST, "-" + OCEAN, "-" + HYBRID, "-" + CONTROLLER);
    var f1 := flags[SPOTINST := false];
    var f2 := f1[OCEAN := false];
    var f3 := f2[HYBRID := false];
    OffToken(flags, SPOTINST, ["-" + OCEAN] + (["-" + HYBRID] + ["-" + CONTROLLER]));
    OffToken(f1, OCEAN, ["-" + HYBRID] + ["-" + CONTROLLER]);
    OffToken(f2, HYBRID, ["-" + CONTROLLER]);
    assert ["-" + CONTROLLER] + [] == ["-" + CONTROLLER];
    OffToken(f3, CONTROLLER, []);
  }

  // ---------------------------------------------------------------- what a token says

  predicate Signed(token: string) {
    token != [] && (token[0] == '+' || token[0] == '-')
  }

  /** A name, with a plus sign or without, switches its flag on, and with a minus sign off; no other
      flag changes, and an empty token changes none. */
  lemma TokenForms(flags: FlagTable, name: string)
    requires name != [] && !Signed(name)
    ensures SetToken(flags, name) == flags[name := true] == SetToken(flags, "+" + name)
    ensures SetToken(flags, "-" + name) == flags[name := false]
    ensures SetToken(flags, []) == flags
  {
    assert ("+" + name)[1..] == name == ("-" + name)[1..];
  }

  /** The tokens of a list that count are those that contain "Spotinst", trimmed and in their order. */
  lemma TokensThatCount(tokens: seq<string>) returns (at: seq<nat>)
    ensures Increasing(at) && |at| == |SpotinstTokens(tokens)|
    ensures forall i :: 0 <= i < |at| ==> at[i] < |tokens| && SpotinstTokens(tokens)[i] == TrimSpace(tokens[at[i]])
    ensures forall k: nat :: k < |tokens| ==> (k in at <==> Contains(tokens[k], "Spotinst"))
  {
    at := Positions(tokens, (t: string) => Contains(t, SPOTINST));
    PositionsAre(tokens, (t: string) => Contains(t, SPOTINST));
    CountingPositions(tokens);
  }

  lemma {:induction false} CountingPositions(tokens: seq<string>)
    ensures var at := Positions(tokens, (t: string) => Contains(t, SPOTINST));
            |at| == |SpotinstTokens(tokens)| && forall i :: 0 <= i < |at| ==>
              at[i] < |tokens| && SpotinstTokens(tokens)[i] == TrimSpace(tokens[at[i]])
  {
    hide Contains, TrimSpace;
    if tokens != [] {
      var n := |tokens| - 1;
      CountingPositions(tokens[..n]);
      MoreTokens(tokens, n);
      assert tokens[..n + 1] == tokens;
    }
  }

  /** The token names the flag and counts. */
  predicate Decides(token: string, name: string) {
    Contains(token, "Spotinst") && TrimSpace(token) != [] && TokenName(TrimSpace(token)) == name
  }

  predicate IsLast(tokens: seq<string>, k: int, name: string) {
    0 <= k < |tokens| && Decides(tokens[k], name) && forall j :: k < j < |tokens| ==> !Decides(tokens[j], name)
  }

  lemma {:induction false} LastThatDecides(tokens: seq<string>, name: string)
    ensures LastSetting(SpotinstTokens(tokens), name).None? <==>
      forall k :: 0 <= k < |tokens| ==> !Decides(tokens[k], name)
    ensures forall k :: IsLast(tokens, k, name) ==>
      LastSetting(SpotinstTokens(tokens), name) == Some(TrimSpace(tokens[k])[0] != '-')
    decreases |tokens|
  {
    hide Contains, TrimSpace, TokenName;
    if tokens != [] {
      var n := |tokens| - 1;
      var front := tokens[..n];
      LastThatDecides(front, name);
      MoreTokens(tokens, n);
      assert tokens[..n + 1] == tokens;
      assert forall k :: 0 <= k < n ==> front[k] == tokens[k];
      if Contains(tokens[n], SPOTINST) {
        LastSettingNext(SpotinstTokens(front), TrimSpace(tokens[n]), name);
      }
    }
  }

  lemma LastSettingNext(tokens: seq<string>, token: string, name: string)
    ensures LastSetting(tokens + [token], name) ==
      if token != [] && TokenName(token) == name then Some(token[0] != '-') else LastSetting(tokens, name)
  {
    assert (tokens + [token])[..|tokens|] == tokens;
  }

  /** Every flag after a call that reports no error, in terms of the list of the control plane alone:
      the last of its tokens that counts and names the flag decides; if there is none, Spotinst
      itself is on exactly if it is enabled, the other three are off, and any other flag is as it was. */
  lemma FlagSpelledOut(flags: FlagTable, spot: SpotInst, name: string, k: nat)
    ensures var after, tokens := SpotinstFlagsAfter(flags, spot, true, true), Split(spot.featureFlags, ',');
            && (spot.enabled && IsLast(tokens, k, name) ==> Flag(after, name) == (TrimSpace(tokens[k])[0] != '-'))
            && (!spot.enabled || (forall j :: 0 <= j < |tokens| ==> !Decides(tokens[j], name)) ==>
                  Flag(after, name) ==
                    if name == "Spotinst" then spot.enabled
                    else if name in {"SpotinstOcean", "SpotinstHybrid", "SpotinstController"} then false
                    else Flag(flags, name))
  {
    hide Contains, TrimSpace, Split, SpotinstFlagsAfter, Decides, SpotinstTokens;
    FlagAfter(flags, spot, true, true, name);
    if spot.enabled {
      var tokens := Split(spot.featureFlags, ',');
      LastThatDecides(tokens, name);
      EmptyList(spot.featureFlags);
      LastSettingAfterFirst(SPOTINST, Settings(spot, true, true)[1..], name);
      OnlyImplicit(name);
    }
  }

  lemma EmptyList(list: string)
    ensures list == [] ==> SpotinstTokens(Split(list, ',')) == []
  {
    NotContained([], SPOTINST);
    if list == [] {
      assert Split(list, ',')[1..] == [];
    }
  }

  lemma OnlyImplicit(name: string)
    ensures LastSetting([SPOTINST], name) == if name == SPOTINST then Some(true) else None
  {
    assert [SPOTINST][..0] == [];
  }

  // ---------------------------------------------------------------- what ends up set

  /** Every flag after the call: the last token in force decides; failing that, the four reset
      flags are off and any other flag is what an earlier worker left. */
  lemma FlagAfter(flags: FlagTable, spot: SpotInst, token: bool, account: bool, name: string)
    ensures Flag(SpotinstFlagsAfter(flags, spot, token, account), name)
         == (match LastSetting(Settings(spot, token, account), name)
             case Some(v) => v
             case None => !IsReset(name) && Flag(flags, name))
  {
    ResetEffect(flags);
    LastTokenWins(ParseFlags(flags, RESET_LIST), Settings(spot, token, account), name);
  }

  lemma SettingsMentionSpotinst(tokens: seq<string>, name: string)
    requires LastSetting(SpotinstTokens(tokens), name).Some?
    ensures Contains(name, SPOTINST)
    decreases |tokens|
  {
    if tokens != [] {
      var n := |tokens| - 1;
      MoreTokens(tokens, n);
      assert tokens[..n + 1] == tokens;
      var prefix := SpotinstTokens(tokens[..n]);
      if Contains(tokens[n], SPOTINST) {
        var t := TrimSpace(tokens[n]);
        assert SpotinstTokens(tokens) == prefix + [t];
        assert (prefix + [t])[..|prefix|] == prefix;
        if t != [] && TokenName(t) == name {
          TokenMentions(tokens[n]);
        } else {
          SettingsMentionSpotinst(tokens[..n], name);
        }
      } else {
        SettingsMentionSpotinst(tokens[..n], name);
      }
    }
  }

  lemma TokenMentions(token: string)
    requires Contains(token, SPOTINST)
    ensures Contains(TokenName(TrimSpace(token)), SPOTINST)
  {
    ContainsTrimmed(token, SPOTINST);
    var t := TrimSpace(token);
    if t != [] && (t[0] == '+' || t[0] == '-') {
      ContainsTail(t, SPOTINST);
    }
  }

  lemma ResetMention(name: string)
    requires IsReset(name)
    ensures Contains(name, SPOTINST)
  {
    assert OccursAt(name, SPOTINST, 0);
  }

  lemma SettingMentions(spot: SpotInst, token: bool, account: bool, name: string)
    requires LastSetting(Settings(spot, token, account), name).Some?
    ensures Contains(name, SPOTINST)
  {
    var tokens := Settings(spot, token, account)[1..];
    assert Settings(spot, token, account) == [SPOTINST] + tokens;
    LastSettingAfterFirst(SPOTINST, tokens, name);
    if LastSetting(tokens, name).Some? {
      SettingsMentionSpotinst(Split(spot.featureFlags, ','), name);
    } else {
      ResetMention(SPOTINST);
      assert [SPOTINST][..0] == [];
    }
  }

  /** A flag whose name does not mention Spotinst is out of reach of the user's list. */
  lemma OtherFlagsKept(flags: FlagTable, spot: SpotInst, token: bool, account: bool, name: string)
    requires !Contains(name, SPOTINST)
    ensures Flag(SpotinstFlagsAfter(flags, spot, token, account), name) == Flag(flags, name)
  {
    FlagAfter(flags, spot, token, account, name);
    if IsReset(name) {
      ResetMention(name);
    }
    if LastSetting(Settings(spot, token, account), name).Some? {
      SettingMentions(spot, token, account, name);
    }
  }

  lemma LastSettingAfterFirst(first: string, tokens: seq<string>, name: string)
    ensures LastSetting([first] + tokens, name)
         == if LastSetting(tokens, name).Some? then LastSetting(tokens, name) else LastSetting([first], name)
    decreases |tokens|
  {
    if tokens != [] {
      var n := |tokens| - 1;
      assert ([first] + tokens)[..n + 1] == [first] + tokens[..n];
      LastSettingAfterFirst(first, tokens[..n], name);
    } else {
      assert [first] + tokens == [first];
    }
  }

  /** On the normal path the five flags the kops library consults are a function of this control
      plane alone, whatever earlier workers left in the table. */
  lemma FlagsAreOwn(flags: FlagTable, karpenter: bool, spot: SpotInst, token: bool, account: bool)
    ensures View(SpotinstFlagsAfter(KarpenterFlagAfter(flags, karpenter), spot, token, account))
         == Wanted(karpenter, spot, token, account)
  {
    KarpenterFlagValue(flags, karpenter);
    SpotinstFlagsAreOwn(KarpenterFlagAfter(flags, karpenter), spot, token, account);
  }

  lemma SpotinstFlagsAreOwn(flags: FlagTable, spot: SpotInst, token: bool, account: bool)
    ensures View(SpotinstFlagsAfter(flags, spot, token, account))
         == Wanted(Flag(flags, "Karpenter"), spot, token, account)
  {
    FlagAfter(flags, spot, token, account, SPOTINST);
    FlagAfter(flags, spot, token, account, OCEAN);
    FlagAfter(flags, spot, token, account, HYBRID);
    FlagAfter(flags, spot, token, account, CONTROLLER);
    NotContained("Karpenter", SPOTINST);
    OtherFlagsKept(flags, spot, token, account, "Karpenter");
  }

  lemma KarpenterFlagValue(flags: FlagTable, enabled: bool)
    ensures Flag(KarpenterFlagAfter(flags, enabled), "Karpenter") == enabled
  {
    KarpenterOff(flags);
    if enabled {
      KarpenterOn(ParseFlags(flags, "-Karpenter"));
    }
  }

  lemma KarpenterOff(flags: FlagTable)
    ensures Flag(ParseFlags(flags, "-Karpenter"), "Karpenter") == false
  {
    PlainToken("-Karpenter");
    OneToken(flags, "-Karpenter");
    hide Split, TrimSpace;
    assert "-Karpenter"[1..] == "Karpenter";
  }

  lemma KarpenterOn(flags: FlagTable)
    ensures Flag(ParseFlags(flags, "Karpenter"), "Karpenter") == true
  {
    PlainToken("Karpenter");
    OneToken(flags, "Karpenter");
    hide Split, TrimSpace;
  }

  /** The value of a flag does not depend on the table the call found. */
  ghost predicate Independent(spot: SpotInst, token: bool, account: bool, name: string) {
    forall f: FlagTable, g: FlagTable ::
      Flag(SpotinstFlagsAfter(f, spot, token, account), name) == Flag(SpotinstFlagsAfter(g, spot, token, account), name)
  }

  /** Exactly which flags are free of other clusters' settings: the four that are reset and
      those this control plane's own tokens name. */
  lemma LeakExactly(spot: SpotInst, token: bool, account: bool, name: string)
    ensures Independent(spot, token, account, name)
       <==> IsReset(name) || LastSetting(Settings(spot, token, account), name).Some?
  {
    forall f: FlagTable, g: FlagTable
      ensures IsReset(name) || LastSetting(Settings(spot, token, account), name).Some? ==>
        Flag(SpotinstFlagsAfter(f, spot, token, account), name) ==
          Flag(SpotinstFlagsAfter(g, spot, token, account), name)
    {
      FlagAfter(f, spot, token, account, name);
      FlagAfter(g, spot, token, account, name);
    }
    var on: FlagTable := map[name := true];
    var off: FlagTable := map[name := false];
    FlagAfter(on, spot, token, account, name);
    FlagAfter(off, spot, token, account, name);
  }

  /** A Spotinst flag outside the reset list stays on for every later cluster that does not
      name it: after one cluster has asked for SpotinstOceanTemplate, one without any Spotinst
      settings still runs with it. */
  lemma UnresetFlagLeaks(flags: FlagTable)
    ensures exists a: SpotInst, b: SpotInst, name: string ::
      !b.enabled && Flag(SpotinstFlagsAfter(SpotinstFlagsAfter(flags, a, true, true), b, true, true), name)
  {
    var name := SPOTINST + "OceanTemplate";
    LeakingName();
    LastSettingAfterFirst(SPOTINST, [name], name);
    var a := SpotInst(true, name);
    var b := SpotInst(false, []);
    FlagAfter(flags, a, true, true, name);
    FlagAfter(SpotinstFlagsAfter(flags, a, true, true), b, true, true, name);
  }

  lemma LeakingName()
    ensures var name := SPOTINST + "OceanTemplate";
            !IsReset(name) && SpotinstTokens(Split(name, ',')) == [name] && name[0] == 'S'
  {
    var name := SPOTINST + "OceanTemplate";
    SplitWhole(name, ',');
    assert OccursAt(name, SPOTINST, 0);
    TrimTrimmed(name);
    OneSpotinstToken(name);
  }

  lemma OneSpotinstToken(token: string)
    requires Contains(token, SPOTINST)
    ensures SpotinstTokens([token]) == [TrimSpace(token)]
  {
    assert [token][1..] == [];
  }
}
