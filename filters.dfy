/** The filter rules compiled from the configuration and the per-child decisions the tree walk
    takes with them (src/index.ts, setupParseFilters and handleEmberTreeParsing). */
module Filters {
  import opened Strings
  import opened Ember

  const SnapshotPath := "System.Snapshot"

  /** The segments of a rule: its path split on '.'; joined with '.' they give the path back. */
  function Elements(rule: FilterRule): (r: seq<string>)
    ensures |r| >= 1 && Join(r, '.') == rule.path
  {
    JoinSplit(rule.path, '.');
    Split(rule.path, '.')
  }

  /** The rule an area contributes: one rule for an enabled area, none otherwise. */
  function RuleIf(enabled: bool, path: string): (r: seq<FilterRule>)
    ensures |r| == (if enabled then 1 else 0)
  {
    if enabled then [FilterRule(path)] else []
  }

  /** The rule list `setupParseFilters` builds: the snapshot rule, then one rule for each enabled
      area, in a fixed order. */
  function CompileFilters(c: Config): seq<FilterRule> {
    [FilterRule(SnapshotPath)]
      + RuleIf(c.micIn, "Audio.Inputs.Mic") + RuleIf(c.analogOut, "Audio.Outputs.Analog")
      + RuleIf(c.aes3In, "Audio.Inputs.AESEBU") + RuleIf(c.aes3Out, "Audio.Outputs.AESEBU")
      + RuleIf(c.aoipIn, "Audio.Inputs.AoIP") + RuleIf(c.aoipOut, "Audio.Outputs.AoIP")
      + RuleIf(c.hpOut, "Audio.Outputs.HP") + RuleIf(c.inputProc, "Audio.Processing.InputProcessing")
      + RuleIf(c.outputProc, "Audio.Processing.OutputProcessing") + RuleIf(c.mixMatrix, "Audio.MixMatrix.Bus")
  }

  /** The number of enabled areas. */
  function EnabledCount(c: Config): nat {
    (if c.micIn then 1 else 0) + (if c.analogOut then 1 else 0) + (if c.aes3In then 1 else 0)
    + (if c.aes3Out then 1 else 0) + (if c.aoipIn then 1 else 0) + (if c.aoipOut then 1 else 0)
    + (if c.hpOut then 1 else 0) + (if c.inputProc then 1 else 0) + (if c.outputProc then 1 else 0)
    + (if c.mixMatrix then 1 else 0)
  }

  /** The compiled list starts with the snapshot rule and has one more rule than there are enabled
      areas; every rule's segments join back to its path. */
  lemma CompileFiltersShape(c: Config)
    ensures |CompileFilters(c)| == 1 + EnabledCount(c)
    ensures CompileFilters(c)[0].path == SnapshotPath
    ensures forall k :: 0 <= k < |CompileFilters(c)| ==> Join(Elements(CompileFilters(c)[k]), '.') == CompileFilters(c)[k].path
  {
  }

  /** With every toggle on, all eleven rules are compiled in the fixed order. */
  lemma CompileFiltersAll(c: Config)
    requires EnabledCount(c) == 10
    ensures CompileFilters(c) == [FilterRule(SnapshotPath),
      FilterRule("Audio.Inputs.Mic"), FilterRule("Audio.Outputs.Analog"),
      FilterRule("Audio.Inputs.AESEBU"), FilterRule("Audio.Outputs.AESEBU"),
      FilterRule("Audio.Inputs.AoIP"), FilterRule("Audio.Outputs.AoIP"),
      FilterRule("Audio.Outputs.HP"), FilterRule("Audio.Processing.InputProcessing"),
      FilterRule("Audio.Processing.OutputProcessing"), FilterRule("Audio.MixMatrix.Bus")]
  {
  }

  // ---------------------------------------------------------------------------------------------
  // Decisions for one child of a branch node

  /** The child's identifier with its first '#' removed. */
  function BareIdentifier(raw: string): string {
    ReplaceFirst(raw, '#')
  }

  /** Sub-areas that are never descended into. */
  predicate Excluded(identifier: string) {
    identifier == "Metering" || identifier == "Compressor" || identifier == "Equalizer"
    || identifier == "Expander" || identifier == "Limiter" || identifier == "Delay"
  }

  /** Whether a rule lets a child with this identifier through at this depth: either the rule's
      segments are used up by the ancestors, or the identifier contains the segment for this depth. */
  predicate RuleMatches(rule: FilterRule, identifier: string, depth: nat) {
    var elements := Elements(rule);
    |elements| <= depth || (depth < |elements| && Contains(identifier, elements[depth]))
  }

  /** The index of the first rule that lets the child through, if any. */
  function FirstMatch(rules: seq<FilterRule>, identifier: string, depth: nat): (r: Option<nat>)
    ensures r.Some? ==> r.value < |rules| && RuleMatches(rules[r.value], identifier, depth)
    ensures r.Some? ==> forall j :: 0 <= j < r.value ==> !RuleMatches(rules[j], identifier, depth)
    ensures r.None? <==> forall j :: 0 <= j < |rules| ==> !RuleMatches(rules[j], identifier, depth)
  {
    if rules == [] then None
    else if RuleMatches(rules[0], identifier, depth) then Some(0)
    else
      assert forall j :: 1 <= j < |rules| ==> rules[j] == rules[1..][j - 1];
      match FirstMatch(rules[1..], identifier, depth)
      case None => None
      case Some(k) => Some(k + 1)
  }

  /** The number after the last '#' of the raw identifier, as `Number` reads it. */
  function BusNumber(raw: string): Num {
    ParseNumber(LastSegment(raw, '#'))
  }

  /** A mix bus outside the configured range, or more than three past its start, is not descended.
      The check applies only when both bounds are truthy and the identifier mentions "Bus"; a
      suffix that is not a number (NaN) fails every comparison and so is never pruned. */
  predicate BusPruned(start: Option<int>, end: Option<int>, identifier: string, raw: string) {
    Contains(identifier, "Bus") && Truthy(start) && Truthy(end) &&
    var n := BusNumber(raw);
    Lt(n, start.value) || Gt(n, end.value) || Gt(Sub(n, start.value), 3)
  }

  /** For a numeric suffix k and truthy bounds, pruning means k outside [start, end] or more than
      three past start: in other words a bus is kept exactly when start <= k <= min(end, start + 3). */
  lemma BusPrunedIff(start: int, end: int, identifier: string, raw: string, k: int)
    requires Contains(identifier, "Bus") && start != 0 && end != 0
    requires BusNumber(raw) == Int(k)
    ensures !BusPruned(Some(start), Some(end), identifier, raw) <==> start <= k <= end && k <= start + 3
  {
  }

  /** The bus number of "Bus#d" for a single digit d is that digit. */
  lemma BusNumberDigit(d: char)
    requires IsDigit(d)
    ensures BusNumber("Bus#" + [d]) == Int(d as int - '0' as int)
  {
    assert "Bus#" + [d] == "Bus" + ['#'] + [d];
    SplitAfterFirst("Bus", [d], '#');
    assert Split([d], '#') == [[d]];
    assert LastSegment("Bus#" + [d], '#') == [d];
    assert [d][..0] == "";
    assert AllDigits([d]);
    assert DigitsValue([d]) == d as int - '0' as int;
  }

  /** For a bus identifier, the range 1..24 keeps buses 1 to 4 only: bus 4 is kept, bus 5 (four
      past the start) and bus 0 (below the start) are pruned; a start of 0 is falsy and switches
      the check off. */
  lemma BusPrunedExamples(bare: string)
    requires Contains(bare, "Bus")
    ensures !BusPruned(Some(1), Some(24), bare, "Bus#4")
    ensures BusPruned(Some(1), Some(24), bare, "Bus#5")
    ensures BusPruned(Some(1), Some(24), bare, "Bus#0")
    ensures !BusPruned(Some(0), Some(24), bare, "Bus#9")
  {
    BusNumberDigit('4');
    BusNumberDigit('5');
    BusNumberDigit('0');
    assert "Bus#" + ['4'] == "Bus#4";
    assert "Bus#" + ['5'] == "Bus#5";
    assert "Bus#" + ['0'] == "Bus#0";
  }

  /** The label of a child: its identifier under an empty parent label, otherwise the parent label,
      a dot and the identifier. */
  function ChildLabel(parent: string, identifier: string): string {
    if parent == "" then identifier else parent + "." + identifier
  }

  /** A child's label extends its parent's, and splitting it on '.' gives the parent's segments
      followed by the identifier (just the identifier under the empty parent label). */
  lemma ChildLabelSegments(parent: string, identifier: string)
    requires '.' !in identifier
    ensures StartsWith(ChildLabel(parent, identifier), parent)
    ensures parent == "" ==> Split(ChildLabel(parent, identifier), '.') == [identifier]
    ensures parent != "" ==> Split(ChildLabel(parent, identifier), '.') == Split(parent, '.') + [identifier]
  {
    if parent == "" {
      assert Split(identifier, '.') == [identifier];
    } else {
      var lbl := parent + "." + identifier;
      assert lbl[..|parent|] == parent;
      var parts := Split(parent, '.');
      JoinSplit(parent, '.');
      JoinSnoc(parts, identifier, '.');
      SplitJoin(parts + [identifier], '.');
    }
  }

  /** A parameter leaf is registered under its label when the label starts with some rule's path,
      the rules tried in order. */
  predicate LeafMatches(rules: seq<FilterRule>, lbl: string) {
    |rules| > 0 && (StartsWith(lbl, rules[0].path) || LeafMatches(rules[1..], lbl))
  }

  /** A leaf matches exactly when some rule's path is a prefix of its label. */
  lemma {:induction false} LeafMatchesIff(rules: seq<FilterRule>, lbl: string)
    ensures LeafMatches(rules, lbl) <==> exists k :: 0 <= k < |rules| && StartsWith(lbl, rules[k].path)
  {
    if |rules| > 0 {
      LeafMatchesIff(rules[1..], lbl);
      if exists k :: 0 <= k < |rules| && StartsWith(lbl, rules[k].path) {
        var k :| 0 <= k < |rules| && StartsWith(lbl, rules[k].path);
        if k > 0 {
          assert rules[1..][k - 1] == rules[k];
        }
      }
      if LeafMatches(rules[1..], lbl) {
        var k :| 0 <= k < |rules[1..]| && StartsWith(lbl, rules[1..][k].path);
        assert StartsWith(lbl, rules[k + 1].path);
      }
    }
  }
}
