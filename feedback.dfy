/** The feedback definitions (src/feedback.ts): the dropdown filters over the registry, the
    callbacks' comparisons with JavaScript's coercions, and the module-level definitions table
    that `GetFeedbacksList` fills. */
module Feedback {
  import opened Strings
  import opened Ember
  import opened Normalize
  import opened Tables

  // ---------------------------------------------------------------------------------------------
  // Dropdown filters

  /** The label filters the dropdowns apply to the registry. */
  datatype LabelFilter =
    | Numeric              // labels ending in Volume, Gain or Pan
    | Toggle               // labels ending in one of the on/off parameter names
    | SourceOf(parent: string)  // labels of the parent's Source parameters
    | HPFOf(parent: string)     // labels of the parent's HPF parameters

  predicate Keeps(f: LabelFilter, lbl: string) {
    match f
    case Numeric => EndsWith(lbl, "Volume") || EndsWith(lbl, "Gain") || EndsWith(lbl, "Pan")
    case Toggle =>
      EndsWith(lbl, "Mute") || EndsWith(lbl, "Phase") || EndsWith(lbl, "Phantom") || EndsWith(lbl, "Link")
      || EndsWith(lbl, "Limiter") || EndsWith(lbl, "MON") || EndsWith(lbl, "PFL") || EndsWith(lbl, "Solo")
      || EndsWith(lbl, "Stereo") || EndsWith(lbl, "Mono") || EndsWith(lbl, "Generator")
    case SourceOf(parent) => Contains(lbl, parent) && EndsWith(lbl, "Source")
    case HPFOf(parent) => Contains(lbl, parent) && EndsWith(lbl, "HPF")
  }

  /** The registry's labels that `keep` accepts, in registry order (`map` then `filter`). */
  function Filtered(registry: seq<MonitoredParameter>, keep: string -> bool): (r: seq<string>)
    ensures |r| <= |registry|
    ensures forall k :: 0 <= k < |r| ==> keep(r[k])
  {
    if registry == [] then []
    else
      var lbl := registry[0].dottedLabel;
      (if keep(lbl) then [lbl] else []) + Filtered(registry[1..], keep)
  }

  /** `config.monitoredParameters?.map(...).filter(...) ?? []` */
  function Choices(registry: Option<seq<MonitoredParameter>>, f: LabelFilter): seq<string> {
    match registry
    case None => []
    case Some(entries) => Filtered(entries, lbl => Keeps(f, lbl))
  }

  /** Filtering distributes over concatenation, so the choices keep the registry's order. */
  lemma {:induction false} FilteredAppend(a: seq<MonitoredParameter>, b: seq<MonitoredParameter>, keep: string -> bool)
    ensures Filtered(a + b, keep) == Filtered(a, keep) + Filtered(b, keep)
  {
    if a == [] {
      assert a + b == b;
    } else {
      FilteredAppend(a[1..], b, keep);
      assert (a + b)[0] == a[0] && (a + b)[1..] == a[1..] + b;
      var head := if keep(a[0].dottedLabel) then [a[0].dottedLabel] else [];
      calc {
        Filtered(a + b, keep);
        head + Filtered(a[1..] + b, keep);
        head + (Filtered(a[1..], keep) + Filtered(b, keep));
        (head + Filtered(a[1..], keep)) + Filtered(b, keep);
        Filtered(a, keep) + Filtered(b, keep);
      }
    }
  }

  /** A label is offered exactly when some registry entry has it and `keep` accepts it. */
  lemma {:induction false} FilteredMembers(registry: seq<MonitoredParameter>, keep: string -> bool, lbl: string)
    ensures lbl in Filtered(registry, keep) <==>
      keep(lbl) && exists k :: 0 <= k < |registry| && registry[k].dottedLabel == lbl
  {
    if registry != [] {
      FilteredMembers(registry[1..], keep, lbl);
      if exists k :: 0 <= k < |registry| && registry[k].dottedLabel == lbl {
        var k :| 0 <= k < |registry| && registry[k].dottedLabel == lbl;
        if k > 0 {
          assert registry[1..][k - 1] == registry[k];
        }
      }
      if exists k :: 0 <= k < |registry[1..]| && registry[1..][k].dottedLabel == lbl {
        var k :| 0 <= k < |registry[1..]| && registry[1..][k].dottedLabel == lbl;
        assert registry[k + 1].dottedLabel == lbl;
      }
    }
  }

  /** The choices offered from a registry are exactly its labels the filter keeps; none are
      offered before there is a registry. */
  lemma ChoicesMembers(registry: Option<seq<MonitoredParameter>>, f: LabelFilter, lbl: string)
    ensures registry.None? ==> Choices(registry, f) == []
    ensures registry.Some? ==> (lbl in Choices(registry, f) <==>
      Keeps(f, lbl) && exists k :: 0 <= k < |registry.value| && registry.value[k].dottedLabel == lbl)
  {
    if registry.Some? {
      FilteredMembers(registry.value, lbl => Keeps(f, lbl), lbl);
    }
  }

  /** Registering a parameter whose label the filter keeps adds it as the last choice; any other
      registration leaves the choices as they were. */
  lemma ChoicesAfterRegistration(registry: seq<MonitoredParameter>, entry: MonitoredParameter, f: LabelFilter)
    ensures Keeps(f, entry.dottedLabel) ==>
      Choices(Some(registry + [entry]), f) == Choices(Some(registry), f) + [entry.dottedLabel]
    ensures !Keeps(f, entry.dottedLabel) ==>
      Choices(Some(registry + [entry]), f) == Choices(Some(registry), f)
  {
    var keep := lbl => Keeps(f, lbl);
    FilteredAppend(registry, [entry], keep);
    assert Filtered([entry], keep) == (if keep(entry.dottedLabel) then [entry.dottedLabel] else []) + Filtered([], keep);
  }

  // ---------------------------------------------------------------------------------------------
  // Callbacks

  /** The number a variable value becomes in an arithmetic comparison. `VScaled` is left out: it
      is compared exactly by the callers. */
  function NumberOf(v: Value): Num
    requires !v.VScaled?
  {
    match v
    case VInt(i) => Int(i)
    case VBool(b) => Int(if b then 1 else 0)
    case VText(s) => ParseNumber(s)
  }

  /** `value == n` with JavaScript's loose equality, `value` the variable's value (`undefined`
      when absent) and `n` an integer. A scaled value is not integral, so it never equals one. */
  predicate LooseEqualsNumber(v: Option<Value>, n: int) {
    match v
    case None => false
    case Some(VScaled(_, _)) => false
    case Some(x) => NumberOf(x) == Int(n)
  }

  /** `value > t` for an integer threshold; an absent value (NaN) compares false. */
  predicate AboveThreshold(v: Option<Value>, t: int) {
    match v
    case None => false
    case Some(VScaled(raw, factor)) =>
      (factor > 0 && raw > t * factor) || (factor < 0 && raw < t * factor)
    case Some(x) => Gt(NumberOf(x), t)
  }

  /** `value < t` for an integer threshold; an absent value (NaN) compares false. */
  predicate UnderThreshold(v: Option<Value>, t: int) {
    match v
    case None => false
    case Some(VScaled(raw, factor)) =>
      (factor > 0 && raw < t * factor) || (factor < 0 && raw > t * factor)
    case Some(x) => Lt(NumberOf(x), t)
  }

  /** The `parameter` feedback: the variable loosely equals the configured number. */
  predicate ParameterEquals(v: Option<Value>, n: int) {
    LooseEqualsNumber(v, n)
  }

  /** The `toggleEqual,` feedback: loose equality with a boolean compares with 1 or 0. */
  predicate ToggleEquals(v: Option<Value>, b: bool) {
    LooseEqualsNumber(v, if b then 1 else 0)
  }

  /** The `hitThreshold` feedback. */
  predicate HitThreshold(v: Option<Value>, t: int) {
    AboveThreshold(v, t)
  }

  /** The `belowThreshold` feedback. */
  predicate BelowThreshold(v: Option<Value>, t: int) {
    UnderThreshold(v, t)
  }

  /** Both threshold feedbacks are strict: a value equal to the threshold hits neither, no value
      hits both, and a value that reads as a finite number and equals neither side's comparison
      equals the threshold. */
  lemma ThresholdsStrict(v: Option<Value>, t: int)
    ensures ParameterEquals(v, t) ==> !HitThreshold(v, t) && !BelowThreshold(v, t)
    ensures !(HitThreshold(v, t) && BelowThreshold(v, t))
    ensures v.Some? && !v.value.VScaled? && NumberOf(v.value).Int?
      ==> (ParameterEquals(v, t) <==> !HitThreshold(v, t) && !BelowThreshold(v, t))
  {
    if v.Some? && v.value.VScaled? {
      var raw, factor := v.value.raw, v.value.factor;
      if factor > 0 {
        assert !(raw > t * factor && raw < t * factor);
      }
    }
  }

  /** A boolean parameter's toggle feedback is plain equality; the text "true" does not loosely
      equal `true`, while the text "1" does. */
  lemma ToggleEqualsBool(x: bool, b: bool)
    ensures ToggleEquals(Some(VBool(x)), b) <==> x == b
    ensures !ToggleEquals(Some(VText("true")), true)
    ensures ToggleEquals(Some(VText("1")), true)
  {
    assert !AllDigits("true") by { assert !IsDigit("true"[0]); }
    assert "true" != "Infinity" && "true" != "-Infinity";
    assert AllDigits("1");
    assert DigitsValue("1") == DigitsValue("1"[..0]) * 10 + 1;
  }

  /** `list[index]` for a number index: undefined unless the index is an integer in range (there
      is no wrap-around here, unlike `at`). */
  function Entry(list: seq<string>, index: Num): (r: Option<string>)
    ensures r.Some? <==> index.Int? && 0 <= index.i < |list|
    ensures r.Some? ==> r.value == list[index.i]
  {
    if index.Int? && 0 <= index.i < |list| then Some(list[index.i]) else None
  }

  /** The expected source text of the `SourceEqual` feedback: the headphone list when the parent
      mentions HP, the list is not empty and the index is below its length; otherwise the input
      processing list under the same conditions; otherwise the output list; otherwise undefined. */
  function SourceExpected(parent: string, lists: ChoiceLists, index: Num): (r: Option<string>)
    ensures r.Some? ==> r.value in lists.hp || r.value in lists.inputProc || r.value in lists.outputs
    ensures Contains(parent, "HP") && index.Int? && 0 <= index.i < |lists.hp| ==> r == Some(lists.hp[index.i])
    ensures !Contains(parent, "HP") && !Contains(parent, "InputProcessing") ==> r == Entry(lists.outputs, index)
    ensures index.Int? && 0 <= index.i && !(Contains(parent, "HP") && index.i < |lists.hp|)
      && Contains(parent, "InputProcessing") && index.i < |lists.inputProc|
      ==> r == Some(lists.inputProc[index.i])
    ensures index.Int? && 0 <= index.i && !(Contains(parent, "HP") && index.i < |lists.hp|)
      && !(Contains(parent, "InputProcessing") && index.i < |lists.inputProc|)
      ==> r == Entry(lists.outputs, index)
    ensures !(index.Int? && 0 <= index.i) ==> r.None?
    ensures index.Int? && index.i >= |lists.hp| && index.i >= |lists.inputProc| && index.i >= |lists.outputs| ==> r.None?
  {
    if Contains(parent, "HP") && |lists.hp| > 0 && Lt(index, |lists.hp|) then Entry(lists.hp, index)
    else if Contains(parent, "InputProcessing") && |lists.inputProc| > 0 && Lt(index, |lists.inputProc|)
    then Entry(lists.inputProc, index)
    else if |lists.outputs| > 0 && Lt(index, |lists.outputs|) then Entry(lists.outputs, index)
    else None
  }

  /** A headphone index past the end of the headphone list falls through to the output list (for
      a parent that does not mention InputProcessing); a negative index is undefined at once. */
  lemma SourceFallsThrough(parent: string, lists: ChoiceLists, k: int)
    requires Contains(parent, "HP") && !Contains(parent, "InputProcessing")
    ensures k >= |lists.hp| ==> SourceExpected(parent, lists, Int(k)) == Entry(lists.outputs, Int(k))
    ensures k < 0 ==> SourceExpected(parent, lists, Int(k)).None?
  {
  }

  /** The expected value of the `HPFEqual` feedback: the high-pass entry at the index, if any. */
  function HPFExpected(hpf: seq<string>, index: Num): (r: Option<string>)
    ensures r.Some? <==> index.Int? && 0 <= index.i < |hpf|
    ensures r.Some? ==> r.value == hpf[index.i]
  {
    if |hpf| > 0 && Lt(index, |hpf|) then Entry(hpf, index) else None
  }

  /** `value == expected` for a variable value and an expected text or undefined: undefined equals
      only an absent value; a number or boolean is compared with the number the text reads as. The
      decimal text of a scaled value is not modelled, so it is taken as different. */
  predicate LooseEqualsText(v: Option<Value>, e: Option<string>) {
    match (v, e)
    case (None, None) => true
    case (None, Some(_)) => false
    case (Some(_), None) => false
    case (Some(VText(s)), Some(t)) => s == t
    case (Some(VInt(i)), Some(t)) => ParseNumber(t) == Int(i)
    case (Some(VBool(b)), Some(t)) => ParseNumber(t) == Int(if b then 1 else 0)
    case (Some(VScaled(_, _)), Some(_)) => false
  }

  /** The `SourceEqual` feedback of an interface. */
  predicate SourceEquals(v: Option<Value>, parent: string, lists: ChoiceLists, index: Num) {
    LooseEqualsText(v, SourceExpected(parent, lists, index))
  }

  /** The `HPFEqual` feedback of an interface. */
  predicate HPFEquals(v: Option<Value>, hpf: seq<string>, index: Num) {
    LooseEqualsText(v, HPFExpected(hpf, index))
  }

  /** With no variable and no expected entry both sides are undefined, so the feedback is on; a
      text variable matches exactly the entry at the index. */
  lemma HPFEqualsCases(s: string, hpf: seq<string>, index: Num)
    ensures HPFEquals(None, hpf, index) <==> !(index.Int? && 0 <= index.i < |hpf|)
    ensures HPFEquals(Some(VText(s)), hpf, index) <==> index.Int? && 0 <= index.i < |hpf| && hpf[index.i] == s
  {
  }

  // ---------------------------------------------------------------------------------------------
  // Definitions

  /** Which feedback a definition is, with the parent of an interface feedback. */
  datatype FeedbackKind =
    | ParameterEqualsKind | ToggleEqualsKind | HitThresholdKind | BelowThresholdKind
    | SourceEqualKind(parent: string) | HPFEqualKind(parent: string)

  /** A definition as far as the core builds it: its kind, the labels its path dropdown offers and
      the entries its value dropdown offers. */
  datatype FeedbackDef = FeedbackDef(kind: FeedbackKind, paths: seq<string>, values: seq<string>)

  /** A table entry: a key and a definition or `undefined`. */
  type FeedbackEntry = (string, Option<FeedbackDef>)

  /** `GetFeedbacksGeneral`: the four general feedbacks, in declaration order. */
  function GeneralEntries(registry: Option<seq<MonitoredParameter>>): (r: seq<FeedbackEntry>)
    ensures |r| == 4 && forall k :: 0 <= k < 4 ==> r[k].1.Some?
  {
    [("parameter", Some(FeedbackDef(ParameterEqualsKind, Choices(registry, Numeric), []))),
     ("toggleEqual,", Some(FeedbackDef(ToggleEqualsKind, Choices(registry, Toggle), []))),
     ("hitThreshold", Some(FeedbackDef(HitThresholdKind, Choices(registry, Numeric), []))),
     ("belowThreshold", Some(FeedbackDef(BelowThresholdKind, Choices(registry, Numeric), [])))]
  }

  /** The value dropdown of a `SourceEqual` feedback: the headphone, input processing or output
      list, chosen by the parent. */
  function SourceValues(parent: string, lists: ChoiceLists): seq<string> {
    if Contains(parent, "HP") then lists.hp
    else if Contains(parent, "InputProcessing") then lists.inputProc
    else lists.outputs
  }

  /** `GetFeedbacksforInterface`: the `SourceEqual` key, defined unless the parent mentions Mic,
      and the `HPFEqual` key, defined only when it does. */
  function InterfaceEntries(registry: Option<seq<MonitoredParameter>>, lists: ChoiceLists, parent: string)
    : seq<FeedbackEntry>
  {
    [("Feedback" + parent + "SourceEqual",
      if !Contains(parent, "Mic")
      then Some(FeedbackDef(SourceEqualKind(parent), Choices(registry, SourceOf(parent)), SourceValues(parent, lists)))
      else None),
     ("Feedback" + parent + "HPFEqual",
      if Contains(parent, "Mic")
      then Some(FeedbackDef(HPFEqualKind(parent), Choices(registry, HPFOf(parent)), lists.hpf))
      else None)]
  }

  /** Both interface keys are always present; exactly one of them is defined. */
  lemma InterfaceGating(registry: Option<seq<MonitoredParameter>>, lists: ChoiceLists, parent: string)
    ensures var r := InterfaceEntries(registry, lists, parent);
      |r| == 2 && r[0].0 == "Feedback" + parent + "SourceEqual" && r[1].0 == "Feedback" + parent + "HPFEqual"
      && (r[0].1.Some? <==> !Contains(parent, "Mic"))
      && (r[1].1.Some? <==> Contains(parent, "Mic"))
      && (r[0].1.Some? <==> r[1].1.None?)
  {
  }

  /** What one `if (toggle)` of `GetFeedbacksList` writes: the interface's feedbacks when the
      toggle is on, nothing otherwise. */
  function Group(enabled: bool, registry: Option<seq<MonitoredParameter>>, lists: ChoiceLists, parent: string)
    : seq<FeedbackEntry>
  {
    if enabled then InterfaceEntries(registry, lists, parent) else []
  }

  /** Everything `GetFeedbacksList` writes, in order: the general feedbacks, then the interface
      feedbacks of headphones, input processing, output processing and microphones when enabled. */
  function Entries(c: Config, registry: Option<seq<MonitoredParameter>>, lists: ChoiceLists): seq<FeedbackEntry> {
    GeneralEntries(registry)
    + Group(c.hpOut, registry, lists, "HP")
    + Group(c.inputProc, registry, lists, "InputProcessing")
    + Group(c.outputProc, registry, lists, "OutputProcessing")
    + Group(c.micIn, registry, lists, "Mic")
  }

  // ---------------------------------------------------------------------------------------------
  // The definitions table

  /** The module-level table `curr_feedbacks`: its definitions and its keys in insertion order
      (the order `Object.entries` yields them). */
  class FeedbackTable {
    var defs: map<string, Option<FeedbackDef>>
    var keys: seq<string>

    ghost predicate Valid()
      reads this
    {
      Distinct(keys) && forall k :: k in defs <==> k in keys
    }

    constructor ()
      ensures Valid() && defs == map[] && keys == []
    {
      defs := map[];
      keys := [];
    }

    /** One `for (const [key, value] of Object.entries(...)) curr_feedbacks[key] = value` loop. */
    method PutAll(entries: seq<FeedbackEntry>)
      requires Valid()
      modifies this
      ensures Valid()
      ensures defs == Store(old(defs), entries) && keys == StoreOrder(old(keys), entries)
    {
      StoreOrderValid(keys, defs, entries);
      defs, keys := WriteAll(defs, keys, entries);
    }

    /** `GetFeedbacksList`: writes the general feedbacks and those of every enabled interface into
        the table; keys from earlier calls stay. */
    method GetFeedbacksList(c: Config, registry: Option<seq<MonitoredParameter>>, lists: ChoiceLists)
      requires Valid()
      modifies this
      ensures Valid()
      ensures defs == Store(old(defs), Entries(c, registry, lists))
      ensures keys == StoreOrder(old(keys), Entries(c, registry, lists))
    {
      ghost var d0, k0 := defs, keys;
      var general := GeneralEntries(registry);
      PutAll(general);
      ghost var written := general;
      PutGroup(c.hpOut, registry, lists, "HP", d0, k0, written);
      written := written + Group(c.hpOut, registry, lists, "HP");
      PutGroup(c.inputProc, registry, lists, "InputProcessing", d0, k0, written);
      written := written + Group(c.inputProc, registry, lists, "InputProcessing");
      PutGroup(c.outputProc, registry, lists, "OutputProcessing", d0, k0, written);
      written := written + Group(c.outputProc, registry, lists, "OutputProcessing");
      PutGroup(c.micIn, registry, lists, "Mic", d0, k0, written);
    }

    /** One `if (toggle) for (...) curr_feedbacks[key] = value` of `GetFeedbacksList`, on a table
        that holds `d0` and `k0` with `written` written onto them. */
    method PutGroup(enabled: bool, registry: Option<seq<MonitoredParameter>>, lists: ChoiceLists, parent: string,
                    ghost d0: map<string, Option<FeedbackDef>>, ghost k0: seq<string>, ghost written: seq<FeedbackEntry>)
      requires Valid() && defs == Store(d0, written) && keys == StoreOrder(k0, written)
      modifies this
      ensures Valid()
      ensures defs == Store(d0, written + Group(enabled, registry, lists, parent))
      ensures keys == StoreOrder(k0, written + Group(enabled, registry, lists, parent))
    {
      var part := Group(enabled, registry, lists, parent);
      if enabled {
        PutAll(part);
      }
      StoreAppend(k0, d0, written, part);
    }
  }
}
