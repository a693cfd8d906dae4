/** The parameter discovery and mirroring engine of the module instance (src/index.ts):
    compiling the filter rules, walking the provider's tree, registering matching parameters and
    normalising and publishing their values. The host framework's calls (feedback checks,
    variable values and definitions, change subscriptions) are recorded as logs in the state. */
module Engine {
  import opened Strings
  import opened Ember
  import opened Filters
  import opened Normalize
  import opened Variables

  /** The discovery state the walk changes. */
  datatype EngineState = EngineState(
    registry: seq<MonitoredParameter>,       // config.monitoredParameters
    lists: ChoiceLists,                      // HPSources, InputProcSources, OutputSources, MicHPF
    mirror: map<string, Value>,              // state.parameters
    published: seq<(string, Value)>,         // setVariableValues calls, one variable each
    checks: seq<string>,                     // checkFeedbacks calls
    definitions: seq<VariableDefinition>,    // the latest setVariableDefinitions
    subscriptions: seq<string>)              // labels whose change notifications are subscribed

  /** What the walk reads and does not change: the compiled rules, the mix-bus range and the keys
      of the feedback definitions table. */
  datatype WalkEnv = WalkEnv(rules: seq<FilterRule>, busStart: Option<int>, busEnd: Option<int>, feedbackKeys: seq<string>)

  // ---------------------------------------------------------------------------------------------
  // Specification

  /** `handleChangedValue(path, node)`: for a parameter, capture its choices (when it has an
      enumeration), store its canonical value, re-check every feedback and publish the value. */
  function ChangedValue(st: EngineState, keys: seq<string>, path: string, node: Element): EngineState {
    if !node.Parameter? then st
    else
      var c := node.content;
      var lists := if c.enumeration.Some? then CaptureChoices(st.lists, path, c.enumeration.value) else st.lists;
      var v := Canonical(c);
      st.(lists := lists, mirror := st.mirror[path := v], checks := st.checks + keys,
          published := st.published + [(path, v)])
  }

  /** `_addMonitoredParameter(node, label)`: register the parameter, republish the variable
      definitions, subscribe to its changes and handle its current value. */
  function AddMonitored(st: EngineState, keys: seq<string>, node: Element, dotted: string): EngineState
    requires node.Parameter?
  {
    var registry := st.registry + [MonitoredParameter(node.content.path.GetOr(""), dotted)];
    var st1 := st.(registry := registry, definitions := GetVariablesList(Some(registry)),
                   subscriptions := st.subscriptions + [dotted]);
    ChangedValue(st1, keys, dotted, node)
  }

  /** `handleEmberTreeParsing(node, ids, depth)`: a node visits its children in order; a parameter
      is registered under `ids` when `ids` starts with some rule's path; anything else is ignored. */
  function Walk(st: EngineState, env: WalkEnv, node: Element, ids: string, depth: nat): EngineState
    decreases node, 1
  {
    match node
    case Node(_, _, _, _) => WalkChildren(st, env, node, 0, ids, depth)
    case Parameter(_, _, _) => if LeafMatches(env.rules, ids) then AddMonitored(st, env.feedbackKeys, node, ids) else st
    case Other(_, _) => st
  }

  /** The children of `parent` from index `i` on, each visited in turn. */
  function WalkChildren(st: EngineState, env: WalkEnv, parent: Element, i: nat, ids: string, depth: nat): EngineState
    requires parent.Node? && i <= |parent.children|
    decreases parent, 0, |parent.children| - i
  {
    if i == |parent.children| then st
    else WalkChildren(VisitChild(st, env, parent.children[i], ids, depth), env, parent, i + 1, ids, depth)
  }

  /** One child: skipped when excluded, offline, matched by no rule or pruned as a bus outside the
      range; otherwise walked under its child label one level deeper. */
  function VisitChild(st: EngineState, env: WalkEnv, child: Element, ids: string, depth: nat): EngineState
    decreases child, 2
  {
    var bare := BareIdentifier(child.identifier);
    if Excluded(bare) then st
    else if child.Node? && !child.online then st
    else if FirstMatch(env.rules, bare, depth).None? then st
    else if BusPruned(env.busStart, env.busEnd, bare, child.identifier) then st
    else Walk(st, env, child, ChildLabel(ids, bare), depth + 1)
  }

  // ---------------------------------------------------------------------------------------------
  // Properties

  /** The labels of registry entries, in order. */
  function Labels(registry: seq<MonitoredParameter>): (r: seq<string>)
    ensures |r| == |registry|
  {
    if registry == [] then [] else [registry[0].dottedLabel] + Labels(registry[1..])
  }

  lemma {:induction false} LabelsAppend(a: seq<MonitoredParameter>, b: seq<MonitoredParameter>)
    ensures Labels(a + b) == Labels(a) + Labels(b)
  {
    if a == [] {
      assert a + b == b;
    } else {
      LabelsAppend(a[1..], b);
      assert (a + b)[1..] == a[1..] + b;
    }
  }

  /** The registry only grows at its end, each new entry's label starts with some rule's path, and
      the new labels are subscribed in the same order. */
  predicate RegistryGrows(st: EngineState, st2: EngineState, rules: seq<FilterRule>) {
    IsPrefix(st.registry, st2.registry)
    && NewLabelsMatch(st.registry, st2.registry, rules)
    && st2.subscriptions == st.subscriptions + Labels(st2.registry[|st.registry|..])
  }

  predicate IsPrefix(a: seq<MonitoredParameter>, b: seq<MonitoredParameter>) {
    |a| <= |b| && b[..|a|] == a
  }

  predicate NewLabelsMatch(before: seq<MonitoredParameter>, after: seq<MonitoredParameter>, rules: seq<FilterRule>) {
    forall k :: |before| <= k < |after| ==> LeafMatches(rules, after[k].dottedLabel)
  }

  lemma PrefixTrans(a: seq<MonitoredParameter>, b: seq<MonitoredParameter>, c: seq<MonitoredParameter>)
    requires IsPrefix(a, b) && IsPrefix(b, c)
    ensures IsPrefix(a, c) && c[|a|..] == b[|a|..] + c[|b|..]
  {
    assert c[..|a|] == c[..|b|][..|a|];
    assert c[|a|..] == c[|a|..|b|] + c[|b|..];
    assert c[|a|..|b|] == c[..|b|][|a|..];
  }

  lemma NewLabelsMatchTrans(a: seq<MonitoredParameter>, b: seq<MonitoredParameter>, c: seq<MonitoredParameter>, rules: seq<FilterRule>)
    requires IsPrefix(b, c)
    requires NewLabelsMatch(a, b, rules) && NewLabelsMatch(b, c, rules)
    ensures NewLabelsMatch(a, c, rules)
  {
    forall k | |a| <= k < |c| ensures LeafMatches(rules, c[k].dottedLabel) {
      if k < |b| {
        assert c[k] == c[..|b|][k];
      }
    }
  }

  /** A non-empty choice list is never replaced. */
  predicate ListsKept(a: ChoiceLists, b: ChoiceLists) {
    (a.hp != [] ==> b.hp == a.hp)
    && (a.inputProc != [] ==> b.inputProc == a.inputProc)
    && (a.outputs != [] ==> b.outputs == a.outputs)
    && (a.hpf != [] ==> b.hpf == a.hpf)
  }

  /** Mirror keys are never removed and the publication log only grows. */
  predicate LogsGrow(st: EngineState, st2: EngineState) {
    (forall key :: key in st.mirror ==> key in st2.mirror)
    && |st.published| <= |st2.published| && st2.published[..|st.published|] == st.published
  }

  /** How the state may change during discovery. */
  predicate Evolves(st: EngineState, st2: EngineState, rules: seq<FilterRule>) {
    RegistryGrows(st, st2, rules) && ListsKept(st.lists, st2.lists) && LogsGrow(st, st2)
  }

  /** Every registered label has a mirrored value, and once something is registered the variable
      definitions are those of the whole registry. */
  predicate Consistent(st: EngineState) {
    (forall k :: 0 <= k < |st.registry| ==> st.registry[k].dottedLabel in st.mirror)
    && (st.registry != [] ==> st.definitions == Definitions(st.registry))
  }

  lemma EvolvesRefl(st: EngineState, rules: seq<FilterRule>)
    ensures Evolves(st, st, rules)
  {
    assert st.registry[|st.registry|..] == [];
    assert st.subscriptions + Labels([]) == st.subscriptions;
  }

  lemma RegistryGrowsTrans(s1: EngineState, s2: EngineState, s3: EngineState, rules: seq<FilterRule>)
    requires RegistryGrows(s1, s2, rules) && RegistryGrows(s2, s3, rules)
    ensures RegistryGrows(s1, s3, rules)
  {
    PrefixTrans(s1.registry, s2.registry, s3.registry);
    NewLabelsMatchTrans(s1.registry, s2.registry, s3.registry, rules);
    LabelsAppend(s2.registry[|s1.registry|..], s3.registry[|s2.registry|..]);
  }

  lemma LogsGrowTrans(s1: EngineState, s2: EngineState, s3: EngineState)
    requires LogsGrow(s1, s2) && LogsGrow(s2, s3)
    ensures LogsGrow(s1, s3)
  {
    assert s3.published[..|s1.published|] == s3.published[..|s2.published|][..|s1.published|];
  }

  lemma EvolvesTrans(s1: EngineState, s2: EngineState, s3: EngineState, rules: seq<FilterRule>)
    requires Evolves(s1, s2, rules) && Evolves(s2, s3, rules)
    ensures Evolves(s1, s3, rules)
  {
    RegistryGrowsTrans(s1, s2, s3, rules);
    LogsGrowTrans(s1, s2, s3);
  }

  /** A value change stores the canonical value under the path and publishes exactly that one
      variable, checks every feedback once, fills only empty choice lists and leaves the registry
      and every other mirrored value alone; a non-parameter changes nothing. */
  lemma ChangedValueEffect(st: EngineState, keys: seq<string>, path: string, node: Element, rules: seq<FilterRule>)
    ensures var r := ChangedValue(st, keys, path, node);
      Evolves(st, r, rules) && r.registry == st.registry && r.definitions == st.definitions
      && (Consistent(st) ==> Consistent(r))
    ensures node.Parameter? ==> var r := ChangedValue(st, keys, path, node);
      r.mirror == st.mirror[path := Canonical(node.content)]
      && r.published == st.published + [(path, Canonical(node.content))]
      && r.checks == st.checks + keys
      && (node.content.enumeration.None? ==> r.lists == st.lists)
    ensures !node.Parameter? ==> ChangedValue(st, keys, path, node) == st
  {
    var r := ChangedValue(st, keys, path, node);
    if node.Parameter? && node.content.enumeration.Some? {
      CaptureOnlyFillsEmpty(st.lists, path, node.content.enumeration.value);
    }
    assert r.registry[|st.registry|..] == [];
    assert st.subscriptions + Labels([]) == st.subscriptions;
    assert r.published[..|st.published|] == st.published;
  }

  /** Handling the same notification twice leaves the same mirror as handling it once: the stored
      value does not depend on the choice lists. */
  lemma ChangedValueMirrorIdempotent(st: EngineState, keys: seq<string>, path: string, node: Element)
    ensures ChangedValue(ChangedValue(st, keys, path, node), keys, path, node).mirror
         == ChangedValue(st, keys, path, node).mirror
  {
  }

  /** Choice capture is not idempotent: a label mentioning both "HP" and "Outputs" fills the
      headphone list on its first notification and, if the output list is still empty, the output
      list with the same choices on its next one. */
  lemma CaptureCascades(st: EngineState, keys: seq<string>, path: string, node: Element)
    requires node.Parameter? && node.content.enumeration.Some?
    requires Contains(path, "HP") && !Contains(path, "InputProcessing") && Contains(path, "Outputs")
    requires st.lists.hp == [] && st.lists.outputs == []
    ensures var once := ChangedValue(st, keys, path, node);
      var options := Split(node.content.enumeration.value, '\n');
      once.lists.hp == options && once.lists.outputs == []
      && ChangedValue(once, keys, path, node).lists.outputs == options
  {
  }

  /** Registering a parameter appends exactly one entry (its protocol path and the label),
      subscribes the label, republishes the definitions of the whole registry and mirrors the
      parameter's canonical value under the label. */
  lemma AddMonitoredEffect(st: EngineState, keys: seq<string>, node: Element, dotted: string, rules: seq<FilterRule>)
    requires node.Parameter?
    ensures var r := AddMonitored(st, keys, node, dotted);
      r.registry == st.registry + [MonitoredParameter(node.content.path.GetOr(""), dotted)]
      && r.definitions == Definitions(r.registry)
      && r.definitions == Definitions(st.registry) + [VariableDefinition(node.content.path.GetOr(""), dotted)]
      && r.subscriptions == st.subscriptions + [dotted]
      && r.mirror == st.mirror[dotted := Canonical(node.content)]
      && (Consistent(st) ==> Consistent(r))
    ensures LeafMatches(rules, dotted) ==> Evolves(st, AddMonitored(st, keys, node, dotted), rules)
  {
    var entry := MonitoredParameter(node.content.path.GetOr(""), dotted);
    var registry := st.registry + [entry];
    var st1 := st.(registry := registry, definitions := GetVariablesList(Some(registry)),
                   subscriptions := st.subscriptions + [dotted]);
    DefinitionsAppend(st.registry, entry);
    ChangedValueEffect(st1, keys, dotted, node, rules);
    var r := AddMonitored(st, keys, node, dotted);
    assert r.registry[..|st.registry|] == st.registry;
    assert r.registry[|st.registry|..] == [entry];
    assert Labels([entry]) == [dotted];
    assert r.published[..|st.published|] == st.published;
    if LeafMatches(rules, dotted) {
      assert forall k :: |st.registry| <= k < |r.registry| ==> r.registry[k] == entry;
    }
    if Consistent(st) {
      assert forall k :: 0 <= k < |r.registry| ==> r.registry[k].dottedLabel in r.mirror by {
        forall k | 0 <= k < |r.registry| ensures r.registry[k].dottedLabel in r.mirror {
          if k < |st.registry| {
            assert r.registry[k] == st.registry[k];
          }
        }
      }
    }
  }

  /** Discovery only ever evolves the state (see Evolves) and keeps it consistent. */
  lemma {:induction false} WalkEvolves(st: EngineState, env: WalkEnv, node: Element, ids: string, depth: nat)
    ensures Evolves(st, Walk(st, env, node, ids, depth), env.rules)
    ensures Consistent(st) ==> Consistent(Walk(st, env, node, ids, depth))
    decreases node, 1
  {
    match node
    case Node(_, _, _, _) =>
      WalkChildrenEvolves(st, env, node, 0, ids, depth);
    case Parameter(_, _, _) =>
      if LeafMatches(env.rules, ids) {
        AddMonitoredEffect(st, env.feedbackKeys, node, ids, env.rules);
      } else {
        EvolvesRefl(st, env.rules);
      }
    case Other(_, _) =>
      EvolvesRefl(st, env.rules);
  }

  lemma {:induction false} WalkChildrenEvolves(st: EngineState, env: WalkEnv, parent: Element, i: nat, ids: string, depth: nat)
    requires parent.Node? && i <= |parent.children|
    ensures Evolves(st, WalkChildren(st, env, parent, i, ids, depth), env.rules)
    ensures Consistent(st) ==> Consistent(WalkChildren(st, env, parent, i, ids, depth))
    decreases parent, 0, |parent.children| - i
  {
    if i == |parent.children| {
      EvolvesRefl(st, env.rules);
    } else {
      var mid := VisitChild(st, env, parent.children[i], ids, depth);
      VisitChildEvolves(st, env, parent.children[i], ids, depth);
      WalkChildrenEvolves(mid, env, parent, i + 1, ids, depth);
      EvolvesTrans(st, mid, WalkChildren(mid, env, parent, i + 1, ids, depth), env.rules);
    }
  }

  lemma {:induction false} VisitChildEvolves(st: EngineState, env: WalkEnv, child: Element, ids: string, depth: nat)
    ensures Evolves(st, VisitChild(st, env, child, ids, depth), env.rules)
    ensures Consistent(st) ==> Consistent(VisitChild(st, env, child, ids, depth))
    decreases child, 2
  {
    var bare := BareIdentifier(child.identifier);
    if Excluded(bare) || (child.Node? && !child.online) || FirstMatch(env.rules, bare, depth).None?
       || BusPruned(env.busStart, env.busEnd, bare, child.identifier) {
      EvolvesRefl(st, env.rules);
    } else {
      WalkEvolves(st, env, child, ChildLabel(ids, bare), depth + 1);
    }
  }

  /** An excluded sub-area, an offline node, a child no rule lets through and a pruned bus leave
      the state exactly as it was. */
  lemma VisitChildSkips(st: EngineState, env: WalkEnv, child: Element, ids: string, depth: nat)
    ensures Excluded(BareIdentifier(child.identifier)) ==> VisitChild(st, env, child, ids, depth) == st
    ensures child.Node? && !child.online ==> VisitChild(st, env, child, ids, depth) == st
    ensures (forall k :: 0 <= k < |env.rules| ==> !RuleMatches(env.rules[k], BareIdentifier(child.identifier), depth))
      ==> VisitChild(st, env, child, ids, depth) == st
    ensures BusPruned(env.busStart, env.busEnd, BareIdentifier(child.identifier), child.identifier)
      ==> VisitChild(st, env, child, ids, depth) == st
  {
  }

  /** A parameter child that passes every check is registered under its child label, and nothing
      else is registered: a node whose only child is such a parameter adds exactly that entry. */
  lemma SingleParameterRegistered(st: EngineState, env: WalkEnv, parent: Element, ids: string, depth: nat)
    requires parent.Node? && |parent.children| == 1 && parent.children[0].Parameter?
    requires var child := parent.children[0]; var bare := BareIdentifier(child.identifier);
      !Excluded(bare) && FirstMatch(env.rules, bare, depth).Some?
      && !BusPruned(env.busStart, env.busEnd, bare, child.identifier)
      && LeafMatches(env.rules, ChildLabel(ids, bare))
    ensures var child := parent.children[0];
      Walk(st, env, parent, ids, depth).registry
        == st.registry + [MonitoredParameter(child.content.path.GetOr(""), ChildLabel(ids, BareIdentifier(child.identifier)))]
  {
    var child := parent.children[0];
    var dotted := ChildLabel(ids, BareIdentifier(child.identifier));
    var mid := VisitChild(st, env, child, ids, depth);
    assert mid == Walk(st, env, child, dotted, depth + 1);
    assert mid == AddMonitored(st, env.feedbackKeys, child, dotted);
    AddMonitoredEffect(st, env.feedbackKeys, child, dotted, env.rules);
    assert WalkChildren(st, env, parent, 0, ids, depth) == WalkChildren(mid, env, parent, 1, ids, depth);
  }

  // ---------------------------------------------------------------------------------------------
  // The instance

  class EmberPlusEngine {
    var config: Config
    var parseNodeFilter: seq<FilterRule>
    var monitoredParameters: seq<MonitoredParameter>
    var hpSources: seq<string>
    var inputProcSources: seq<string>
    var outputSources: seq<string>
    var micHPF: seq<string>
    var parameters: map<string, Value>
    var published: seq<(string, Value)>
    var checked: seq<string>
    var variableDefinitions: seq<VariableDefinition>
    var subscriptions: seq<string>

    function Lists(): ChoiceLists
      reads this`hpSources, this`inputProcSources, this`outputSources, this`micHPF
    {
      ChoiceLists(hpSources, inputProcSources, outputSources, micHPF)
    }

    function State(): EngineState
      reads this`monitoredParameters, this`hpSources, this`inputProcSources, this`outputSources, this`micHPF
      reads this`parameters, this`published, this`checked, this`variableDefinitions, this`subscriptions
    {
      EngineState(monitoredParameters, Lists(), parameters, published, checked, variableDefinitions, subscriptions)
    }

    function Env(feedbackKeys: seq<string>): WalkEnv
      reads this`parseNodeFilter, this`config
    {
      WalkEnv(parseNodeFilter, config.mixBusStart, config.mixBusEnd, feedbackKeys)
    }

    /** `init`: takes the configuration and compiles the filter rules. */
    constructor (config: Config)
      ensures this.config == config && parseNodeFilter == CompileFilters(config)
      ensures State() == EngineState([], NoChoices, map[], [], [], [], [])
    {
      this.config := config;
      parseNodeFilter := [];
      monitoredParameters := [];
      hpSources, inputProcSources, outputSources, micHPF := [], [], [], [];
      parameters := map[];
      published, checked, variableDefinitions, subscriptions := [], [], [], [];
      new;
      SetupParseFilters();
    }

    /** `setupParseFilters`: clears the registry, the rules and the choice lists, then compiles
        the rules of the configuration. The mirror and the host-side logs are kept. */
    method SetupParseFilters()
      modifies this
      ensures config == old(config)
      ensures parseNodeFilter == CompileFilters(config)
      ensures State() == old(State()).(registry := [], lists := NoChoices)
    {
      ClearDiscovery();
      parseNodeFilter := [FilterRule(SnapshotPath)];
      var c := config;
      PushRuleIf(c.micIn, "Audio.Inputs.Mic");
      PushRuleIf(c.analogOut, "Audio.Outputs.Analog");
      PushRuleIf(c.aes3In, "Audio.Inputs.AESEBU");
      PushRuleIf(c.aes3Out, "Audio.Outputs.AESEBU");
      PushRuleIf(c.aoipIn, "Audio.Inputs.AoIP");
      PushRuleIf(c.aoipOut, "Audio.Outputs.AoIP");
      PushRuleIf(c.hpOut, "Audio.Outputs.HP");
      PushRuleIf(c.inputProc, "Audio.Processing.InputProcessing");
      PushRuleIf(c.outputProc, "Audio.Processing.OutputProcessing");
      PushRuleIf(c.mixMatrix, "Audio.MixMatrix.Bus");
    }

    /** The resets at the start of `setupParseFilters`: the registry, the rules and the four choice
        lists become empty; nothing else changes. */
    method ClearDiscovery()
      modifies this`monitoredParameters, this`parseNodeFilter
      modifies this`outputSources, this`inputProcSources, this`hpSources, this`micHPF
      ensures parseNodeFilter == []
      ensures State() == old(State()).(registry := [], lists := NoChoices)
    {
      monitoredParameters := [];
      parseNodeFilter := [];
      outputSources := [];
      inputProcSources := [];
      hpSources := [];
      micHPF := [];
    }

    /** One `if (toggle) parseNodeFilter.push(...)` of `setupParseFilters`. */
    method PushRuleIf(enabled: bool, path: string)
      modifies this`parseNodeFilter
      ensures parseNodeFilter == old(parseNodeFilter) + RuleIf(enabled, path)
    {
      if enabled {
        parseNodeFilter := parseNodeFilter + [FilterRule(path)];
      }
    }

    /** The choice-list capture of `handleChangedValue`: the first applicable empty list receives
        the enumeration's lines. */
    method CaptureSources(path: string, enumeration: string)
      modifies this`hpSources, this`inputProcSources, this`outputSources, this`micHPF
      ensures Lists() == CaptureChoices(old(Lists()), path, enumeration)
    {
      var options := Split(enumeration, '\n');
      if Contains(path, "HP") && |hpSources| == 0 {
        hpSources := options;
      } else if Contains(path, "InputProcessing") && |inputProcSources| == 0 {
        inputProcSources := options;
      } else if Contains(path, "Outputs") && |outputSources| == 0 {
        outputSources := options;
      } else if Contains(path, "HPF") && |micHPF| == 0 {
        micHPF := options;
      }
    }

    /** `handleChangedValue(path, node)`, with the keys of the feedback definitions table. */
    method HandleChangedValue(path: string, node: Element, feedbackKeys: seq<string>)
      modifies this`hpSources, this`inputProcSources, this`outputSources, this`micHPF
      modifies this`parameters, this`checked, this`published
      ensures State() == ChangedValue(old(State()), feedbackKeys, path, node)
    {
      if node.Parameter? {
        var v := NormalizeValue(path, node.content);
        parameters := parameters[path := v];
        CheckFeedbacks(feedbackKeys);
        published := published + [(path, v)];
      }
    }

    /** The three value shapes of `handleChangedValue`: an enumerated value (whose choices may be
        captured) becomes its option text, a value with a factor is divided by it, and any other
        value is passed through. */
    method NormalizeValue(path: string, content: Content) returns (v: Value)
      modifies this`hpSources, this`inputProcSources, this`outputSources, this`micHPF
      ensures v == Canonical(content)
      ensures Lists() == if content.enumeration.Some? then CaptureChoices(old(Lists()), path, content.enumeration.value)
                         else old(Lists())
    {
      if content.enumeration.Some? {
        CaptureSources(path, content.enumeration.value);
        var options := Split(content.enumeration.value, '\n');
        v := VText(At(options, RawToNumber(content.value)).GetOr(""));
      } else if content.factor.Some? {
        v := Scaled(RawToNumber(content.value), content.factor.value);
      } else {
        v := match content.value
          case None => VText("")
          case Some(RInt(i)) => VInt(i)
          case Some(RStr(s)) => VText(s)
          case Some(RBool(b)) => VBool(b);
      }
    }

    /** The feedback re-check of `handleChangedValue`: one `checkFeedbacks` call per key of the
        feedback definitions table, in order. */
    method CheckFeedbacks(feedbackKeys: seq<string>)
      modifies this`checked
      ensures checked == old(checked) + feedbackKeys
    {
      var i := 0;
      while i < |feedbackKeys|
        invariant 0 <= i <= |feedbackKeys|
        invariant checked == old(checked) + feedbackKeys[..i]
      {
        checked := checked + [feedbackKeys[i]];
        i := i + 1;
      }
      assert feedbackKeys[..i] == feedbackKeys;
    }

    /** `_addMonitoredParameter(node, label)`. */
    method AddMonitoredParameter(node: Element, dotted: string, feedbackKeys: seq<string>)
      requires node.Parameter?
      modifies this
      ensures config == old(config) && parseNodeFilter == old(parseNodeFilter)
      ensures State() == AddMonitored(old(State()), feedbackKeys, node, dotted)
    {
      monitoredParameters := monitoredParameters + [MonitoredParameter(node.content.path.GetOr(""), dotted)];
      variableDefinitions := GetVariablesList(Some(monitoredParameters));
      subscriptions := subscriptions + [dotted];
      HandleChangedValue(dotted, node, feedbackKeys);
    }

    /** `handleEmberTreeParsing(node, identifiers, depth)`. */
    method HandleEmberTreeParsing(node: Element, identifiers: string, depth: nat, feedbackKeys: seq<string>)
      modifies this
      ensures config == old(config) && parseNodeFilter == old(parseNodeFilter)
      ensures State() == Walk(old(State()), old(Env(feedbackKeys)), node, identifiers, depth)
      decreases node, 1
    {
      if node.Node? {
        var i := 0;
        while i < |node.children|
          invariant 0 <= i <= |node.children|
          invariant config == old(config) && parseNodeFilter == old(parseNodeFilter)
          invariant WalkChildren(State(), old(Env(feedbackKeys)), node, i, identifiers, depth)
                 == Walk(old(State()), old(Env(feedbackKeys)), node, identifiers, depth)
        {
          HandleChild(node.children[i], identifiers, depth, feedbackKeys);
          i := i + 1;
        }
      } else if node.Parameter? {
        var j := 0;
        while j < |parseNodeFilter|
          invariant 0 <= j <= |parseNodeFilter|
          invariant forall k :: 0 <= k < j ==> !StartsWith(identifiers, parseNodeFilter[k].path)
        {
          if StartsWith(identifiers, parseNodeFilter[j].path) {
            LeafMatchesIff(parseNodeFilter, identifiers);
            AddMonitoredParameter(node, identifiers, feedbackKeys);
            return;
          }
          j := j + 1;
        }
        LeafMatchesIff(parseNodeFilter, identifiers);
      }
    }

    /** The body of the child loop of `handleEmberTreeParsing`: the exclusion and online checks,
        then the rules in order until the first that lets the child through, which either prunes
        a bus outside the range or descends into the child. */
    method HandleChild(child: Element, identifiers: string, depth: nat, feedbackKeys: seq<string>)
      modifies this
      ensures config == old(config) && parseNodeFilter == old(parseNodeFilter)
      ensures State() == VisitChild(old(State()), old(Env(feedbackKeys)), child, identifiers, depth)
      decreases child, 2
    {
      var identifier := ReplaceFirst(child.identifier, '#');
      if Excluded(identifier) {
        return;
      }
      if child.Node? && !child.online {
        return;
      }
      if |parseNodeFilter| > 0 {
        var j := 0;
        while j < |parseNodeFilter|
          invariant 0 <= j <= |parseNodeFilter|
          invariant forall k :: 0 <= k < j ==> !RuleMatches(parseNodeFilter[k], identifier, depth)
        {
          if RuleMatches(parseNodeFilter[j], identifier, depth) {
            if BusPruned(config.mixBusStart, config.mixBusEnd, identifier, child.identifier) {
              return;
            }
            HandleEmberTreeParsing(child, ChildLabel(identifiers, identifier), depth + 1, feedbackKeys);
            return;
          }
          j := j + 1;
        }
      }
    }
  }
}
