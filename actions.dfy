/** The action callbacks and the action definitions table (src/actions.ts): how an action finds its
    parameter in the provider's tree, what it writes there, and which actions exist for which
    interface. A write is returned rather than sent. */
module Actions {
  import opened Strings
  import opened Ember
  import opened Filters
  import opened Tables
  import opened Normalize

  // ---------------------------------------------------------------------------------------------
  // Finding the parameter

  /** Where an action writes: the dotted path of the parent node and the parameter's number. */
  datatype Target = Target(parentPath: string, paramNum: string)

  /** The path resolution at the start of every value action. Without a source option the parent
      is `varPath` without its last segment and the number is that segment. With one, the last
      segment of `varPath` is replaced by the second-to-last segment of the source (`undefined`,
      written as an empty segment, when the source has a single segment) and the number is the
      source's last segment. */
  function ResolveTarget(varPath: string, varSource: Option<string>): (t: Target)
    ensures '.' !in t.paramNum
  {
    var nodes := Split(varPath, '.');
    match varSource
    case None => Target(Join(nodes[..|nodes| - 1], '.'), nodes[|nodes| - 1])
    case Some(src) =>
      var s := Split(src, '.');
      var second := if |s| >= 2 then s[|s| - 2] else "";
      Target(Join(nodes[..|nodes| - 1] + [second], '.'), s[|s| - 1])
  }

  /** Without a source, resolution splits `varPath` at its last dot: parent, dot and number give
      `varPath` back; a path with no dot is a number under the empty parent path. */
  lemma ResolveInverse(varPath: string)
    ensures var t := ResolveTarget(varPath, None);
      ('.' in varPath ==> t.parentPath + "." + t.paramNum == varPath)
      && ('.' !in varPath ==> t == Target("", varPath))
  {
    var nodes := Split(varPath, '.');
    JoinSplit(varPath, '.');
    if '.' in varPath {
      assert |nodes| >= 2;
      var init := nodes[..|nodes| - 1];
      JoinSnoc(init, nodes[|nodes| - 1], '.');
      assert init + [nodes[|nodes| - 1]] == nodes;
    }
  }

  /** A dotted parent path and a number resolve back to that parent and number. */
  lemma ResolveParentAndNumber(parent: string, num: string)
    requires parent != "" && '.' !in num
    ensures ResolveTarget(parent + "." + num, None) == Target(parent, num)
  {
    ChildLabelSegments(parent, num);
    JoinSplit(parent, '.');
    var nodes := Split(parent, '.') + [num];
    assert nodes[..|nodes| - 1] == Split(parent, '.');
  }

  /** With a source `head.bus.num`, the target is the channel path's parent with the bus appended,
      and the source's number. */
  lemma ResolveWithSource(parent: string, channel: string, head: string, bus: string, num: string)
    requires parent != "" && head != ""
    requires '.' !in channel && '.' !in bus && '.' !in num
    ensures ResolveTarget(parent + "." + channel, Some(head + "." + bus + "." + num)) == Target(parent + "." + bus, num)
  {
    ChildLabelSegments(parent, channel);
    var nodes := Split(parent, '.') + [channel];
    assert nodes[..|nodes| - 1] == Split(parent, '.');
    ChildLabelSegments(head, bus);
    ChildLabelSegments(head + "." + bus, num);
    var s := Split(head, '.') + [bus] + [num];
    assert s[|s| - 2] == bus && s[|s| - 1] == num;
    JoinSplit(parent, '.');
    JoinSnoc(Split(parent, '.'), bus, '.');
  }

  /** The first child with the given number (`getElementByNumber`). */
  function ChildByNumber(children: seq<Element>, n: Num): (r: Option<Element>)
    ensures r.Some? ==> r.value in children && n == Int(r.value.number)
    ensures r.None? ==> forall k :: 0 <= k < |children| ==> n != Int(children[k].number)
  {
    if children == [] then None
    else if n == Int(children[0].number) then Some(children[0])
    else ChildByNumber(children[1..], n)
  }

  /** The element a dotted number path leads to from `node`, one child number per segment. */
  function ElementAt(node: Element, segments: seq<string>): Option<Element>
    decreases |segments|
  {
    if segments == [] then Some(node)
    else if !node.Node? then None
    else match ChildByNumber(node.children, ParseNumber(segments[0]))
      case None => None
      case Some(child) => ElementAt(child, segments[1..])
  }

  /** What looking up a target gives: the parameter, nothing usable under an existing parent (the
      action only warns), or no parent at all (the lookup fails and the callback stops). */
  datatype Lookup = Found(param: Element) | Missing | Aborted

  /** `getElementByPathAsync(parentPath)` followed by `getElementByNumber(Number(paramNum))`; the
      empty parent path is the root. */
  function Locate(root: Element, t: Target): (r: Lookup)
    ensures r.Found? ==> r.param.Parameter?
  {
    var parent := if t.parentPath == "" then Some(root) else ElementAt(root, Split(t.parentPath, '.'));
    match parent
    case None => Aborted
    case Some(p) =>
      if !p.Node? then Missing
      else match ChildByNumber(p.children, ParseNumber(t.paramNum))
        case Some(c) => if c.Parameter? then Found(c) else Missing
        case None => Missing
  }

  /** A parameter numbered n directly under the root is found by the number's decimal text. */
  lemma LocateUnderRoot(root: Element, k: nat)
    requires root.Node? && k < |root.children| && root.children[k].Parameter?
    requires forall j :: 0 <= j < k ==> root.children[j].number != root.children[k].number
    ensures Locate(root, Target("", DecimalText(root.children[k].number))) == Found(root.children[k])
  {
    DecimalRoundTrip(root.children[k].number);
    ChildByNumberFirst(root.children, k);
  }

  /** The first child carrying a number is the one found by it. */
  lemma {:induction false} ChildByNumberFirst(children: seq<Element>, k: nat)
    requires k < |children|
    requires forall j :: 0 <= j < k ==> children[j].number != children[k].number
    ensures ChildByNumber(children, Int(children[k].number)) == Some(children[k])
  {
    if k > 0 {
      ChildByNumberFirst(children[1..], k - 1);
    }
  }

  // ---------------------------------------------------------------------------------------------
  // Writing a value

  /** An action's `value` option as the callback sees it. */
  datatype OptionValue = OText(s: string) | ONum(i: int) | OAbsent

  /** `Number(value)` */
  function NumberOf(v: OptionValue): Num {
    match v
    case OText(s) => ParseNumber(s)
    case ONum(i) => Int(i)
    case OAbsent => NaN
  }

  /** `value ?? 0` */
  function OrZero(v: OptionValue): OptionValue {
    if v.OAbsent? then ONum(0) else v
  }

  /** What is sent: a boolean, the option value as it is (with the declared type), or a number. */
  datatype Payload = PBool(b: bool) | PValue(v: OptionValue) | PNum(n: Num)

  /** One `setValueAsync(param, payload, kind)`. */
  datatype Write = Write(param: Element, kind: ParameterType, payload: Payload)

  /** The clamping of `setValue` for a parameter with a truthy maximum: without an enumeration, a
      value above the maximum becomes the maximum, else one below the minimum the minimum. */
  function Clamp(c: Content, value: OptionValue): (r: OptionValue)
    requires Truthy(c.maximum)
  {
    if c.enumeration.None? && Gt(NumberOf(OrZero(value)), c.maximum.value) then ONum(c.maximum.value)
    else if c.enumeration.None? && c.minimum.Some? && Lt(NumberOf(OrZero(value)), c.minimum.value) then ONum(c.minimum.value)
    else value
  }

  /** Clamping keeps a number within [minimum, maximum] when the range is not empty, leaves
      numbers already in it and enumerations alone, and is idempotent. */
  lemma ClampRange(c: Content, value: OptionValue, i: int)
    requires Truthy(c.maximum) && NumberOf(OrZero(value)) == Int(i)
    ensures c.enumeration.Some? ==> Clamp(c, value) == value
    ensures c.enumeration.None? && c.minimum.Some? && c.minimum.value <= c.maximum.value ==>
      var r := NumberOf(OrZero(Clamp(c, value)));
      r.Int? && c.minimum.value <= r.i <= c.maximum.value
      && (c.minimum.value <= i <= c.maximum.value ==> Clamp(c, value) == value)
      && (i > c.maximum.value ==> r.i == c.maximum.value)
      && (i < c.minimum.value ==> r.i == c.minimum.value)
    ensures c.minimum.Some? && c.minimum.value <= c.maximum.value ==> Clamp(c, Clamp(c, value)) == Clamp(c, value)
  {
  }

  /** The type test of `setValue` after clamping: a boolean action sends `value == 'true'`; any
      other sends the value as an integer when the parameter has a truthy maximum or the value is
      numeric, else as a string when both the action and the parameter are of string type;
      otherwise nothing is sent. */
  function Dispatch(kind: ParameterType, param: Element, value: OptionValue): (r: Option<Write>)
    requires param.Parameter?
  {
    if kind == Boolean then Some(Write(param, Boolean, PBool(value == OText("true"))))
    else if Truthy(param.content.maximum) || !NumberOf(value).NaN? then Some(Write(param, Integer, PValue(value)))
    else if kind == String && param.content.kind == String then Some(Write(param, String, PValue(value)))
    else None
  }

  /** Exactly one of the four outcomes of the type test, each in both directions. */
  lemma DispatchCases(kind: ParameterType, param: Element, value: OptionValue)
    requires param.Parameter?
    ensures var r := Dispatch(kind, param, value);
      (kind == Boolean <==> r.Some? && r.value.kind == Boolean)
      && (kind == Boolean ==> r.value.payload == PBool(value.OText? && value.s == "true"))
      && (kind != Boolean && (Truthy(param.content.maximum) || !NumberOf(value).NaN?)
          <==> r.Some? && r.value.kind == Integer)
      && (r.Some? && r.value.kind == String <==>
          kind == String && param.content.kind == String && !Truthy(param.content.maximum) && NumberOf(value).NaN?)
      && (r.Some? ==> r.value.param == param)
  {
  }

  /** The value `setValue` sends for a parameter: clamped when the action is an integer action and
      the parameter has a truthy maximum, then passed through the type test. */
  function SetValueWrite(kind: ParameterType, param: Element, value: OptionValue): Option<Write>
    requires param.Parameter?
  {
    var c := param.content;
    var v := if kind == Integer && Truthy(c.maximum) then Clamp(c, value) else value;
    Dispatch(kind, param, v)
  }

  /** The options of a value action. */
  datatype ActionOptions = ActionOptions(varPath: string, varSource: Option<string>, value: OptionValue)

  /** The path resolution of the callbacks, with `path_nodes` popped and pushed as it goes. */
  method SplitTarget(varPath: string, varSource: Option<string>) returns (t: Target)
    ensures t == ResolveTarget(varPath, varSource)
  {
    var pathNodes := Split(varPath, '.');
    var paramNum: string;
    if varSource.Some? {
      pathNodes := pathNodes[..|pathNodes| - 1];
      var sourceNodes := Split(varSource.value, '.');
      paramNum := sourceNodes[|sourceNodes| - 1];
      pathNodes := pathNodes + [if |sourceNodes| >= 2 then sourceNodes[|sourceNodes| - 2] else ""];
    } else {
      paramNum := pathNodes[|pathNodes| - 1];
      pathNodes := pathNodes[..|pathNodes| - 1];
    }
    t := Target(Join(pathNodes, '.'), paramNum);
  }

  /** `setValue(type)`: find the parameter, clamp the value, then send it by the type test. */
  method SetValue(root: Element, kind: ParameterType, options: ActionOptions) returns (w: Option<Write>)
    ensures var found := Locate(root, ResolveTarget(options.varPath, options.varSource));
      w == if found.Found? then SetValueWrite(kind, found.param, options.value) else None
  {
    var t := SplitTarget(options.varPath, options.varSource);
    var found := Locate(root, t);
    if !found.Found? {
      return None;
    }
    var param := found.param;
    var c := param.content;
    var value := options.value;
    if kind == Integer && Truthy(c.maximum) {
      if c.enumeration.None? && Gt(NumberOf(OrZero(value)), c.maximum.value) {
        value := ONum(c.maximum.value);
      } else if c.enumeration.None? && c.minimum.Some? && Lt(NumberOf(OrZero(value)), c.minimum.value) {
        value := ONum(c.minimum.value);
      }
    }
    if kind == Boolean {
      w := Some(Write(param, Boolean, PBool(value == OText("true"))));
    } else if Truthy(c.maximum) || !NumberOf(value).NaN? {
      w := Some(Write(param, Integer, PValue(value)));
    } else if kind == String && c.kind == String {
      w := Some(Write(param, String, PValue(value)));
    } else {
      w := None;
    }
  }

  /** The value `setValueExpression` sends: only for a parameter with a truthy maximum, the
      expanded text clamped like `setValue` (without the `?? 0`) and converted with `Number`. */
  function ExpressionWrite(param: Element, expanded: string): (r: Option<Write>)
    requires param.Parameter?
    ensures r.Some? <==> Truthy(param.content.maximum)
    ensures r.Some? && param.content.enumeration.Some? ==> r.value.payload == PNum(ParseNumber(expanded))
  {
    if Truthy(param.content.maximum) then Some(Write(param, Integer, PNum(NumberOf(Clamp(param.content, OText(expanded))))))
    else None
  }

  /** `setValueExpression`, with the option text after variable expansion given as `expanded`. */
  method SetValueExpression(root: Element, options: ActionOptions, expanded: string) returns (w: Option<Write>)
    ensures var found := Locate(root, ResolveTarget(options.varPath, options.varSource));
      w == if found.Found? then ExpressionWrite(found.param, expanded) else None
  {
    var t := SplitTarget(options.varPath, options.varSource);
    var found := Locate(root, t);
    if !found.Found? {
      return None;
    }
    w := ExpressionWrite(found.param, expanded);
  }

  /** The value `setIncrementDecrement` sends for a parameter with a truthy maximum: the current
      value plus (or minus) the step, replaced by the maximum (minimum) when it would pass it and
      the parameter has no enumeration. */
  function StepWrite(param: Element, increment: bool, step: int): Option<Write>
    requires param.Parameter?
  {
    var c := param.content;
    var current := RawToNumber(c.value);
    if !Truthy(c.maximum) then None
    else if increment then
      if c.enumeration.None? && Gt(Add(current, step), c.maximum.value) then Some(Write(param, Integer, PNum(Int(c.maximum.value))))
      else Some(Write(param, Integer, PNum(Add(current, step))))
    else
      if c.enumeration.None? && c.minimum.Some? && Lt(Sub(current, step), c.minimum.value) then Some(Write(param, Integer, PNum(Int(c.minimum.value))))
      else Some(Write(param, Integer, PNum(Sub(current, step))))
  }

  /** For an integer current value, incrementing writes min(current + step, maximum) and
      decrementing max(current - step, minimum); with an enumeration the sum or difference is
      written unclamped; without a truthy maximum nothing is written. */
  lemma StepSaturates(param: Element, step: int, i: int)
    requires param.Parameter? && RawToNumber(param.content.value) == Int(i)
    ensures var c := param.content; Truthy(c.maximum) && c.enumeration.None? ==>
      StepWrite(param, true, step) == Some(Write(param, Integer, PNum(Int(if i + step > c.maximum.value then c.maximum.value else i + step))))
    ensures var c := param.content; Truthy(c.maximum) && c.enumeration.None? && c.minimum.Some? ==>
      StepWrite(param, false, step) == Some(Write(param, Integer, PNum(Int(if i - step < c.minimum.value then c.minimum.value else i - step))))
    ensures var c := param.content; Truthy(c.maximum) && c.enumeration.Some? ==>
      StepWrite(param, true, step) == Some(Write(param, Integer, PNum(Int(i + step))))
      && StepWrite(param, false, step) == Some(Write(param, Integer, PNum(Int(i - step))))
    ensures !Truthy(param.content.maximum) ==> StepWrite(param, true, step).None? && StepWrite(param, false, step).None?
  {
  }

  /** `setIncrementDecrement(type)` with the step option. */
  method SetIncrementDecrement(root: Element, increment: bool, options: ActionOptions, step: int) returns (w: Option<Write>)
    ensures var found := Locate(root, ResolveTarget(options.varPath, options.varSource));
      w == if found.Found? then StepWrite(found.param, increment, step) else None
  {
    var t := SplitTarget(options.varPath, options.varSource);
    var found := Locate(root, t);
    if !found.Found? {
      return None;
    }
    w := StepWrite(found.param, increment, step);
  }

  /** The value `setToggle` sends: the negation of a current value that is strictly a boolean. */
  function ToggleWrite(param: Element): (r: Option<Write>)
    requires param.Parameter?
    ensures r.Some? <==> param.content.value.Some? && param.content.value.value.RBool?
    ensures r.Some? ==> r.value == Write(param, Boolean, PBool(!param.content.value.value.b))
  {
    match param.content.value
    case Some(RBool(b)) => Some(Write(param, Boolean, PBool(!b)))
    case _ => None
  }

  /** `setToggle` */
  method SetToggle(root: Element, options: ActionOptions) returns (w: Option<Write>)
    ensures var found := Locate(root, ResolveTarget(options.varPath, options.varSource));
      w == if found.Found? then ToggleWrite(found.param) else None
  {
    var t := SplitTarget(options.varPath, options.varSource);
    var found := Locate(root, t);
    if !found.Found? {
      return None;
    }
    var value := found.param.content.value;
    if value == Some(RBool(true)) {
      w := Some(Write(found.param, Boolean, PBool(false)));
    } else if value == Some(RBool(false)) {
      w := Some(Write(found.param, Boolean, PBool(true)));
    } else {
      w := None;
    }
  }

  // ---------------------------------------------------------------------------------------------
  // Loading a snapshot

  /** The first registry entry whose label ends with the suffix. */
  function FirstEndingWith(registry: seq<MonitoredParameter>, suffix: string): (r: Option<MonitoredParameter>)
    ensures r.Some? ==> r.value in registry && EndsWith(r.value.dottedLabel, suffix)
    ensures r.None? <==> forall k :: 0 <= k < |registry| ==> !EndsWith(registry[k].dottedLabel, suffix)
  {
    if registry == [] then None
    else if EndsWith(registry[0].dottedLabel, suffix) then Some(registry[0])
    else FirstEndingWith(registry[1..], suffix)
  }

  /** The writes of `triggerSnapLoad`: the slot number to the parameter of the first entry ending in
      "Slot", then 1 to the parameter of the first entry ending in "Load". A missing entry, or a
      parent path that cannot be found, stops the callback; a missing parameter only skips its
      write. */
  function SnapLoadWrites(root: Element, registry: Option<seq<MonitoredParameter>>, slot: int): seq<Write> {
    var entries := registry.GetOr([]);
    match FirstEndingWith(entries, "Slot")
    case None => []
    case Some(slotEntry) =>
      match Locate(root, ResolveTarget(slotEntry.id, None))
      case Aborted => []
      case first =>
        var w1 := if first.Found? then [Write(first.param, Integer, PNum(Int(slot)))] else [];
        match FirstEndingWith(entries, "Load")
        case None => w1
        case Some(loadEntry) =>
          var second := Locate(root, ResolveTarget(loadEntry.id, None));
          w1 + (if second.Found? then [Write(second.param, Integer, PNum(Int(1)))] else [])
  }

  /** At most two writes: the slot write always comes first and carries the slot, the load write
      comes last and carries 1; nothing is written without a "Slot" entry. */
  lemma SnapLoadOrder(root: Element, registry: Option<seq<MonitoredParameter>>, slot: int)
    ensures var w := SnapLoadWrites(root, registry, slot);
      |w| <= 2
      && (FirstEndingWith(registry.GetOr([]), "Slot").None? ==> w == [])
      && (|w| == 2 ==> w[0].payload == PNum(Int(slot)) && w[1].payload == PNum(Int(1)))
      && (FirstEndingWith(registry.GetOr([]), "Load").None? ==> forall k :: 0 <= k < |w| ==> w[k].payload == PNum(Int(slot)))
  {
  }

  /** `triggerSnapLoad` with the slot option. */
  method TriggerSnapLoad(root: Element, registry: Option<seq<MonitoredParameter>>, slot: int) returns (writes: seq<Write>)
    ensures writes == SnapLoadWrites(root, registry, slot)
  {
    writes := [];
    var entries := registry.GetOr([]);
    var slotEntry := FirstEndingWith(entries, "Slot");
    if slotEntry.None? {
      return;
    }
    var t := SplitTarget(slotEntry.value.id, None);
    var found := Locate(root, t);
    if found.Aborted? {
      return;
    }
    if found.Found? {
      writes := writes + [Write(found.param, Integer, PNum(Int(slot)))];
    }
    var loadEntry := FirstEndingWith(entries, "Load");
    if loadEntry.None? {
      return;
    }
    t := SplitTarget(loadEntry.value.id, None);
    found := Locate(root, t);
    if found.Found? {
      writes := writes + [Write(found.param, Integer, PNum(Int(1)))];
    }
  }

  // ---------------------------------------------------------------------------------------------
  // The action definitions

  /** What an action's callback does. */
  datatype Callback =
    | SetValueCb(kind: ParameterType)   // `setValue(type)`
    | ExpressionCb                      // `setValueExpression`
    | StepCb(increment: bool)           // `setIncrementDecrement('increment' | 'decrement')`
    | ToggleCb                          // `setToggle`
    | SnapLoadCb                        // `triggerSnapLoad`

  /** The `value` option of an action: a number or text field, a dropdown offering the ids
      'true' and 'false', or a dropdown offering one entry per list item, whose id is its index
      and whose label is the item. */
  datatype ValueField = Typed | OnOff | Indexed(labels: seq<string>)

  /** An action: its callback, the registry entries its channel dropdown offers (the chosen id is
      the `varPath`), those its source dropdown offers (the `varSource`) and its value field. */
  datatype ActionDef = ActionDef(callback: Callback, paths: seq<MonitoredParameter>,
                                 sources: seq<MonitoredParameter>, values: ValueField)

  /** A key of the actions dictionary with its definition; `None` is a key set to `undefined`. */
  type ActionEntry = (string, Option<ActionDef>)

  /** The registry entries whose label `keep` accepts, in registry order. */
  function Picked(registry: seq<MonitoredParameter>, keep: string -> bool): (r: seq<MonitoredParameter>)
    ensures |r| <= |registry|
    ensures forall k :: 0 <= k < |r| ==> keep(r[k].dottedLabel)
  {
    if registry == [] then []
    else (if keep(registry[0].dottedLabel) then [registry[0]] else []) + Picked(registry[1..], keep)
  }

  /** An entry is offered exactly when it is in the registry and `keep` accepts its label. */
  lemma {:induction false} PickedMembers(registry: seq<MonitoredParameter>, keep: string -> bool, e: MonitoredParameter)
    ensures e in Picked(registry, keep) <==> e in registry && keep(e.dottedLabel)
  {
    if registry != [] {
      PickedMembers(registry[1..], keep, e);
      assert registry == [registry[0]] + registry[1..];
    }
  }

  /** The channel filter: the label mentions the interface's parent path, does not mention
      "Source" when `noSource` is set, and ends with the parameter name. */
  predicate ChannelOf(parent: string, suffix: string, noSource: bool, lbl: string) {
    Contains(lbl, parent) && (!noSource || !Contains(lbl, "Source")) && EndsWith(lbl, suffix)
  }

  /** The source filter of the mix matrix actions: the first bus's "Source" labels with the name. */
  predicate BusSourceOf(suffix: string, lbl: string) {
    Contains(lbl, "Bus1") && Contains(lbl, "Source") && EndsWith(lbl, suffix)
  }

  /** `config.monitoredParameters?.map(...).filter(...) ?? []` */
  function Offered(registry: Option<seq<MonitoredParameter>>, keep: string -> bool): seq<MonitoredParameter> {
    match registry
    case None => []
    case Some(entries) => Picked(entries, keep)
  }

  /** An action with a channel dropdown only. */
  function Plain(cb: Callback, registry: Option<seq<MonitoredParameter>>, parent: string, suffix: string, noSource: bool): ActionDef {
    ActionDef(cb, Offered(registry, lbl => ChannelOf(parent, suffix, noSource, lbl)), [], Typed)
  }

  /** An action on channels without "Source" in their label, which on the mix matrix sources also
      gets a source dropdown over the first bus's sources named `sourceSuffix`. */
  function WithSources(cb: Callback, registry: Option<seq<MonitoredParameter>>, mixSource: bool, parent: string,
                       suffix: string, sourceSuffix: string): ActionDef {
    ActionDef(cb, Offered(registry, lbl => ChannelOf(parent, suffix, true, lbl)),
      if mixSource then Offered(registry, lbl => BusSourceOf(sourceSuffix, lbl)) else [], Typed)
  }

  /** The same action with an on/off value dropdown. */
  function AsSwitch(def: ActionDef): ActionDef {
    def.(values := OnOff)
  }

  /** `cond ? definition : undefined` */
  function Gate(cond: bool, def: ActionDef): Option<ActionDef> {
    if cond then Some(def) else None
  }

  /** The tests `GetActionsforInterface` makes on the interface name. */
  datatype Traits = Traits(
    mic: bool,         // contains "Mic"
    headphone: bool,   // contains "HP"
    mixSource: bool,   // contains "MixMatrixSource"
    volume: bool,      // contains "Analag" (sic), "AES3Out", "AoIPOut" or "HP"
    phase: bool,       // contains "Mic", "InputProc", "OutputProc" or "MixMatrix"
    routed: bool,      // contains "Analog", "AES3Out", "AoIPOut", "InputProc" or "HP"
    inputProc: bool,   // contains "InputProc"
    output: bool,      // contains "Out"
    monitored: bool)   // contains "Mic" or ends with "In"

  function TraitsOf(d: string): Traits {
    Traits(Contains(d, "Mic"), Contains(d, "HP"), Contains(d, "MixMatrixSource"), HasVolume(d),
      Contains(d, "Mic") || Contains(d, "InputProc") || Contains(d, "OutputProc") || Contains(d, "MixMatrix"),
      Contains(d, "Analog") || Contains(d, "AES3Out") || Contains(d, "AoIPOut") || Contains(d, "InputProc") || Contains(d, "HP"),
      Contains(d, "InputProc"), Contains(d, "Out"), Contains(d, "Mic") || EndsWith(d, "In"))
  }

  /** The interfaces whose level is a volume (`Analag` is the source's spelling). */
  predicate HasVolume(d: string) {
    Contains(d, "Analag") || Contains(d, "AES3Out") || Contains(d, "AoIPOut") || Contains(d, "HP")
  }

  /** The choices of the Set Source value dropdown. */
  function SourceList(t: Traits, lists: ChoiceLists): seq<string> {
    if t.headphone then lists.hp else if t.inputProc then lists.inputProc else lists.outputs
  }

  /** The general actions, present whatever the configuration. */
  function GeneralActions(registry: Option<seq<MonitoredParameter>>): seq<ActionEntry> {
    [("setValueExpression", Some(ActionDef(ExpressionCb, registry.GetOr([]), [], Typed))),
     ("setSnapShotLoad", Some(ActionDef(SnapLoadCb, [], [], Typed)))]
  }

  /** The level, generator and microphone actions of an interface. */
  function LevelActions(registry: Option<seq<MonitoredParameter>>, lists: ChoiceLists, d: string, p: string, t: Traits): seq<ActionEntry> {
    [("Set" + d + "Label", Some(Plain(SetValueCb(String), registry, p, "Label", false))),
     ("Set" + d + "Gain", Gate(!t.volume, WithSources(SetValueCb(Integer), registry, t.mixSource, p, "Gain", "Gain"))),
     ("Set" + d + "GainIncrement", Gate(!t.volume, WithSources(StepCb(true), registry, t.mixSource, p, "Gain", "Gain"))),
     ("Set" + d + "GainDecrement", Gate(!t.volume, WithSources(StepCb(false), registry, t.mixSource, p, "Gain", "Gain"))),
     ("Set" + d + " Volume", Gate(t.volume, Plain(SetValueCb(Integer), registry, p, "Volume", false))),
     ("Set" + d + "VolIncrement", Gate(t.volume, Plain(StepCb(true), registry, p, "Volume", false))),
     ("Set" + d + "VolDecrement", Gate(t.volume, Plain(StepCb(false), registry, p, "Volume", false))),
     ("Toggle" + d + "Generator", Gate(t.mic, Plain(ToggleCb, registry, p, "Generator", false))),
     ("Set" + d + "Pan", Gate(t.mixSource, WithSources(SetValueCb(Integer), registry, t.mixSource, p, "Gain", "Pan"))),
     ("Set" + d + "PanIncrement", Gate(t.mixSource, WithSources(StepCb(true), registry, t.mixSource, p, "Gain", "Pan"))),
     ("Set" + d + "PanDecrement", Gate(t.mixSource, WithSources(StepCb(false), registry, t.mixSource, p, "Gain", "Pan"))),
     ("Set" + d + "Generator", Gate(t.mic, AsSwitch(Plain(SetValueCb(Boolean), registry, p, "Generator", false)))),
     ("Toggle" + d + "Limiter", Gate(t.mic, Plain(ToggleCb, registry, p, "Limiter", false))),
     ("Set" + d + "Limiter", Gate(t.mic, AsSwitch(Plain(SetValueCb(Boolean), registry, p, "Limiter", false)))),
     ("Toggle" + d + "Link", Gate(t.mic, Plain(ToggleCb, registry, p, "Link", false))),
     ("Set" + d + "Link", Gate(t.mic, AsSwitch(Plain(SetValueCb(Boolean), registry, p, "Link", false)))),
     ("Toggle" + d + "Phantom", Gate(t.mic, Plain(ToggleCb, registry, p, "Phantom", false))),
     ("Set" + d + "Phantom", Gate(t.mic, AsSwitch(Plain(SetValueCb(Boolean), registry, p, "Phantom", false)))),
     ("Set" + d + "HPF", Gate(t.mic, Plain(SetValueCb(Enum), registry, p, "HPF", false).(values := Indexed(lists.hpf))))]
  }

  /** The switching, routing and monitoring actions of an interface. */
  function SwitchActions(registry: Option<seq<MonitoredParameter>>, lists: ChoiceLists, d: string, p: string, t: Traits): seq<ActionEntry> {
    [("Toggle" + d + "Mute", Some(WithSources(ToggleCb, registry, t.mixSource, p, "Mute", "Mute"))),
     ("Set" + d + "Mute", Some(AsSwitch(WithSources(SetValueCb(Boolean), registry, t.mixSource, p, "Mute", "Mute")))),
     ("Toggle" + d + "Stereo", Gate(!t.mic && !t.headphone, WithSources(ToggleCb, registry, t.mixSource, p, "Stereo", "Stereo"))),
     ("Set" + d + "Stereo", Gate(!t.mic && !t.headphone, AsSwitch(WithSources(SetValueCb(Boolean), registry, t.mixSource, p, "Stereo", "Stereo")))),
     ("Toggle" + d + "Mono", Gate(t.headphone, Plain(ToggleCb, registry, p, "Mono", false))),
     ("Set" + d + "Mono", Gate(t.headphone, AsSwitch(Plain(SetValueCb(Boolean), registry, p, "Mono", false)))),
     ("Toggle" + d + "Phase", Gate(t.phase, WithSources(ToggleCb, registry, t.mixSource, p, "Phase", "Phase"))),
     ("Set" + d + "Phase", Gate(t.phase, AsSwitch(WithSources(SetValueCb(Boolean), registry, t.mixSource, p, "Phase", "Phase")))),
     ("Set" + d + "Source", Gate(t.routed, Plain(SetValueCb(Integer), registry, p, "Source", false).(values := Indexed(SourceList(t, lists))))),
     ("Toggle" + d + "PFL", Gate(t.output, Plain(ToggleCb, registry, p, "PFL", false))),
     ("Set" + d + "PFL", Gate(t.output, AsSwitch(Plain(SetValueCb(Boolean), registry, p, "PFL", false)))),
     ("Toggle" + d + "Solo", Gate(t.output, Plain(ToggleCb, registry, p, "Solo", false))),
     ("Set" + d + "Solo", Gate(t.output, AsSwitch(Plain(SetValueCb(Boolean), registry, p, "Solo", false)))),
     ("Toggle" + d + "MON", Gate(t.monitored, Plain(ToggleCb, registry, p, "MON", false))),
     ("Set" + d + "MON", Gate(t.monitored, AsSwitch(Plain(ToggleCb, registry, p, "MON", false))))]
  }

  /** `GetActionsforInterface(d, p)`: every key of the interface, in declaration order. */
  function InterfaceActions(registry: Option<seq<MonitoredParameter>>, lists: ChoiceLists, d: string, p: string): seq<ActionEntry> {
    var t := TraitsOf(d);
    LevelActions(registry, lists, d, p, t) + SwitchActions(registry, lists, d, p, t)
  }

  /** Every interface key starts with "Set" or "Toggle", so none is one of the general keys. */
  lemma InterfaceKeys(registry: Option<seq<MonitoredParameter>>, lists: ChoiceLists, d: string, p: string)
    ensures forall k :: 0 <= k < |InterfaceActions(registry, lists, d, p)| ==>
      var key := InterfaceActions(registry, lists, d, p)[k].0;
      |key| > 0 && (key[0] == 'S' || key[0] == 'T')
  {
    var t := TraitsOf(d);
    var level := LevelActions(registry, lists, d, p, t);
    var switch := SwitchActions(registry, lists, d, p, t);
    assert forall k :: 0 <= k < |level| ==> |level[k].0| > 0 && (level[k].0[0] == 'S' || level[k].0[0] == 'T');
    assert forall k :: 0 <= k < |switch| ==> |switch[k].0| > 0 && (switch[k].0[0] == 'S' || switch[k].0[0] == 'T');
  }

  /** The Gain actions and the Volume actions exclude each other: an interface gets exactly one of
      the two families, the Volume family exactly when it is a volume interface; the Label action
      is always there. */
  lemma LevelFamilies(registry: Option<seq<MonitoredParameter>>, lists: ChoiceLists, d: string, p: string, t: Traits)
    ensures var e := LevelActions(registry, lists, d, p, t);
      e[0].0 == "Set" + d + "Label" && e[0].1.Some?
      && e[1].0 == "Set" + d + "Gain" && e[4].0 == "Set" + d + " Volume"
      && (e[1].1.Some? <==> !t.volume) && (e[4].1.Some? <==> t.volume)
      && e[1].1.Some? == e[2].1.Some? == e[3].1.Some?
      && e[4].1.Some? == e[5].1.Some? == e[6].1.Some?
  {
    var e := LevelActions(registry, lists, d, p, t);
    assert e[1].1.Some? == e[2].1.Some? == e[3].1.Some? == !t.volume;
    assert e[4].1.Some? == e[5].1.Some? == e[6].1.Some? == t.volume;
  }

  /** Mute can be toggled and set on every interface. */
  lemma MuteEverywhere(registry: Option<seq<MonitoredParameter>>, lists: ChoiceLists, d: string, p: string, t: Traits)
    ensures var e := SwitchActions(registry, lists, d, p, t);
      e[0].0 == "Toggle" + d + "Mute" && e[0].1.Some? && e[0].1.value.callback == ToggleCb
      && e[1].0 == "Set" + d + "Mute" && e[1].1.Some? && e[1].1.value.callback == SetValueCb(Boolean)
  {
  }

  /** The generator, limiter, link, phantom power and high-pass actions exist exactly on
      microphone interfaces. */
  lemma MicrophoneActions(registry: Option<seq<MonitoredParameter>>, lists: ChoiceLists, d: string, p: string, t: Traits)
    ensures var e := LevelActions(registry, lists, d, p, t);
      e[7].0 == "Toggle" + d + "Generator" && e[18].0 == "Set" + d + "HPF"
      && (e[7].1.Some? <==> t.mic) && (e[11].1.Some? <==> t.mic) && (e[12].1.Some? <==> t.mic)
      && (e[13].1.Some? <==> t.mic) && (e[14].1.Some? <==> t.mic) && (e[15].1.Some? <==> t.mic)
      && (e[16].1.Some? <==> t.mic) && (e[17].1.Some? <==> t.mic) && (e[18].1.Some? <==> t.mic)
      && (t.mic ==> e[18].1.value.values == Indexed(lists.hpf))
  {
  }

  /** Among the level actions, the value dropdowns offering 'true' and 'false' are exactly those
      of the actions that set a boolean. */
  lemma LevelOnOff(registry: Option<seq<MonitoredParameter>>, lists: ChoiceLists, d: string, p: string, t: Traits)
    ensures var e := LevelActions(registry, lists, d, p, t);
      forall k :: 0 <= k < |e| && e[k].1.Some? ==>
        (e[k].1.value.values == OnOff <==> e[k].1.value.callback == SetValueCb(Boolean))
  {
  }

  /** Among the switching actions, the value dropdowns offering 'true' and 'false' are exactly
      those of the actions that set a boolean, and of Set MON, which has one although its callback
      toggles. */
  lemma SwitchOnOff(registry: Option<seq<MonitoredParameter>>, lists: ChoiceLists, d: string, p: string, t: Traits)
    ensures var e := SwitchActions(registry, lists, d, p, t);
      e[14].0 == "Set" + d + "MON" &&
      forall k :: 0 <= k < |e| && e[k].1.Some? ==>
        (e[k].1.value.values == OnOff <==> e[k].1.value.callback == SetValueCb(Boolean) || k == 14)
  {
  }

  /** Pan exists exactly on the mix matrix sources. */
  lemma PanOnMixSources(registry: Option<seq<MonitoredParameter>>, lists: ChoiceLists, d: string, p: string, t: Traits)
    ensures var e := LevelActions(registry, lists, d, p, t);
      e[8].0 == "Set" + d + "Pan" && (e[8].1.Some? <==> t.mixSource)
      && e[8].1.Some? == e[9].1.Some? == e[10].1.Some?
  {
    var e := LevelActions(registry, lists, d, p, t);
    assert e[8].1.Some? == e[9].1.Some? == e[10].1.Some? == t.mixSource;
  }

  /** Mono exists exactly on headphone interfaces and Stereo exactly on the interfaces that are
      neither headphones nor microphones. */
  lemma MonoStereo(registry: Option<seq<MonitoredParameter>>, lists: ChoiceLists, d: string, p: string, t: Traits)
    ensures var e := SwitchActions(registry, lists, d, p, t);
      e[4].0 == "Toggle" + d + "Mono" && (e[4].1.Some? <==> t.headphone)
      && e[2].0 == "Toggle" + d + "Stereo" && (e[2].1.Some? <==> !t.mic && !t.headphone)
  {
  }

  /** Set Source exists on the routed interfaces and offers the headphone sources on a headphone
      interface, the input processing sources on an input processing one and the output sources
      elsewhere. */
  lemma SourceChoices(registry: Option<seq<MonitoredParameter>>, lists: ChoiceLists, d: string, p: string, t: Traits)
    ensures var e := SwitchActions(registry, lists, d, p, t);
      e[8].0 == "Set" + d + "Source" && (e[8].1.Some? <==> t.routed)
      && (t.routed ==> e[8].1.value.values == Indexed(if t.headphone then lists.hp
                                                       else if t.inputProc then lists.inputProc else lists.outputs))
  {
  }

  /** A channel dropdown offers exactly the registry entries whose label passes its filter, and an
      absent registry offers nothing. */
  lemma ChannelChoices(cb: Callback, registry: Option<seq<MonitoredParameter>>, parent: string, suffix: string,
                       noSource: bool, e: MonitoredParameter)
    ensures registry.None? ==> Plain(cb, registry, parent, suffix, noSource).paths == []
    ensures registry.Some? ==>
      (e in Plain(cb, registry, parent, suffix, noSource).paths <==> e in registry.value && ChannelOf(parent, suffix, noSource, e.dottedLabel))
  {
    if registry.Some? {
      PickedMembers(registry.value, lbl => ChannelOf(parent, suffix, noSource, lbl), e);
    }
  }

  /** "Analag" is not in "AnalogOut": the analogue outputs get the Gain actions and no Volume
      actions. */
  lemma AnalogOutputsGetGain()
    ensures !HasVolume("AnalogOut")
  {
    var s := "AnalogOut";
    forall i | 0 <= i < |s| ensures s[i] != 'H' && (i > 0 ==> s[i] != 'A') {
      if i == 0 {} else if i == 1 {} else if i == 2 {} else if i == 3 {} else if i == 4 {}
      else if i == 5 {} else if i == 6 {} else if i == 7 {} else {}
    }
    AbsentAfterFirst(s, "Analag", 4);
    AbsentAfterFirst(s, "AoIPOut", 1);
    AbsentAfterFirst(s, "AES3Out", 1);
    AbsentEverywhere(s, "HP");
  }



  /** `sub` is not in `s` when its first character occurs in `s` only at the start and the string
      there differs from `sub` at offset j. */
  lemma AbsentAfterFirst(s: string, sub: string, j: nat)
    requires 0 < j < |sub| <= |s| && s[j] != sub[j]
    requires forall i :: 0 < i < |s| ==> s[i] != sub[0]
    ensures !Contains(s, sub)
  {
    ContainsIffOccurs(s, sub);
  }

  /** `sub` is not in `s` when its first character is not. */
  lemma AbsentEverywhere(s: string, sub: string)
    requires 0 < |sub| && forall i :: 0 <= i < |s| ==> s[i] != sub[0]
    ensures !Contains(s, sub)
  {
    ContainsIffOccurs(s, sub);
  }

  // ---------------------------------------------------------------------------------------------
  // The actions dictionary

  /** One `if (config.<area>) for (... of Object.entries(GetActionsforInterface(name, parent)))`
      block of `GetActionsList`. */
  datatype Area = Area(enabled: bool, name: string, parent: string)

  /** The blocks of `GetActionsList`, in order: the mix matrix contributes its outputs and then its
      bus sources. */
  function Areas(c: Config): seq<Area> {
    [Area(c.micIn, "Mic", "Mic"), Area(c.aes3In, "AES3In", "Inputs.AESEBU"),
     Area(c.aes3Out, "AES3Out", "Outputs.AESEBU"), Area(c.analogOut, "AnalogOut", "Outputs.Analog"),
     Area(c.aoipIn, "AoIPIn", "Inputs.AoIP"), Area(c.aoipOut, "AoIPOut", "Outputs.AoIP"),
     Area(c.hpOut, "HP", "Outputs.HP"), Area(c.inputProc, "InputProcOut", "Processing.InputProcessing"),
     Area(c.outputProc, "OutputProc", "Processing.OutputProcessing"),
     Area(c.mixMatrix, "MixMatrixOut", "MixMatrix"), Area(c.mixMatrix, "MixMatrixSource", "MixMatrix.Bus")]
  }

  /** The entries one block copies: the interface's actions when its area is enabled. */
  function ActionGroup(a: Area, registry: Option<seq<MonitoredParameter>>, lists: ChoiceLists): seq<ActionEntry> {
    if a.enabled then InterfaceActions(registry, lists, a.name, a.parent) else []
  }

  /** The entries a run of blocks copies, in order. */
  function Groups(areas: seq<Area>, registry: Option<seq<MonitoredParameter>>, lists: ChoiceLists): seq<ActionEntry> {
    if areas == [] then []
    else Groups(areas[..|areas| - 1], registry, lists) + ActionGroup(areas[|areas| - 1], registry, lists)
  }

  /** Every entry `GetActionsList` copies, the general actions first. */
  function ActionEntries(c: Config, registry: Option<seq<MonitoredParameter>>, lists: ChoiceLists): seq<ActionEntry> {
    GeneralActions(registry) + Groups(Areas(c), registry, lists)
  }

  /** Keys that start with "S" or "T", as every interface key does. */
  predicate InterfaceKeyed(entries: seq<ActionEntry>) {
    forall k :: 0 <= k < |entries| ==> |entries[k].0| > 0 && (entries[k].0[0] == 'S' || entries[k].0[0] == 'T')
  }

  /** A concatenation of interface-keyed lists is interface keyed. */
  lemma KeyedAppend(a: seq<ActionEntry>, b: seq<ActionEntry>)
    requires InterfaceKeyed(a) && InterfaceKeyed(b)
    ensures InterfaceKeyed(a + b)
  {
    assert forall k :: |a| <= k < |a + b| ==> (a + b)[k] == b[k - |a|];
  }

  /** The blocks write only interface keys. */
  lemma {:induction false} GroupsKeyed(areas: seq<Area>, registry: Option<seq<MonitoredParameter>>, lists: ChoiceLists)
    ensures InterfaceKeyed(Groups(areas, registry, lists))
  {
    if areas != [] {
      var a := areas[|areas| - 1];
      GroupsKeyed(areas[..|areas| - 1], registry, lists);
      if a.enabled {
        InterfaceKeys(registry, lists, a.name, a.parent);
      }
      KeyedAppend(Groups(areas[..|areas| - 1], registry, lists), ActionGroup(a, registry, lists));
    }
  }

  /** The general definitions survive any entries with interface keys written after them. */
  lemma GeneralDefinitionsKept(registry: Option<seq<MonitoredParameter>>, rest: seq<ActionEntry>)
    requires InterfaceKeyed(rest)
    ensures var defs := Store(map[], GeneralActions(registry) + rest);
      "setValueExpression" in defs && defs["setValueExpression"] == Some(ActionDef(ExpressionCb, registry.GetOr([]), [], Typed))
      && "setSnapShotLoad" in defs && defs["setSnapShotLoad"] == Some(ActionDef(SnapLoadCb, [], [], Typed))
  {
    var general := GeneralActions(registry);
    StoreAppend([], map[], general, rest);
    StoreKeeps(Store(map[], general), rest, "setValueExpression");
    StoreKeeps(Store(map[], general), rest, "setSnapShotLoad");
  }

  /** The general keys stay first in the key order whatever is written after them. */
  lemma GeneralKeysFirst(registry: Option<seq<MonitoredParameter>>, rest: seq<ActionEntry>)
    ensures var order := StoreOrder([], GeneralActions(registry) + rest);
      |order| >= 2 && order[..2] == ["setValueExpression", "setSnapShotLoad"]
  {
    var general := GeneralActions(registry);
    StoreAppend([], map[], general, rest);
    assert general[..1] == [general[0]] && general[..1][..0] == [];
    assert StoreOrder([], general[..1]) == ["setValueExpression"];
    assert StoreOrder([], general) == ["setValueExpression", "setSnapShotLoad"];
    StoreOrderExtends(StoreOrder([], general), rest);
  }

  /** The two general actions are in every actions dictionary, with their own definitions, and
      come first in its key order: no interface action overwrites them. */
  lemma GeneralActionsKept(c: Config, registry: Option<seq<MonitoredParameter>>, lists: ChoiceLists)
    ensures var defs := Store(map[], ActionEntries(c, registry, lists));
      "setValueExpression" in defs && defs["setValueExpression"] == Some(ActionDef(ExpressionCb, registry.GetOr([]), [], Typed))
      && "setSnapShotLoad" in defs && defs["setSnapShotLoad"] == Some(ActionDef(SnapLoadCb, [], [], Typed))
    ensures var order := StoreOrder([], ActionEntries(c, registry, lists));
      |order| >= 2 && order[..2] == ["setValueExpression", "setSnapShotLoad"]
  {
    GroupsKeyed(Areas(c), registry, lists);
    GeneralDefinitionsKept(registry, Groups(Areas(c), registry, lists));
    GeneralKeysFirst(registry, Groups(Areas(c), registry, lists));
  }

  /** The blocks copy every entry of every enabled area. */
  lemma {:induction false} GroupsInclude(areas: seq<Area>, registry: Option<seq<MonitoredParameter>>, lists: ChoiceLists,
                                         i: nat, e: ActionEntry)
    requires i < |areas| && areas[i].enabled && e in InterfaceActions(registry, lists, areas[i].name, areas[i].parent)
    ensures e in Groups(areas, registry, lists)
  {
    var init := areas[..|areas| - 1];
    if i < |areas| - 1 {
      assert init[i] == areas[i];
      GroupsInclude(init, registry, lists, i, e);
    }
  }

  /** Every key of every enabled interface is in the actions dictionary (keys are never removed). */
  lemma InterfaceKeysPresent(c: Config, registry: Option<seq<MonitoredParameter>>, lists: ChoiceLists, i: nat, k: nat)
    requires i < |Areas(c)| && Areas(c)[i].enabled
    requires k < |InterfaceActions(registry, lists, Areas(c)[i].name, Areas(c)[i].parent)|
    ensures InterfaceActions(registry, lists, Areas(c)[i].name, Areas(c)[i].parent)[k].0
            in Store(map[], ActionEntries(c, registry, lists))
  {
    var a := Areas(c)[i];
    var e := InterfaceActions(registry, lists, a.name, a.parent)[k];
    var entries := ActionEntries(c, registry, lists);
    GroupsInclude(Areas(c), registry, lists, i, e);
    assert e in entries;
    var j :| 0 <= j < |entries| && entries[j] == e;
    StoreKeeps(map[], entries, e.0);
  }

  /** The key order `GetActionsList` returns lists every key of its dictionary exactly once. */
  lemma ActionKeysListed(c: Config, registry: Option<seq<MonitoredParameter>>, lists: ChoiceLists)
    ensures var entries := ActionEntries(c, registry, lists);
      Distinct(StoreOrder([], entries)) && forall k :: k in Store(map[], entries) <==> k in StoreOrder([], entries)
  {
    StoreOrderValid([], map[], ActionEntries(c, registry, lists));
  }

  /** Writing more entries only appends to the key order. */
  lemma {:induction false} StoreOrderExtends(keys: seq<string>, entries: seq<ActionEntry>)
    ensures |keys| <= |StoreOrder(keys, entries)| && StoreOrder(keys, entries)[..|keys|] == keys
  {
    if entries != [] {
      StoreOrderExtends(keys, entries[..|entries| - 1]);
    }
  }

  /** `GetActionsList`: a fresh dictionary filled with the general actions and then by each block
      in turn, returned with its key order. The eleven blocks of the source differ only in their
      flag, interface name and parent path, so they run here as one loop over `Areas(c)`. */
  method GetActionsList(c: Config, registry: Option<seq<MonitoredParameter>>, lists: ChoiceLists)
    returns (defs: map<string, Option<ActionDef>>, keys: seq<string>)
    ensures defs == Store(map[], ActionEntries(c, registry, lists))
    ensures keys == StoreOrder([], ActionEntries(c, registry, lists))
  {
    defs, keys := WriteAll(map[], [], GeneralActions(registry));
    defs, keys := CopyGroups(Areas(c), registry, lists, defs, keys);
    StoreAppend([], map[], GeneralActions(registry), Groups(Areas(c), registry, lists));
  }

  /** The blocks of `areas`, one after the other, on a dictionary that holds `d0` with key order
      `k0`. */
  method CopyGroups(areas: seq<Area>, registry: Option<seq<MonitoredParameter>>, lists: ChoiceLists,
                    d0: map<string, Option<ActionDef>>, k0: seq<string>)
    returns (defs: map<string, Option<ActionDef>>, keys: seq<string>)
    ensures defs == Store(d0, Groups(areas, registry, lists)) && keys == StoreOrder(k0, Groups(areas, registry, lists))
  {
    defs, keys := d0, k0;
    ghost var done: seq<Area> := [];
    for i := 0 to |areas|
      invariant done == areas[..i]
      invariant defs == Store(d0, Groups(done, registry, lists)) && keys == StoreOrder(k0, Groups(done, registry, lists))
    {
      defs, keys, done := CopyGroup(areas[i], registry, lists, defs, keys, d0, k0, done);
    }
    assert done == areas;
  }

  /** One block, on a dictionary that holds `d0` (with key order `k0`) updated by the blocks `done`
      before it. */
  method CopyGroup(a: Area, registry: Option<seq<MonitoredParameter>>, lists: ChoiceLists,
                   defs: map<string, Option<ActionDef>>, keys: seq<string>,
                   ghost d0: map<string, Option<ActionDef>>, ghost k0: seq<string>, ghost done: seq<Area>)
    returns (defs': map<string, Option<ActionDef>>, keys': seq<string>, ghost done': seq<Area>)
    requires defs == Store(d0, Groups(done, registry, lists)) && keys == StoreOrder(k0, Groups(done, registry, lists))
    ensures done' == done + [a]
    ensures defs' == Store(d0, Groups(done', registry, lists)) && keys' == StoreOrder(k0, Groups(done', registry, lists))
  {
    defs', keys' := defs, keys;
    if a.enabled {
      defs', keys' := WriteAll(defs, keys, InterfaceActions(registry, lists, a.name, a.parent));
    }
    done' := done + [a];
    assert done'[..|done'| - 1] == done;
    StoreAppend(k0, d0, Groups(done, registry, lists), ActionGroup(a, registry, lists));
  }
}
