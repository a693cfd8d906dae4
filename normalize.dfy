/** How a changed parameter value becomes the mirror's canonical value, and how enumeration
    parameters seed the choice lists used by actions and feedbacks (src/index.ts, handleChangedValue). */
module Normalize {
  import opened Strings
  import opened Ember

  /** `options.at(n)`: `n` is first made an integer (NaN becomes 0); a negative index counts from
      the end; an index outside the list, or an infinite one, gives undefined. */
  function At(options: seq<string>, n: Num): (r: Option<string>)
    ensures r.Some? ==> r.value in options
    ensures n.NaN? ==> r == (if |options| > 0 then Some(options[0]) else None)
    ensures n.Int? && 0 <= n.i < |options| ==> r == Some(options[n.i])
    ensures n.Int? && -|options| <= n.i < 0 ==> r == Some(options[|options| + n.i])
    ensures r.None? <==> n.PosInf? || n.NegInf? || (n.Int? && (n.i >= |options| || n.i < -|options|))
                         || (n.NaN? && |options| == 0)
  {
    match n
    case NaN => if |options| > 0 then Some(options[0]) else None
    case PosInf => None
    case NegInf => None
    case Int(i) =>
      if 0 <= i < |options| then Some(options[i])
      else if -|options| <= i < 0 then Some(options[|options| + i])
      else None
  }

  /** A negative index reaches the same entry as the non-negative one a list length above it. */
  lemma AtWraps(options: seq<string>, i: int)
    requires 0 <= i < |options|
    ensures At(options, Int(i - |options|)) == At(options, Int(i)) == Some(options[i])
  {
  }

  /** The text an enumeration parameter shows: the entry its value selects among the enumeration's
      lines, or the empty string when there is none. */
  function EnumText(enumeration: string, value: Option<RawValue>): string {
    At(Split(enumeration, '\n'), RawToNumber(value)).GetOr("")
  }

  /** The shown text is always one of the enumeration's lines, or empty. */
  lemma EnumTextIsLine(enumeration: string, value: Option<RawValue>)
    ensures EnumText(enumeration, value) in Split(enumeration, '\n') || EnumText(enumeration, value) == ""
  {
  }

  /** `(value / factor).toString()` for an integer value and factor. An exact quotient is written
      as its decimal text; a division by zero gives "Infinity", "-Infinity" or "NaN"; any other
      quotient is a decimal fraction, kept abstract as `VScaled`. */
  function Scaled(n: Num, factor: int): (r: Value)
    ensures r.VScaled? ==> n.Int? && factor != 0 && n.i % factor != 0
  {
    match n
    case NaN => VText("NaN")
    case PosInf => VText(if factor >= 0 then "Infinity" else "-Infinity")
    case NegInf => VText(if factor >= 0 then "-Infinity" else "Infinity")
    case Int(i) =>
      if factor == 0 then VText(if i > 0 then "Infinity" else if i < 0 then "-Infinity" else "NaN")
      else if i % factor == 0 then VText(DecimalText(i / factor))
      else VScaled(i, factor)
  }

  /** An exact quotient is shown as text that reads back as the quotient, and the quotient times
      the factor gives back the raw value. */
  lemma ScaledExact(i: int, factor: int)
    requires factor != 0 && i % factor == 0
    ensures Scaled(Int(i), factor).VText?
    ensures ParseNumber(Scaled(Int(i), factor).s) == Int(i / factor)
    ensures (i / factor) * factor == i
  {
    DecimalRoundTrip(i / factor);
  }

  /** The canonical value of a parameter: its enumeration entry when it has an enumeration, its
      scaled value when it has a factor, else its raw value (the empty string when it has none). */
  function Canonical(c: Content): (r: Value)
    ensures c.enumeration.Some? ==>
      r.VText? && (r.s == "" || r.s in Split(c.enumeration.value, '\n'))
    ensures c.enumeration.None? && c.factor.None? && c.value.None? ==> r == VText("")
    ensures c.enumeration.Some? && c.value.Some? && c.value.value.RInt? ==>
      var lines, i := Split(c.enumeration.value, '\n'), c.value.value.i;
      (0 <= i < |lines| ==> r == VText(lines[i])) && (-|lines| <= i < 0 ==> r == VText(lines[|lines| + i]))
      && (i >= |lines| || i < -|lines| ==> r == VText(""))
    ensures c.enumeration.None? && c.factor.None? && c.value.Some? && c.value.value.RInt? ==> r == VInt(c.value.value.i)
    ensures c.enumeration.None? && c.factor.None? && c.value.Some? && c.value.value.RStr? ==> r == VText(c.value.value.s)
    ensures c.enumeration.None? && c.factor.None? && c.value.Some? && c.value.value.RBool? ==> r == VBool(c.value.value.b)
  {
    if c.enumeration.Some? then
      EnumTextIsLine(c.enumeration.value, c.value);
      VText(EnumText(c.enumeration.value, c.value))
    else if c.factor.Some? then Scaled(RawToNumber(c.value), c.factor.value)
    else match c.value
      case None => VText("")
      case Some(RInt(i)) => VInt(i)
      case Some(RStr(s)) => VText(s)
      case Some(RBool(b)) => VBool(b)
  }

  /** The lines of a three-line enumeration. */
  lemma ThreeLines(a: string, b: string, c: string)
    requires '\n' !in a && '\n' !in b && '\n' !in c
    ensures Split(a + "\n" + b + "\n" + c, '\n') == [a, b, c]
  {
    SplitAfterFirst(b, c, '\n');
    SplitAfterFirst(a, b + "\n" + c, '\n');
    assert a + "\n" + b + "\n" + c == a + ['\n'] + (b + "\n" + c);
  }

  /** For an enumeration of three lines a, b, c: value 2 shows c, value -1 (counted from the end)
      also c, value 9 nothing, and a value that is not a number (NaN selects index 0) shows a. */
  lemma CanonicalEnumExamples(a: string, b: string, d: string, c: Content)
    requires '\n' !in a && '\n' !in b && '\n' !in d
    requires c.enumeration == Some(a + "\n" + b + "\n" + d)
    ensures c.value == Some(RInt(2)) ==> Canonical(c) == VText(d)
    ensures c.value == Some(RInt(-1)) ==> Canonical(c) == VText(d)
    ensures c.value == Some(RInt(9)) ==> Canonical(c) == VText("")
    ensures c.value == Some(RStr("x")) ==> Canonical(c) == VText(a)
    ensures c.value.None? ==> Canonical(c) == VText(a)
  {
    ThreeLines(a, b, d);
    var x := "x";
    assert !IsDigit(x[0]);
    assert x != "Infinity" && x != "-Infinity";
    assert ParseNumber(x) == NaN;
  }

  /** 480 with factor 10 shows "48"; 485 with factor 10 is a fraction; factor 0 gives "Infinity". */
  lemma CanonicalScaledExamples(c: Content)
    requires c.enumeration.None? && c.factor.Some?
    ensures c.value == Some(RInt(480)) && c.factor.value == 10 ==> Canonical(c) == VText("48")
    ensures c.value == Some(RInt(485)) && c.factor.value == 10 ==> Canonical(c) == VScaled(485, 10)
    ensures c.value == Some(RInt(5)) && c.factor.value == 0 ==> Canonical(c) == VText("Infinity")
    ensures c.value.None? ==> Canonical(c) == VText("NaN")
  {
    assert DigitsText(48) == "48";
  }

  // ---------------------------------------------------------------------------------------------
  // Choice lists

  /** The four choice lists an enumeration parameter may seed. */
  datatype ChoiceLists = ChoiceLists(hp: seq<string>, inputProc: seq<string>, outputs: seq<string>, hpf: seq<string>)

  const NoChoices := ChoiceLists([], [], [], [])

  /** The first applicable capture for a parameter with an enumeration, in order: a path mentioning
      "HP" with no headphone sources yet, "InputProcessing" with no input-processing sources,
      "Outputs" with no output sources, "HPF" with no high-pass choices. */
  function CaptureChoices(lists: ChoiceLists, path: string, enumeration: string): ChoiceLists {
    var options := Split(enumeration, '\n');
    if Contains(path, "HP") && lists.hp == [] then lists.(hp := options)
    else if Contains(path, "InputProcessing") && lists.inputProc == [] then lists.(inputProc := options)
    else if Contains(path, "Outputs") && lists.outputs == [] then lists.(outputs := options)
    else if Contains(path, "HPF") && lists.hpf == [] then lists.(hpf := options)
    else lists
  }

  /** Capturing fills at most one list, only an empty one, and only with the enumeration's lines;
      a non-empty list is never replaced. */
  lemma CaptureOnlyFillsEmpty(lists: ChoiceLists, path: string, enumeration: string)
    ensures var r := CaptureChoices(lists, path, enumeration);
      var options := Split(enumeration, '\n');
      (r.hp == lists.hp || (lists.hp == [] && r.hp == options)) &&
      (r.inputProc == lists.inputProc || (lists.inputProc == [] && r.inputProc == options)) &&
      (r.outputs == lists.outputs || (lists.outputs == [] && r.outputs == options)) &&
      (r.hpf == lists.hpf || (lists.hpf == [] && r.hpf == options))
    ensures var r := CaptureChoices(lists, path, enumeration);
      (r.hp == lists.hp && r.inputProc == lists.inputProc && r.outputs == lists.outputs) ||
      (r.hp == lists.hp && r.inputProc == lists.inputProc && r.hpf == lists.hpf) ||
      (r.hp == lists.hp && r.outputs == lists.outputs && r.hpf == lists.hpf) ||
      (r.inputProc == lists.inputProc && r.outputs == lists.outputs && r.hpf == lists.hpf)
  {
  }

  /** Once every list is non-empty, capturing changes nothing. */
  lemma CaptureIdleWhenFull(lists: ChoiceLists, path: string, enumeration: string)
    requires lists.hp != [] && lists.inputProc != [] && lists.outputs != [] && lists.hpf != []
    ensures CaptureChoices(lists, path, enumeration) == lists
  {
  }

  /** Every path containing "HPF" also contains "HP", so while the headphone list is empty a
      high-pass parameter's choices fill the headphone list, and the high-pass list is only ever
      filled by a path that mentions "HPF" once the headphone list is already set. */
  lemma HighPassCapturedAsHeadphone(lists: ChoiceLists, path: string, enumeration: string)
    ensures Contains(path, "HPF") && lists.hp == [] ==>
      CaptureChoices(lists, path, enumeration) == lists.(hp := Split(enumeration, '\n'))
    ensures CaptureChoices(lists, path, enumeration).hpf != lists.hpf ==>
      Contains(path, "HPF") && lists.hp != [] && lists.hpf == []
  {
    if Contains(path, "HPF") {
      ContainsPrefixOfSub(path, "HPF", "HP");
    }
  }
}
