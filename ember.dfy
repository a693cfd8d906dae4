/** The records the module exchanges with an Ember+ provider and keeps for itself: tree elements
    as the protocol client exposes them (with their children already fetched), the configuration,
    filter rules, registered parameters and canonical values. */
module Ember {
  import opened Strings

  datatype Option<T> = None | Some(value: T) {
    /** `x ?? d` */
    function GetOr(d: T): T {
      match this
      case Some(v) => v
      case None => d
    }
  }

  /** A parameter's raw value as the provider reports it. */
  datatype RawValue = RInt(i: int) | RStr(s: string) | RBool(b: bool)

  /** The protocol's parameter types. */
  datatype ParameterType = Integer | Real | String | Boolean | Trigger | Enum | Octets

  /** The JSON content of a parameter, restricted to the fields the module reads. */
  datatype Content = Content(
    path: Option<string>,
    value: Option<RawValue>,
    kind: ParameterType,
    enumeration: Option<string>,
    factor: Option<int>,
    minimum: Option<int>,
    maximum: Option<int>)

  /** An element of the provider's tree. `Other` stands for matrices and functions, which the
      module neither descends into nor registers. The root is a `Node`. */
  datatype Element =
    | Node(number: int, identifier: string, online: bool, children: seq<Element>)
    | Parameter(number: int, identifier: string, content: Content)
    | Other(number: int, identifier: string)

  /** The configuration fields the core reads: one toggle per device area (an absent toggle is
      false) and the two mix-bus range bounds (absent or set from a dropdown). */
  datatype Config = Config(
    micIn: bool, analogOut: bool, aes3In: bool, aes3Out: bool, aoipIn: bool, aoipOut: bool,
    hpOut: bool, inputProc: bool, outputProc: bool, mixMatrix: bool,
    mixBusStart: Option<int>, mixBusEnd: Option<int>)

  /** A compiled path filter: a dotted path prefix. Its segments are derived from it (see
      `Filters.Elements`). */
  datatype FilterRule = FilterRule(path: string)

  /** A registry entry: the parameter's protocol path and the dotted label built during the walk. */
  datatype MonitoredParameter = MonitoredParameter(id: string, dottedLabel: string)

  /** A canonical value as the mirror holds it. `VScaled(raw, factor)` stands for the decimal text
      JavaScript writes for the non-integral quotient raw / factor. */
  datatype Value = VText(s: string) | VInt(i: int) | VBool(b: bool) | VScaled(raw: int, factor: int)

  /** JavaScript truthiness of an optional number: absent and 0 are false. */
  predicate Truthy(n: Option<int>) {
    n.Some? && n.value != 0
  }

  /** `Number(v)` for a raw value; `undefined` becomes NaN. */
  function RawToNumber(v: Option<RawValue>): Num {
    match v
    case None => NaN
    case Some(RInt(i)) => Int(i)
    case Some(RBool(b)) => Int(if b then 1 else 0)
    case Some(RStr(s)) => ParseNumber(s)
  }
}
