/** String operations the module relies on, written with the JavaScript semantics it uses:
    `includes`, `startsWith`, `endsWith`, `split` on one character, `join`, `replace` of the first
    occurrence of a character, and `Number(...)` on a string (restricted, see ParseNumber). */
module Strings {

  /** `s.startsWith(prefix)` */
  predicate StartsWith(s: string, prefix: string) {
    |prefix| <= |s| && s[..|prefix|] == prefix
  }

  /** `s.endsWith(suffix)` */
  predicate EndsWith(s: string, suffix: string) {
    |suffix| <= |s| && s[|s| - |suffix|..] == suffix
  }

  /** `s.includes(sub)`, defined by scanning so that it can be evaluated on literals. */
  predicate Contains(s: string, sub: string)
    decreases |s|
  {
    StartsWith(s, sub) || (|s| > 0 && Contains(s[1..], sub))
  }

  /** `sub` occurs in `s` at offset `i`. */
  predicate OccursAt(s: string, sub: string, i: int) {
    0 <= i <= |s| - |sub| && s[i..i + |sub|] == sub
  }

  /** The scanning definition of Contains agrees with "sub occurs at some offset", both ways. */
  lemma {:induction false} ContainsIffOccurs(s: string, sub: string)
    ensures Contains(s, sub) <==> exists i :: OccursAt(s, sub, i)
    decreases |s|
  {
    if StartsWith(s, sub) {
      assert OccursAt(s, sub, 0);
    } else if |s| == 0 {
      assert |sub| > 0;
    } else {
      ContainsIffOccurs(s[1..], sub);
      if Contains(s[1..], sub) {
        var i :| OccursAt(s[1..], sub, i);
        assert s[1..][i..i + |sub|] == s[i + 1..i + 1 + |sub|];
        assert OccursAt(s, sub, i + 1);
      }
      if exists i :: OccursAt(s, sub, i) {
        var i :| OccursAt(s, sub, i);
        assert i != 0 by { assert s[..|sub|] == s[0..0 + |sub|]; }
        assert s[1..][i - 1..i - 1 + |sub|] == s[i..i + |sub|];
        assert OccursAt(s[1..], sub, i - 1);
      }
    }
  }

  /** A string that contains `sub` contains every prefix of `sub`. */
  lemma {:induction false} ContainsPrefixOfSub(s: string, sub: string, p: string)
    requires Contains(s, sub) && StartsWith(sub, p)
    ensures Contains(s, p)
    decreases |s|
  {
    if StartsWith(s, sub) {
      assert s[..|p|] == sub[..|p|];
    } else {
      ContainsPrefixOfSub(s[1..], sub, p);
    }
  }

  /** Position of the first `c` in `s`. */
  function IndexOf(s: string, c: char): (i: nat)
    requires c in s
    ensures i < |s| && s[i] == c && c !in s[..i]
  {
    if s[0] == c then 0
    else
      assert c in s[1..] by { assert s == [s[0]] + s[1..]; }
      var k := IndexOf(s[1..], c);
      assert s[..k + 1] == [s[0]] + s[1..][..k];
      k + 1
  }

  /** `s.split(sep)` for a one-character separator: the pieces between separators, at least one. */
  function Split(s: string, sep: char): (r: seq<string>)
    ensures |r| >= 1
    ensures forall k :: 0 <= k < |r| ==> sep !in r[k]
    decreases |s|
  {
    if sep !in s then [s]
    else
      var i := IndexOf(s, sep);
      [s[..i]] + Split(s[i + 1..], sep)
  }

  /** `parts.join(sep)` */
  function Join(parts: seq<string>, sep: char): string {
    if |parts| == 0 then ""
    else if |parts| == 1 then parts[0]
    else parts[0] + [sep] + Join(parts[1..], sep)
  }

  /** Joining the pieces of a split gives back the string. */
  lemma {:induction false} JoinSplit(s: string, sep: char)
    ensures Join(Split(s, sep), sep) == s
    decreases |s|
  {
    if sep in s {
      var i := IndexOf(s, sep);
      var head, tail := s[..i], s[i + 1..];
      var rest := Split(tail, sep);
      var parts := [head] + rest;
      assert Split(s, sep) == parts;
      JoinSplit(tail, sep);
      assert parts[1..] == rest;
      assert Join(parts, sep) == head + [sep] + Join(rest, sep);
      assert s == head + [sep] + tail;
    }
  }

  /** Splitting `a + [sep] + b`, where `a` has no separator, gives `a` and then the pieces of `b`. */
  lemma SplitAfterFirst(a: string, b: string, sep: char)
    requires sep !in a
    ensures Split(a + [sep] + b, sep) == [a] + Split(b, sep)
  {
    var s := a + [sep] + b;
    assert s[|a|] == sep;
    var i := IndexOf(s, sep);
    assert forall k :: 0 <= k < |a| ==> s[k] == a[k];
    assert forall k :: 0 <= k < i ==> s[..i][k] == s[k];
    assert i == |a|;
    assert s[..i] == a;
    assert s[i + 1..] == b;
  }

  /** Splitting the join of separator-free pieces gives back the pieces. */
  lemma {:induction false} SplitJoin(parts: seq<string>, sep: char)
    requires |parts| >= 1
    requires forall k :: 0 <= k < |parts| ==> sep !in parts[k]
    ensures Split(Join(parts, sep), sep) == parts
  {
    if |parts| == 1 {
      assert Split(parts[0], sep) == [parts[0]];
    } else {
      SplitJoin(parts[1..], sep);
      SplitAfterFirst(parts[0], Join(parts[1..], sep), sep);
      assert parts == [parts[0]] + parts[1..];
    }
  }

  /** Joining one more piece onto a non-empty list appends the separator and the piece. */
  lemma {:induction false} JoinSnoc(parts: seq<string>, x: string, sep: char)
    requires |parts| >= 1
    ensures Join(parts + [x], sep) == Join(parts, sep) + [sep] + x
  {
    if |parts| > 1 {
      JoinSnoc(parts[1..], x, sep);
      assert (parts + [x])[1..] == parts[1..] + [x];
    }
  }

  /** `s.replace(c, '')` with a one-character pattern: drops the first occurrence of `c` only. */
  function ReplaceFirst(s: string, c: char): (r: string)
    ensures c !in s ==> r == s
    ensures c in s ==> |r| == |s| - 1
    ensures forall x :: x in r ==> x in s
  {
    if s == [] then s
    else if s[0] == c then s[1..]
    else [s[0]] + ReplaceFirst(s[1..], c)
  }

  /** The character removed is the first `c`: the text before it, then the text after it. */
  lemma {:induction false} ReplaceFirstDropsFirst(s: string, c: char)
    requires c in s
    ensures ReplaceFirst(s, c) == s[..IndexOf(s, c)] + s[IndexOf(s, c) + 1..]
    decreases |s|
  {
    if s[0] != c {
      assert s == [s[0]] + s[1..];
      var k := IndexOf(s[1..], c);
      ReplaceFirstDropsFirst(s[1..], c);
      assert IndexOf(s, c) == k + 1;
      assert s[..k + 1] == [s[0]] + s[1..][..k];
      assert s[k + 2..] == s[1..][k + 1..];
    }
  }

  /** `s.split(sep).pop()`: the text after the last separator (all of `s` when there is none). */
  function LastSegment(s: string, sep: char): (r: string)
    ensures sep !in r
  {
    var parts := Split(s, sep);
    parts[|parts| - 1]
  }

  // ---------------------------------------------------------------------------------------------
  // Numbers as JavaScript coerces them

  /** A JavaScript number as far as the module uses it: integral values, the infinities and NaN. */
  datatype Num = Int(i: int) | PosInf | NegInf | NaN

  /** `a > b` for a coerced number and an integer; NaN compares false. */
  predicate Gt(a: Num, b: int) {
    match a
    case Int(i) => i > b
    case PosInf => true
    case NegInf => false
    case NaN => false
  }

  /** `a < b` for a coerced number and an integer; NaN compares false. */
  predicate Lt(a: Num, b: int) {
    match a
    case Int(i) => i < b
    case PosInf => false
    case NegInf => true
    case NaN => false
  }

  /** `a + k` */
  function Add(a: Num, k: int): Num {
    match a
    case Int(i) => Int(i + k)
    case _ => a
  }

  /** `a - k` */
  function Sub(a: Num, k: int): Num {
    match a
    case Int(i) => Int(i - k)
    case _ => a
  }

  predicate IsDigit(c: char) {
    '0' <= c <= '9'
  }

  /** Value of a string of decimal digits, read most significant first. */
  function DigitsValue(s: string): (v: nat)
    requires forall k :: 0 <= k < |s| ==> IsDigit(s[k])
  {
    if s == [] then 0
    else
      assert IsDigit(s[|s| - 1]);
      DigitsValue(s[..|s| - 1]) * 10 + (s[|s| - 1] as int - '0' as int)
  }

  predicate AllDigits(s: string) {
    |s| > 0 && forall k :: 0 <= k < |s| ==> IsDigit(s[k])
  }

  /** `Number(s)` for the forms that occur here: the empty string is 0, an optional '-' followed by
      decimal digits is that integer, "Infinity" and "-Infinity" are the infinities, anything else
      is NaN. */
  function ParseNumber(s: string): (n: Num)
    ensures n.Int? && s != [] && s[0] != '-' ==> AllDigits(s)
  {
    if s == "" then Int(0)
    else if s == "Infinity" then PosInf
    else if s == "-Infinity" then NegInf
    else if AllDigits(s) then Int(DigitsValue(s))
    else if s[0] == '-' && AllDigits(s[1..]) then Int(-(DigitsValue(s[1..]) as int))
    else NaN
  }

  /** The decimal text of a natural number, as `toString` writes it. */
  function DigitsText(n: nat): (s: string)
    ensures AllDigits(s)
  {
    if n < 10 then [('0' as int + n) as char]
    else DigitsText(n / 10) + [('0' as int + n % 10) as char]
  }

  /** The decimal text of an integer, as `toString` writes it. */
  function DecimalText(n: int): string {
    if n < 0 then "-" + DigitsText(-n) else DigitsText(n)
  }

  lemma {:induction false} DigitsRoundTrip(n: nat)
    ensures DigitsValue(DigitsText(n)) == n
  {
    if n >= 10 {
      DigitsRoundTrip(n / 10);
      var s := DigitsText(n);
      assert s[..|s| - 1] == DigitsText(n / 10);
    }
  }

  /** Reading back the text `toString` writes for an integer gives that integer. */
  lemma DecimalRoundTrip(n: int)
    ensures ParseNumber(DecimalText(n)) == Int(n)
  {
    if n < 0 {
      DigitsRoundTrip(-n);
      var s := DecimalText(n);
      assert s[1..] == DigitsText(-n);
      assert !AllDigits(s) by { assert !IsDigit(s[0]); }
      assert s != "Infinity" by { assert s[0] != "Infinity"[0]; }
    } else {
      DigitsRoundTrip(n);
      var s := DecimalText(n);
      assert s != "Infinity" by { assert IsDigit(s[0]); }
      assert s != "-Infinity" by { assert IsDigit(s[0]); }
    }
  }
}
