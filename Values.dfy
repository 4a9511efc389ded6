/** Decoded message values: what the JSON formatter hands to the router and
    to the peer once a frame has been parsed (`json_decode($raw, true)`),
    and the PHP truth tests the core applies to them. */
module Values {

  datatype Option<T> = None | Some(value: T)

  /** A decoded value. JSON objects decode to associative arrays (`Dict`),
      JSON arrays to sequential arrays (`List`). */
  datatype Value =
    | Null
    | Bool(b: bool)
    | Int(i: int)
    | Str(s: string)
    | List(items: seq<Value>)
    | Dict(fields: map<string, Value>)

  /** An empty PHP `array()`: JSON-encodes as `[]`. */
  const EmptyArray: Value := List([])

  /** An empty `\StdClass` object: JSON-encodes as `{}`. */
  const EmptyObject: Value := Dict(map[])

  /** The values a PHP `array` type hint accepts. */
  predicate IsArray(v: Value) {
    v.List? || v.Dict?
  }

  /** PHP's conversion to bool: null, false, 0, "", "0" and the empty array
      are false, everything else is true. */
  predicate Truthy(v: Value) {
    match v
    case Null => false
    case Bool(b) => b
    case Int(i) => i != 0
    case Str(s) => s != "" && s != "0"
    case List(items) => |items| != 0
    case Dict(fields) => |fields| != 0
  }

  /** `isset($v[$key]) && $v[$key]` for a string key. Only an associative
      array can hold a string key; isset is false for a null entry. */
  predicate FlagSet(v: Value, key: string) {
    v.Dict? && key in v.fields && Truthy(v.fields[key])
  }

  /** PHP's loose `$v == code` (as used by `switch` and `in_array`) for a
      positive integer constant, over the values the model distinguishes:
      the integer itself, or `true`. */
  predicate LooseEquals(v: Value, code: nat)
    requires code > 0
  {
    v == Int(code) || v == Bool(true)
  }

  /** The case a PHP `switch` over positive integer labels takes: the first
      label the subject loosely equals, if any. */
  function FirstMatch(subject: Value, labels: seq<nat>): (r: Option<nat>)
    requires forall k :: 0 <= k < |labels| ==> labels[k] > 0
    ensures r.Some? ==> exists k :: 0 <= k < |labels| && labels[k] == r.value
                                    && LooseEquals(subject, labels[k])
                                    && forall j :: 0 <= j < k ==> !LooseEquals(subject, labels[j])
    ensures r.None? <==> forall k :: 0 <= k < |labels| ==> !LooseEquals(subject, labels[k])
  {
    if labels == [] then None
    else if LooseEquals(subject, labels[0]) then Some(labels[0])
    else
      var r := FirstMatch(subject, labels[1..]);
      assert forall k :: 1 <= k < |labels| ==> labels[k] == labels[1..][k - 1];
      r
  }

  /** The same case in closed form: `true` takes the first label, an
      integer takes its own label if there is one, and nothing else matches. */
  function SwitchCase(subject: Value, labels: seq<nat>): Option<nat> {
    if subject == Bool(true) && labels != [] then Some(labels[0])
    else if subject.Int? && subject.i >= 0 && subject.i as nat in labels then Some(subject.i as nat)
    else None
  }

  lemma {:induction false} SwitchCaseIsFirstMatch(subject: Value, labels: seq<nat>)
    requires forall k :: 0 <= k < |labels| ==> labels[k] > 0
    ensures FirstMatch(subject, labels) == SwitchCase(subject, labels)
  {
    if labels != [] && !LooseEquals(subject, labels[0]) {
      SwitchCaseIsFirstMatch(subject, labels[1..]);
      assert forall t :: t in labels <==> t == labels[0] || t in labels[1..];
    }
  }

  predicate IsDigit(c: char) {
    '0' <= c <= '9'
  }

  /** The whitespace PHP skips before a numeric string: space, tab, line
      feed, vertical tab, form feed and carriage return. */
  predicate IsSpace(c: char) {
    c == ' ' || 9 <= c as int <= 13
  }

  /** The longest prefix of decimal digits. */
  function DigitRun(s: string): (d: string)
    ensures d <= s && forall k :: 0 <= k < |d| ==> IsDigit(d[k])
    ensures |d| < |s| ==> !IsDigit(s[|d|])
  {
    if s == [] || !IsDigit(s[0]) then [] else [s[0]] + DigitRun(s[1..])
  }

  /** The number a string of decimal digits spells. */
  function DigitsValue(d: string): nat
    requires forall k :: 0 <= k < |d| ==> IsDigit(d[k])
  {
    if d == [] then 0
    else
      assert IsDigit(d[|d| - 1]);
      DigitsValue(d[..|d| - 1]) * 10 + (d[|d| - 1] as int - '0' as int)
  }

  /** The decimal spelling of a natural number, with no leading zero. */
  function Decimal(n: nat): string {
    if n < 10 then [('0' as int + n) as char] else Decimal(n / 10) + [('0' as int + n % 10) as char]
  }

  /** The integer a leading-numeric string starts with: leading whitespace
      is skipped, then an optional sign and at least one digit are read;
      None when there are no digits. */
  function NumberPrefix(s: string): Option<int> {
    if s != [] && IsSpace(s[0]) then NumberPrefix(s[1..])
    else
      var negative := s != [] && s[0] == '-';
      var body := if s != [] && (s[0] == '-' || s[0] == '+') then s[1..] else s;
      var d := DigitRun(body);
      var value: int := DigitsValue(d);
      if d == [] then None else Some(if negative then -value else value)
  }

  /** What an `int` parameter of a PHP 7 built-in function receives under
      weak typing: an integer as is, a bool as 0 or 1, null as 0, and a
      numeric or leading-numeric string as the integer it starts with
      (with a notice for trailing characters). Any other string and an
      array are refused with a warning and the call returns null (None). */
  function WeakInt(v: Value): Option<int> {
    match v
    case Int(i) => Some(i)
    case Bool(b) => Some(if b then 1 else 0)
    case Null => Some(0)
    case Str(s) => NumberPrefix(s)
    case List(_) => None
    case Dict(_) => None
  }

  lemma {:induction false} DecimalDigits(n: nat)
    ensures Decimal(n) != [] && !IsSpace(Decimal(n)[0]) && Decimal(n)[0] != '-' && Decimal(n)[0] != '+'
    ensures forall k :: 0 <= k < |Decimal(n)| ==> IsDigit(Decimal(n)[k])
    ensures DigitsValue(Decimal(n)) == n
  {
    if n >= 10 {
      DecimalDigits(n / 10);
      var d := Decimal(n);
      assert d[..|d| - 1] == Decimal(n / 10);
    }
  }

  lemma {:induction false} DigitRunOf(d: string, rest: string)
    requires forall k :: 0 <= k < |d| ==> IsDigit(d[k])
    requires rest == [] || !IsDigit(rest[0])
    ensures DigitRun(d + rest) == d
  {
    if d != [] {
      assert (d + rest)[1..] == d[1..] + rest;
      DigitRunOf(d[1..], rest);
    }
  }

  /** A string that starts with the decimal spelling of n, followed by
      anything but another digit, is received as n: "256" and "256 items"
      both give 256, and so does the same text after leading whitespace. */
  lemma {:induction false} WeakIntOfDecimal(n: nat, space: string, rest: string)
    requires forall k :: 0 <= k < |space| ==> IsSpace(space[k])
    requires rest == [] || !IsDigit(rest[0])
    ensures WeakInt(Str(space + Decimal(n) + rest)) == Some(n)
    ensures WeakInt(Int(n)) == Some(n)
  {
    if space == [] {
      DecimalDigits(n);
      assert Decimal(n) + rest == space + Decimal(n) + rest;
      DigitRunOf(Decimal(n), rest);
    } else {
      assert (space + Decimal(n) + rest)[1..] == space[1..] + Decimal(n) + rest;
      WeakIntOfDecimal(n, space[1..], rest);
    }
  }

  /** A string that starts with neither whitespace, a sign nor a digit is
      refused. */
  lemma WeakIntRefuses(s: string)
    requires s == [] || !(IsSpace(s[0]) || IsDigit(s[0]) || s[0] == '-' || s[0] == '+')
    ensures WeakInt(Str(s)) == None
  {
  }
}
