/** PHP values as the loaders and modules receive them, and the few language rules the
    core relies on: `isset`, the `??` operator, truthiness, and how arguments reach typed
    parameters in PHP's default (coercive) typing mode. Floats and objects other than
    callbacks are not modelled. */
module Php {

  datatype Option<T> = None | Some(value: T)

  /** An array key: PHP normalises every key to an integer or a string. */
  datatype ArrayKey = IntKey(i: int) | StrKey(s: string)

  datatype Value =
    | Null
    | Bool(b: bool)
    | Int(i: int)
    | Str(s: string)
    | Arr(entries: map<ArrayKey, Value>)
      /** The two-element callable array `[ $object, 'method' ]`. */
    | Callable(target: object, methodName: string)

  /** A PHP array read only through its keys (insertion order plays no part in the reads). */
  type PhpArray = map<ArrayKey, Value>

  const EmptyArray: Value := Arr(map[])

  /** `isset( $a[ $k ] )`: the key is present and its value is not null. */
  predicate IsSet(a: PhpArray, k: ArrayKey)
  {
    k in a && !a[k].Null?
  }

  /** `$a[ $k ] ?? $default` */
  function Coalesce(a: PhpArray, k: ArrayKey, default: Value): Value
  {
    if IsSet(a, k) then a[k] else default
  }

  /** `isset( $a['name'] ) ? $a['name'] : ( $a[ index ] ?? $default )`: how most loaders
      read one constructor argument, by name first and by position second. */
  function Field(a: PhpArray, name: string, index: int, default: Value): Value
  {
    if IsSet(a, StrKey(name)) then a[StrKey(name)] else Coalesce(a, IntKey(index), default)
  }

  /** A key whose value is null reads exactly as a missing key, because every read goes
      through `isset` or `??`. */
  lemma FieldNullIsAbsent(a: PhpArray, k: ArrayKey, name: string, index: int, default: Value)
    ensures Field(a[k := Null], name, index, default) == Field(a - {k}, name, index, default)
  {
  }

  /** A field depends on the definition only through its name key and its index key. */
  lemma FieldReadsOnlyItsKeys(a: PhpArray, b: PhpArray, name: string, index: int, default: Value)
    requires IsSet(a, StrKey(name)) == IsSet(b, StrKey(name))
    requires IsSet(a, StrKey(name)) ==> a[StrKey(name)] == b[StrKey(name)]
    requires IsSet(a, IntKey(index)) == IsSet(b, IntKey(index))
    requires IsSet(a, IntKey(index)) ==> a[IntKey(index)] == b[IntKey(index)]
    ensures Field(a, name, index, default) == Field(b, name, index, default)
  {
  }

  /** PHP's conversion to bool, as used by `?:`, `&&` and `if`. */
  predicate Truthy(v: Value)
  {
    match v
    case Null => false
    case Bool(b) => b
    case Int(i) => i != 0
    case Str(s) => s != "" && s != "0"
    case Arr(entries) => |entries| != 0
    case Callable(_, _) => true
  }

  function DigitChar(d: nat): (c: char)
    requires d < 10
    ensures '0' <= c <= '9' && c as int - '0' as int == d
  {
    ('0' as int + d) as char
  }

  function NatToString(n: nat): string
  {
    if n < 10 then [DigitChar(n)] else NatToString(n / 10) + [DigitChar(n % 10)]
  }

  /** The decimal form PHP gives an integer converted to a string. */
  function IntToString(i: int): string
  {
    if i < 0 then "-" + NatToString(-i) else NatToString(i)
  }

  /** The string an array key becomes where a `string` is expected. */
  function KeyString(k: ArrayKey): string
  {
    match k
    case IntKey(i) => IntToString(i)
    case StrKey(s) => s
  }

  predicate AllDigits(s: string)
  {
    forall i :: 0 <= i < |s| ==> '0' <= s[i] <= '9'
  }

  /** A decimal integer without sign, leading zeros or surrounding text. */
  predicate CanonicalDigits(s: string)
  {
    |s| > 0 && AllDigits(s) && (s[0] != '0' || |s| == 1)
  }

  function DigitsValue(s: string): nat
    requires AllDigits(s)
  {
    if |s| == 0 then 0 else 10 * DigitsValue(s[..|s| - 1]) + (s[|s| - 1] as int - '0' as int)
  }

  /** The integer a string key stands for when PHP stores it as an integer key: `"0"`, or
      an optional `-` followed by a decimal number without leading zeros. */
  function CanonicalInt(s: string): (r: Option<int>)
    ensures r.Some? ==> IntToString(r.value) == s
  {
    if CanonicalDigits(s) then
      DigitsCanonical(s);
      Some(DigitsValue(s))
    else if |s| > 1 && s[0] == '-' && s[1] != '0' && CanonicalDigits(s[1..]) then
      DigitsCanonical(s[1..]);
      DigitsPositive(s[1..]);
      assert s == "-" + s[1..];
      Some(-(DigitsValue(s[1..]) as int))
    else
      None
  }

  /** `$a[ $s ]` with a string `$s`: PHP turns a string that is the canonical decimal form
      of an integer into that integer key, and keeps every other string as it is. */
  function NormalisedKey(s: string): (k: ArrayKey)
    ensures KeyString(k) == s
  {
    match CanonicalInt(s)
    case Some(i) => IntKey(i)
    case None => StrKey(s)
  }

  lemma {:induction false} DigitsPositive(s: string)
    requires |s| > 0 && AllDigits(s) && s[0] != '0'
    ensures DigitsValue(s) > 0
  {
    if |s| > 1 {
      DigitsPositive(s[..|s| - 1]);
    }
  }

  /** Reading canonical digits back gives them unchanged. */
  lemma {:induction false} DigitsCanonical(s: string)
    requires CanonicalDigits(s)
    ensures NatToString(DigitsValue(s)) == s
  {
    if |s| > 1 {
      var init, last := s[..|s| - 1], s[|s| - 1];
      DigitsPositive(init);
      DigitsCanonical(init);
      var m, d := DigitsValue(init), last as int - '0' as int;
      assert DigitsValue(s) == 10 * m + d && 10 * m + d >= 10;
      assert (10 * m + d) / 10 == m && (10 * m + d) % 10 == d;
      assert DigitChar(d) == last;
      assert s == init + [last];
    }
  }

  lemma {:induction false} NatToStringCanonical(n: nat)
    ensures CanonicalDigits(NatToString(n)) && DigitsValue(NatToString(n)) == n
  {
    if n >= 10 {
      NatToStringCanonical(n / 10);
      var s := NatToString(n);
      assert s[..|s| - 1] == NatToString(n / 10);
    }
  }

  /** The decimal form of an integer starts with a digit or a minus sign. */
  lemma IntToStringFirst(i: int)
    ensures |IntToString(i)| > 0
    ensures IntToString(i)[0] == '-' || '0' <= IntToString(i)[0] <= '9'
  {
    if i >= 0 {
      NatToStringCanonical(i);
    }
  }

  /** The decimal form of every integer is read back as that integer key, so a key built
      from an integer and one built from its decimal string are the same key. */
  lemma NormalisedIntKey(i: int)
    ensures NormalisedKey(IntToString(i)) == IntKey(i)
  {
    if i < 0 {
      NatToStringCanonical(-i);
      var s := IntToString(i);
      assert s[1..] == NatToString(-i);
    } else {
      NatToStringCanonical(i);
    }
  }

  /** The string a built-in function such as `preg_match` receives for its subject:
      null reads as the empty string, arrays raise a TypeError (None). */
  function AsSubject(v: Value): Option<string>
  {
    match v
    case Null => Some("")
    case Bool(b) => Some(if b then "1" else "")
    case Int(i) => Some(IntToString(i))
    case Str(s) => Some(s)
    case Arr(_) => None
    case Callable(_, _) => None
  }

  /** The string a `string` parameter of a user-defined function receives: scalars are
      converted, while null and arrays raise a TypeError (None). */
  function AsStringParam(v: Value): (r: Option<string>)
    ensures r.None? <==> v.Null? || v.Arr? || v.Callable?
    ensures v.Str? ==> r == Some(v.s)
    ensures v.Int? ==> r == Some(IntToString(v.i))
    ensures v.Bool? ==> r == Some(if v.b then "1" else "")
  {
    if v.Null? then None else AsSubject(v)
  }

  /** The bool a `bool` parameter of a user-defined function receives: scalars are
      converted by truthiness, while null and arrays raise a TypeError (None). */
  function AsBoolParam(v: Value): (r: Option<bool>)
    ensures r.None? <==> v.Null? || v.Arr? || v.Callable?
    ensures v.Bool? ==> r == Some(v.b)
    ensures r.Some? ==> r.value == Truthy(v)
  {
    match v
    case Null => None
    case Arr(_) => None
    case Callable(_, _) => None
    case _ => Some(Truthy(v))
  }

  predicate EndsWith(s: string, suffix: string)
  {
    |suffix| <= |s| && s[|s| - |suffix|..] == suffix
  }

  /** `preg_match( '/\.ext$/', s )` with `suffix` the literal `.ext`: a case-sensitive
      test, and `$` without the `D` modifier also matches just before a final newline. */
  predicate PatternAtEnd(s: string, suffix: string)
  {
    EndsWith(s, suffix) || EndsWith(s, suffix + "\n")
  }

  /** `preg_match( '/\.ext$/', $subject )` on any value: None when it raises a TypeError. */
  function MatchesSuffix(subject: Value, suffix: string): (r: Option<bool>)
    ensures r.None? <==> subject.Arr? || subject.Callable?
    ensures subject.Str? ==> r == Some(PatternAtEnd(subject.s, suffix))
  {
    match AsSubject(subject)
    case None => None
    case Some(s) => Some(PatternAtEnd(s, suffix))
  }
}
