/** The field rules the screens hand to react-hook-form, as data, and the
    meaning of each rule kind. The three regular expressions the screens use
    are anchored character-class patterns, written here as predicates. */
module Validation {
  import opened CvTypes
  import opened Text

  /** JavaScript's `\s`: the ECMAScript white-space and line-terminator
      characters. */
  predicate IsJsWhitespace(c: char)
  {
    c == '\t' || c == '\n' || c == '\U{000B}' || c == '\U{000C}' || c == '\r'
    || c == ' ' || c == '\U{00A0}' || c == '\U{1680}'
    || ('\U{2000}' <= c <= '\U{200A}')
    || c == '\U{2028}' || c == '\U{2029}' || c == '\U{202F}' || c == '\U{205F}'
    || c == '\U{3000}' || c == '\U{FEFF}'
  }

  /** One character of `[A-Za-zÁÉÍÓÚáéíóúÑñ\s]`. */
  predicate IsNameChar(c: char)
  {
    ('A' <= c <= 'Z') || ('a' <= c <= 'z')
    || c == 'Á' || c == 'É' || c == 'Í' || c == 'Ó' || c == 'Ú'
    || c == 'á' || c == 'é' || c == 'í' || c == 'ó' || c == 'ú'
    || c == 'Ñ' || c == 'ñ'
    || IsJsWhitespace(c)
  }

  /** One character of `[0-9+]`. */
  predicate IsPhoneChar(c: char) { IsDigit(c) || c == '+' }

  /** The regular expressions used by the screens. */
  datatype Pattern =
    | LettersAndSpaces   // ^[A-Za-zÁÉÍÓÚáéíóúÑñ\s]+$
    | DigitsAndPlus      // ^[0-9+]*$
    | DigitsOnly         // ^\d+$
    | EmailShape         // ^\S+@\S+\.\S+$

  /** `^\S+@\S+\.\S+$`: no white space anywhere, an `@` with at least one
      character before it, and after it a `.` with at least one character on
      each side. */
  predicate IsEmailShape(s: string)
  {
    && (forall k :: 0 <= k < |s| ==> !IsJsWhitespace(s[k]))
    && exists at, dot :: 0 < at && at + 1 < dot < |s| - 1 && s[at] == '@' && s[dot] == '.'
  }

  /** Whole-value match of a pattern. */
  predicate Matches(p: Pattern, s: string)
  {
    match p
    case LettersAndSpaces => |s| > 0 && forall k :: 0 <= k < |s| ==> IsNameChar(s[k])
    case DigitsAndPlus => forall k :: 0 <= k < |s| ==> IsPhoneChar(s[k])
    case DigitsOnly => |s| > 0 && AllDigits(s)
    case EmailShape => IsEmailShape(s)
  }

  /** The numeric value a `max` rule compares: that of a non-empty digit
      string; any other value has none and cannot exceed the bound. */
  function NumericValue(s: string): (r: Option<nat>)
    ensures r.Some? <==> Matches(DigitsOnly, s)
    ensures r.Some? ==> r.value == DecimalValue(s)
  {
    if |s| > 0 && AllDigits(s) then Some(DecimalValue(s)) else None
  }

  /** The four rule kinds, each with the message shown when it fails. */
  datatype Rule =
    | Required(message: string)
    | MatchPattern(pattern: Pattern, message: string)
    | MaxLength(limit: nat, message: string)
    | Max(bound: int, message: string)

  /** The plain meaning of each rule kind. */
  predicate Satisfies(rule: Rule, value: string)
  {
    match rule
    case Required(_) => value != ""
    case MatchPattern(p, _) => Matches(p, value)
    case MaxLength(n, _) => Utf16Length(value) <= n
    case Max(b, _) => NumericValue(value).None? || NumericValue(value).value <= b
  }

  /** The messages of the failing rules, in declaration order. */
  function Violations(rules: seq<Rule>, value: string): (msgs: seq<string>)
    ensures |msgs| <= |rules|
    ensures msgs == [] <==> forall i :: 0 <= i < |rules| ==> Satisfies(rules[i], value)
    ensures forall m :: m in msgs ==>
              exists i :: 0 <= i < |rules| && !Satisfies(rules[i], value) && rules[i].message == m
    ensures forall i :: 0 <= i < |rules| && !Satisfies(rules[i], value) ==> rules[i].message in msgs
  {
    if rules == [] then []
    else
      var rest := Violations(rules[1..], value);
      assert forall i :: 1 <= i < |rules| ==> rules[i] == rules[1..][i - 1];
      if Satisfies(rules[0], value) then rest else [rules[0].message] + rest
  }

  /** Letters and white space are single UTF-16 units, so for a value that
      matches the letters pattern `.length` is the number of characters. */
  lemma NameTextLength(v: string)
    requires forall k :: 0 <= k < |v| ==> IsNameChar(v[k])
    ensures Utf16Length(v) == |v|
  {
    assert forall k :: 0 <= k < |v| ==> v[k] as int < 0x1_0000;
  }

  /** A value is accepted when no rule of its field fails. */
  predicate Accepts(rules: seq<Rule>, value: string)
  {
    Violations(rules, value) == []
  }

  /** A dialog a screen shows: `Alert.alert(title, message)`; the browser's
      `alert(message)` and a title-only alert leave the other part empty. */
  datatype Alert = Alert(title: string, message: string)

  /** Pressing a button wrapped in `handleSubmit`: either some field rule
      fails and the handler does not run, or the handler runs and shows an
      alert. */
  datatype SubmitResult = Blocked(fieldErrors: seq<string>) | Alerted(alert: Alert)
}
