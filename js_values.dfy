/**
 * Parsed request bodies as JSON values, and the two pieces of JavaScript
 * semantics the handlers in server.js rely on when they turn such a value into
 * text: the template-literal string conversion and the decimal rendering of
 * numbers.
 */
module JsValues {
  import opened Wrappers

  /**
   * A JSON value as the body parser delivers it. Numbers are modelled as
   * integers; an object is a map from its own keys to their values.
   */
  datatype Json =
    | JNull
    | JBool(b: bool)
    | JNum(n: int)
    | JStr(s: string)
    | JArr(items: seq<Json>)
    | JObj(fields: map<string, Json>)

  /** The decimal digit for `d`. */
  function DigitChar(d: nat): (c: char)
    requires d < 10
    ensures '0' <= c <= '9' && (c as int) - ('0' as int) == d
  {
    (('0' as int) + d) as char
  }

  predicate IsDigit(c: char) {
    '0' <= c <= '9'
  }

  /** The value of a string of decimal digits, most significant first. */
  function DigitsValue(s: string): nat
    requires forall i :: 0 <= i < |s| ==> IsDigit(s[i])
  {
    if |s| == 0 then 0
    else
      assert IsDigit(s[|s| - 1]);
      DigitsValue(s[..|s| - 1]) * 10 + ((s[|s| - 1] as int) - ('0' as int))
  }

  /** `String(n)` for a non-negative integer: its digits without leading zeros. */
  function NatToDecimal(n: nat): (r: string)
    ensures |r| > 0
    ensures forall i :: 0 <= i < |r| ==> IsDigit(r[i])
    ensures r[0] == '0' ==> n == 0 && |r| == 1
    decreases n
  {
    if n < 10 then [DigitChar(n)] else NatToDecimal(n / 10) + [DigitChar(n % 10)]
  }

  /** Reading the digits back gives the number: the rendering loses nothing. */
  lemma {:induction false} NatToDecimalRoundTrip(n: nat)
    ensures DigitsValue(NatToDecimal(n)) == n
    decreases n
  {
    var r := NatToDecimal(n);
    if n < 10 {
      assert r[..|r| - 1] == [];
    } else {
      NatToDecimalRoundTrip(n / 10);
      assert r[..|r| - 1] == NatToDecimal(n / 10);
    }
  }

  /** `String(n)` for an integer: a minus sign before the digits when negative. */
  function IntToDecimal(n: int): (r: string)
    ensures |r| > 0
    ensures n < 0 <==> r[0] == '-'
    ensures n >= 0 ==> forall i :: 0 <= i < |r| ==> IsDigit(r[i])
    ensures n >= 0 ==> DigitsValue(r) == n && (r[0] == '0' ==> |r| == 1)
    ensures n < 0 ==> |r| > 1 && forall i :: 1 <= i < |r| ==> IsDigit(r[i])
    ensures n < 0 ==> DigitsValue(r[1..]) == -n && r[1] != '0'
  {
    if n < 0 then
      var digits := NatToDecimal(-n);
      NatToDecimalRoundTrip(-n);
      assert ("-" + digits)[1..] == digits;
      "-" + digits
    else
      NatToDecimalRoundTrip(n);
      NatToDecimal(n)
  }

  /**
   * The text a template literal substitutes for `v` (the string conversion of
   * ECMAScript), or `None` when that conversion throws a TypeError. A parsed
   * object whose own key `toString` is present throws: a JSON value is never
   * callable, and the inherited `valueOf` returns the object itself. An array
   * is joined with ",", its null elements becoming the empty string.
   */
  function TemplateString(v: Json): (r: Option<string>)
    ensures v.JStr? ==> r == Some(v.s)
    ensures v.JObj? ==> (r.None? <==> "toString" in v.fields)
    ensures v.JObj? && "toString" !in v.fields ==> r == Some("[object Object]")
    ensures v.JNull? ==> r == Some("null")
    ensures v.JBool? ==> r == Some(if v.b then "true" else "false")
    ensures v.JNum? ==> r == Some(IntToDecimal(v.n))
    ensures v.JArr? ==> r == JoinItems(v.items)
    decreases v, 1
  {
    match v
    case JNull => Some("null")
    case JBool(b) => Some(if b then "true" else "false")
    case JNum(n) => Some(IntToDecimal(n))
    case JStr(s) => Some(s)
    case JArr(items) => JoinItems(items)
    case JObj(fields) => if "toString" in fields then None else Some("[object Object]")
  }

  /** `items.join(",")`, or `None` when converting some element throws. */
  function JoinItems(items: seq<Json>): (r: Option<string>)
    ensures r.None? <==> exists i :: 0 <= i < |items| && !items[i].JNull? && TemplateString(items[i]).None?
    ensures |items| == 0 ==> r == Some("")
    ensures |items| == 1 ==> r == (if items[0].JNull? then Some("") else TemplateString(items[0]))
    decreases items, 0
  {
    if |items| == 0 then Some("")
    else
      var last := items[|items| - 1];
      var text := if last.JNull? then Some("") else TemplateString(last);
      if |items| == 1 then text
      else
        var front := JoinItems(items[..|items| - 1]);
        assert forall i :: 0 <= i < |items| - 1 ==> items[..|items| - 1][i] == items[i];
        if front.Some? && text.Some? then Some(front.value + "," + text.value) else None
  }

  /**
   * Joining two non-empty runs of elements is joining each run and putting
   * one "," between them: every element contributes its own text, in order.
   */
  lemma {:induction false} JoinAppend(a: seq<Json>, b: seq<Json>)
    requires |a| > 0 && |b| > 0
    requires JoinItems(a).Some? && JoinItems(b).Some?
    ensures JoinItems(a + b) == Some(JoinItems(a).value + "," + JoinItems(b).value)
    decreases |b|
  {
    var ab := a + b;
    if |b| == 1 {
      assert ab[..|ab| - 1] == a;
    } else {
      var front := b[..|b| - 1];
      assert ab[..|ab| - 1] == a + front;
      assert ab[|ab| - 1] == b[|b| - 1];
      JoinAppend(a, front);
      var last := b[|b| - 1];
      var text := (if last.JNull? then Some("") else TemplateString(last)).value;
      assert JoinItems(b).value == JoinItems(front).value + "," + text;
      assert JoinItems(a).value + "," + (JoinItems(front).value + "," + text)
          == (JoinItems(a).value + "," + JoinItems(front).value) + "," + text;
    }
  }
}
