/**
 * Typed event attributes and the value-type inference that `publish` applies
 * to every raw command-line value (CommandLineClient.java, lines 190-209).
 */
module Attributes {
  import opened Wrappers
  import opened IntParsing

  /**
   * The four value types of a TRex attribute. A float carries no number here:
   * Float.parseFloat is abstracted to the predicate passed as `parsesAsFloat`.
   */
  datatype AttrValue = BoolVal(b: bool) | IntVal(n: int) | FloatVal | StringVal(s: string)

  /** One named, typed attribute of a publication packet. */
  datatype Attribute = Attribute(name: string, value: AttrValue)

  /**
   * The type a raw value receives: "true" and "false" (case-sensitive) are
   * booleans, then whatever Integer.parseInt accepts is an int, then whatever
   * Float.parseFloat accepts is a float, and anything else is kept verbatim as
   * a string. The first test that succeeds wins.
   */
  function Classify(raw: string, parsesAsFloat: string -> bool): (v: AttrValue)
    ensures v == BoolVal(true) <==> raw == "true"
    ensures v == BoolVal(false) <==> raw == "false"
    ensures v.IntVal? <==> raw != "true" && raw != "false" && ParseInt(raw).Some?
    ensures v.IntVal? ==> ParseInt(raw) == Some(v.n) && InInt32(v.n)
    ensures v.FloatVal? <==> raw != "true" && raw != "false" && ParseInt(raw).None? && parsesAsFloat(raw)
    ensures v.StringVal? <==> raw != "true" && raw != "false" && ParseInt(raw).None? && !parsesAsFloat(raw)
    ensures v.StringVal? ==> v.s == raw
  {
    if raw == "true" then BoolVal(true)
    else if raw == "false" then BoolVal(false)
    else match ParseInt(raw)
      case Some(n) => IntVal(n)
      case None => if parsesAsFloat(raw) then FloatVal else StringVal(raw)
  }

  /**
   * The text Java prints for a boolean, int or string attribute value
   * (Boolean.toString, Integer.toString, the string itself).
   */
  function Render(v: AttrValue): (r: string)
    requires !v.FloatVal?
    ensures v.BoolVal? ==> (r == "true" <==> v.b) && (r == "false" <==> !v.b)
    ensures v.IntVal? && InInt32(v.n) ==> ParseInt(r) == Some(v.n)
    ensures v.StringVal? ==> r == v.s
  {
    match v
    case BoolVal(b) => if b then "true" else "false"
    case IntVal(n) =>
      assert InInt32(n) ==> ParseInt(IntText(n)) == Some(n) by {
        if InInt32(n) { IntTextRoundTrip(n); }
      }
      IntText(n)
    case StringVal(s) => s
  }

  /**
   * Inference reads back the value it was printed from: booleans and every
   * `int` come back with their type and value, and a string comes back as a
   * string whenever it is not itself a boolean literal or a number.
   */
  lemma ClassifyRender(v: AttrValue, parsesAsFloat: string -> bool)
    requires !v.FloatVal?
    requires v.IntVal? ==> InInt32(v.n)
    requires v.StringVal? ==> v.s != "true" && v.s != "false" && ParseInt(v.s).None? && !parsesAsFloat(v.s)
    ensures Classify(Render(v), parsesAsFloat) == v
  {
    if v.IntVal? {
      IntTextRoundTrip(v.n);
    }
  }

  /** A value with a decimal point, such as "1.0", is never an int. */
  lemma DecimalNeverInt(raw: string, k: nat, parsesAsFloat: string -> bool)
    requires k < |raw| && raw[k] == '.'
    ensures !Classify(raw, parsesAsFloat).IntVal?
    ensures parsesAsFloat(raw) ==> Classify(raw, parsesAsFloat) == FloatVal
  {
    DecimalPointRejected(raw, k);
  }

  /**
   * A digit string beyond the `int` range, with or without a sign, is a
   * float or a string, never an int.
   */
  lemma OutOfRangeNeverInt(ds: string, parsesAsFloat: string -> bool)
    requires |ds| > 0 && AllDigits(ds)
    ensures DigitsValue(ds) > MaxInt32 ==> !Classify(ds, parsesAsFloat).IntVal?
    ensures DigitsValue(ds) > MaxInt32 ==> !Classify("+" + ds, parsesAsFloat).IntVal?
    ensures DigitsValue(ds) > MinMagnitude ==> !Classify("-" + ds, parsesAsFloat).IntVal?
  {
    ParseIntShape(ds);
    ParseIntPlus(ds);
    ParseIntNegative(ds);
  }

  /** "3000000000" is one such value. */
  lemma ThreeBillionNeverInt(parsesAsFloat: string -> bool)
    ensures !Classify("3000000000", parsesAsFloat).IntVal?
  {
    ThreeBillionRejected();
  }

  /** The boolean literals are case-sensitive: "True" and "TRUE" are strings. */
  lemma BoolLiteralsCaseSensitive(parsesAsFloat: string -> bool)
    requires !parsesAsFloat("True") && !parsesAsFloat("TRUE")
    ensures Classify("True", parsesAsFloat) == StringVal("True")
    ensures Classify("TRUE", parsesAsFloat) == StringVal("TRUE")
  {
  }

  /**
   * The values of the documented example command: "toto" is a string and
   * "50" an int; "42" is a further int example.
   */
  lemma ExampleValues(parsesAsFloat: string -> bool)
    requires !parsesAsFloat("toto")
    ensures Classify("toto", parsesAsFloat) == StringVal("toto")
    ensures Classify("50", parsesAsFloat) == IntVal(50)
    ensures Classify("42", parsesAsFloat) == IntVal(42)
  {
    assert "50"[..1] == "5" && DigitsValue("50") == 50;
    assert "42"[..1] == "4" && DigitsValue("42") == 42;
    ParseIntShape("50");
    ParseIntShape("42");
  }
}
