/**
 * Java's Integer.parseInt(s) (radix 10) and Integer.toString(v), the integer
 * part of the attribute inference and of the argument scanner.
 *
 * Simplification: Java accepts every Unicode decimal digit (Character.digit);
 * this model accepts the ASCII digits '0'..'9' only.
 */
module IntParsing {
  import opened Wrappers

  const MinInt32: int := -0x8000_0000
  const MaxInt32: nat := 0x7FFF_FFFF
  /** The magnitude of Integer.MIN_VALUE, 2^31. */
  const MinMagnitude: nat := 0x8000_0000

  /** The range of a Java `int`. */
  predicate InInt32(v: int) {
    MinInt32 <= v <= MaxInt32
  }

  predicate IsDigit(c: char) {
    '0' <= c <= '9'
  }

  predicate AllDigits(s: string) {
    forall k :: 0 <= k < |s| ==> IsDigit(s[k])
  }

  function DigitValue(c: char): nat
    requires IsDigit(c)
  {
    c as int - '0' as int
  }

  function DigitChar(d: nat): (c: char)
    requires d < 10
    ensures IsDigit(c) && DigitValue(c) == d
  {
    ('0' as int + d) as char
  }

  /** The value of a decimal digit string, most significant digit first. */
  function DigitsValue(ds: string): nat
    requires AllDigits(ds)
  {
    if ds == [] then 0 else DigitsValue(ds[..|ds| - 1]) * 10 + DigitValue(ds[|ds| - 1])
  }

  /**
   * The digit loop of parseInt over the digits `ds`, from index `i`, with
   * the magnitude `acc` read so far: a character that is not a digit, or a
   * magnitude beyond `limit`, makes it throw (None).
   */
  function Accumulate(ds: string, i: nat, acc: nat, limit: nat): (r: Option<nat>)
    requires i <= |ds| && acc <= limit
    decreases |ds| - i
    ensures r.Some? ==> r.value <= limit
  {
    if i == |ds| then Some(acc)
    else if !IsDigit(ds[i]) then None
    else if acc * 10 + DigitValue(ds[i]) > limit then None
    else Accumulate(ds, i + 1, acc * 10 + DigitValue(ds[i]), limit)
  }

  /**
   * Integer.parseInt(s): an optional leading '+' or '-', then one or more
   * digits, and a value that fits in an `int`. The magnitude is bounded by
   * 2^31 after a '-' and by 2^31 - 1 otherwise. None where Java throws
   * NumberFormatException (empty string, a lone sign, any other character,
   * overflow).
   */
  function ParseInt(s: string): (r: Option<int>)
    ensures r.Some? ==> InInt32(r.value)
  {
    if |s| == 0 then None
    else
      var negative := s[0] == '-';
      var start := if s[0] == '-' || s[0] == '+' then 1 else 0;
      if start == |s| then None
      else match Accumulate(s[start..], 0, 0, if negative then MinMagnitude else MaxInt32)
        case None => None
        case Some(m) => Some(if negative then -(m as int) else m)
  }

  /** The digit loop only succeeds on digits. */
  lemma {:induction false} AccumulateDigits(ds: string, i: nat, acc: nat, limit: nat)
    requires i <= |ds| && acc <= limit
    decreases |ds| - i
    ensures Accumulate(ds, i, acc, limit).Some? ==> forall k :: i <= k < |ds| ==> IsDigit(ds[k])
  {
    if i < |ds| && IsDigit(ds[i]) && acc * 10 + DigitValue(ds[i]) <= limit {
      AccumulateDigits(ds, i + 1, acc * 10 + DigitValue(ds[i]), limit);
    }
  }

  /** A longer prefix of a digit string never has a smaller value. */
  lemma {:induction false} DigitsValuePrefix(ds: string, j: nat)
    requires AllDigits(ds) && j <= |ds|
    decreases |ds|
    ensures DigitsValue(ds[..j]) <= DigitsValue(ds)
  {
    if j < |ds| {
      var front := ds[..|ds| - 1];
      DigitsValuePrefix(front, j);
      assert front[..j] == ds[..j];
      assert DigitsValue(ds) == DigitsValue(front) * 10 + DigitValue(ds[|ds| - 1]);
    } else {
      assert ds[..j] == ds;
    }
  }

  /**
   * The digit loop computes the value of the whole digit string, and fails
   * exactly when that value exceeds the limit.
   */
  lemma {:induction false} AccumulateValue(ds: string, i: nat, limit: nat)
    requires AllDigits(ds) && i <= |ds| && DigitsValue(ds[..i]) <= limit
    decreases |ds| - i
    ensures Accumulate(ds, i, DigitsValue(ds[..i]), limit)
         == if DigitsValue(ds) <= limit then Some(DigitsValue(ds)) else None
  {
    if i == |ds| {
      assert ds[..i] == ds;
    } else {
      var next := ds[..i + 1];
      assert next[..i] == ds[..i];
      assert DigitsValue(next) == DigitsValue(ds[..i]) * 10 + DigitValue(ds[i]);
      DigitsValuePrefix(ds, i + 1);
      if DigitsValue(next) <= limit {
        AccumulateValue(ds, i + 1, limit);
      }
    }
  }

  /**
   * What parseInt accepts: a digit, or a sign with at least one digit after
   * it, followed by digits. A plain
   * digit string is accepted exactly when its value fits in an `int`, and
   * then denotes that value.
   */
  lemma ParseIntShape(s: string)
    ensures ParseInt(s).Some? ==> |s| > 0 && (IsDigit(s[0]) || ((s[0] == '-' || s[0] == '+') && |s| > 1)) && AllDigits(s[1..])
    ensures |s| > 0 && AllDigits(s) ==> ParseInt(s) == if DigitsValue(s) <= MaxInt32 then Some(DigitsValue(s)) else None
  {
    if |s| > 0 {
      var start := if s[0] == '-' || s[0] == '+' then 1 else 0;
      if start < |s| {
        var limit := if s[0] == '-' then MinMagnitude else MaxInt32;
        AccumulateDigits(s[start..], 0, 0, limit);
        if AllDigits(s) {
          assert s[start..] == s && s[..0] == [];
          AccumulateValue(s, 0, MaxInt32);
        }
      }
    }
  }

  /** A '-' followed by digits is accepted exactly down to Integer.MIN_VALUE, and denotes the negated value. */
  lemma ParseIntNegative(ds: string)
    requires |ds| > 0 && AllDigits(ds)
    ensures ParseInt("-" + ds) == if DigitsValue(ds) <= MinMagnitude then Some(-(DigitsValue(ds) as int)) else None
  {
    var s := "-" + ds;
    assert s[1..] == ds && ds[..0] == [];
    AccumulateValue(ds, 0, MinMagnitude);
  }

  /** A '+' followed by digits is read exactly as the digits alone. */
  lemma ParseIntPlus(ds: string)
    requires |ds| > 0 && AllDigits(ds)
    ensures ParseInt("+" + ds) == ParseInt(ds)
    ensures ParseInt("+" + ds) == if DigitsValue(ds) <= MaxInt32 then Some(DigitsValue(ds)) else None
  {
    var s := "+" + ds;
    assert s[1..] == ds;
    ParseIntShape(ds);
  }

  /** Integer.toString for a non-negative value: decimal digits, no leading zero. */
  function NatText(n: nat): (s: string)
    ensures |s| > 0 && AllDigits(s)
    ensures s[0] == '0' <==> n == 0
  {
    if n < 10 then [DigitChar(n)] else NatText(n / 10) + [DigitChar(n % 10)]
  }

  /** Integer.toString(v): a '-' in front of the digits of |v| when v is negative. */
  function IntText(v: int): (s: string)
    ensures v >= 0 ==> AllDigits(s) && |s| > 0
    ensures v < 0 ==> |s| > 1 && s[0] == '-' && AllDigits(s[1..])
  {
    if v < 0 then "-" + NatText(-v) else NatText(v)
  }

  /** The digits NatText writes denote the number they were written from. */
  lemma {:induction false} NatTextValue(n: nat)
    ensures DigitsValue(NatText(n)) == n
  {
    if n >= 10 {
      NatTextValue(n / 10);
      var s := NatText(n);
      assert s[..|s| - 1] == NatText(n / 10);
    }
  }

  /** Round trip: parseInt reads back every `int` that toString writes. */
  lemma IntTextRoundTrip(v: int)
    requires InInt32(v)
    ensures ParseInt(IntText(v)) == Some(v)
  {
    if v < 0 {
      NatTextValue(-v);
      ParseIntNegative(NatText(-v));
    } else {
      NatTextValue(v);
      ParseIntShape(NatText(v));
    }
  }

  /** A decimal point (as in "1.0") makes parseInt throw. */
  lemma DecimalPointRejected(s: string, k: nat)
    requires k < |s| && s[k] == '.'
    ensures ParseInt(s) == None
  {
    ParseIntShape(s);
    if k > 0 {
      assert s[1..][k - 1] == '.';
    }
  }

  lemma ThirtyThousand()
    ensures DigitsValue("30000") == 30000
  {
    assert "30000"[..4] == "3000" && "3000"[..3] == "300" && "300"[..2] == "30" && "30"[..1] == "3";
  }

  lemma ThreeBillion()
    ensures DigitsValue("3000000000") == 3000000000
  {
    ThirtyThousand();
    assert "300000"[..5] == "30000";
    assert "3000000"[..6] == "300000";
    assert "30000000"[..7] == "3000000";
    assert "300000000"[..8] == "30000000";
    assert "3000000000"[..9] == "300000000";
  }

  /** "3000000000" is beyond the range of an `int`: parseInt throws. */
  lemma ThreeBillionRejected()
    ensures ParseInt("3000000000") == None
  {
    ParseIntShape("3000000000");
    ThreeBillion();
  }

  lemma Digits21474()
    ensures DigitsValue("21474") == 21474
  {
    assert "21474"[..4] == "2147" && "2147"[..3] == "214" && "214"[..2] == "21" && "21"[..1] == "2";
  }

  /** The digits of 2^31. */
  lemma DigitsOfMinMagnitude()
    ensures DigitsValue("2147483648") == MinMagnitude
  {
    Digits21474();
    assert "214748"[..5] == "21474";
    assert "2147483"[..6] == "214748";
    assert "21474836"[..7] == "2147483";
    assert "214748364"[..8] == "21474836";
    assert "2147483648"[..9] == "214748364";
  }

  /** One past Integer.MAX_VALUE is rejected. */
  lemma MaxPlusOneRejected()
    ensures ParseInt("2147483648") == None
  {
    ParseIntShape("2147483648");
    DigitsOfMinMagnitude();
  }

  /** Integer.MIN_VALUE, whose magnitude exceeds MAX_VALUE, is accepted with its sign. */
  lemma MinValueAccepted()
    ensures ParseInt("-2147483648") == Some(MinInt32)
  {
    assert "-2147483648" == "-" + "2147483648";
    DigitsOfMinMagnitude();
    ParseIntNegative("2147483648");
  }
}
