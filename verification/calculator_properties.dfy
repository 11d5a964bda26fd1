/** Properties of the calculator's key handling, over single presses and
    over whole sequences of presses. */
module CalculatorProperties {
  import opened Wrappers
  import opened Calculator

  // ---------------------------------------------------------------------
  // Sequences of presses

  /** Handling `a` and then `b` is handling `a + b`. */
  lemma {:induction false} RunAppend(num: Numerics, s: State, a: seq<string>, b: seq<string>)
    ensures Run(num, s, a + b) == Run(num, Run(num, s, a), b)
    decreases |a|
  {
    if a == [] {
      assert a + b == b;
    } else {
      assert (a + b)[0] == a[0];
      assert (a + b)[1..] == a[1..] + b;
      RunAppend(num, Press(num, s, a[0]), a[1..], b);
    }
  }

  /** `AC` after any history returns the calculator to its start state. */
  lemma {:induction false} AllClearAfterAnyHistory(num: Numerics, s: State, keys: seq<string>)
    ensures Run(num, s, keys + ["AC"]) == Initial
  {
    RunAppend(num, s, keys, ["AC"]);
  }

  /** While the display shows the sentinel, the next key, whatever it is, only
      clears: the rest of the presses behave as on a fresh calculator. */
  lemma {:induction false} ErrorSwallowsNextKey(num: Numerics, s: State, key: string, rest: seq<string>)
    requires s.display == ErrorText
    ensures Press(num, s, key) == Initial
    ensures Run(num, s, [key] + rest) == Run(num, Initial, rest)
  {
    assert ([key] + rest)[1..] == rest;
  }

  /** The stored operator is always one of the five binary operators, so the
      identity fallback of `Calculate` is never reached from a key press. */
  lemma {:induction false} OperatorStaysBinary(num: Numerics, s: State, keys: seq<string>)
    requires IsBinaryOperator(s.operator)
    ensures IsBinaryOperator(Run(num, s, keys).operator)
    decreases |keys|
  {
    if keys != [] {
      OperatorStaysBinary(num, Press(num, s, keys[0]), keys[1..]);
    }
  }

  // ---------------------------------------------------------------------
  // Single presses

  /** A digit or point typed over `"0"` or at the start of a new operand
      replaces the display (a point becoming `"0."`) and leaves the pending
      operation alone. */
  lemma {:induction false} DigitStartsNewOperand(num: Numerics, s: State, key: string)
    requires s.display != ErrorText && IsDigitKey(key)
    requires s.display == "0" || s.newOperand
    ensures Press(num, s, key) == s.(display := if key == "." then "0." else key, newOperand := false)
  {
  }

  /** Otherwise the key is appended, except that a second point is ignored. */
  lemma {:induction false} DigitExtendsOperand(num: Numerics, s: State, key: string)
    requires s.display != ErrorText && IsDigitKey(key)
    requires s.display != "0" && !s.newOperand
    ensures key == "." && '.' in s.display ==> Press(num, s, key) == s
    ensures key != "." || '.' !in s.display ==> Press(num, s, key) == s.(display := s.display + key)
  {
  }

  /** A binary operator shows the fold of the display into `operand1` under
      the previously stored operator, then stores the new operator and starts
      a new operand. When the fold fails, `operand1` becomes 0 and the new
      operator is stored all the same. */
  lemma {:induction false} BinaryOperatorFoldsWithStoredOperator(num: Numerics, s: State, key: string, b: real)
    requires s.display != ErrorText && IsBinaryOperator(key)
    requires num.parse(s.display) == Some(b)
    ensures Calculate(num, s.operand1, b, s.operator) == ErrorText ==>
      Press(num, s, key) == State(ErrorText, 0.0, key, true)
    ensures forall v ::
      (Calculate(num, s.operand1, b, s.operator) != ErrorText &&
       num.parse(Calculate(num, s.operand1, b, s.operator)) == Some(v)) ==>
      Press(num, s, key) == State(Calculate(num, s.operand1, b, s.operator), v, key, true)
  {
  }

  /** `=` shows the fold and clears; `%` shows a hundredth and clears; `+/-`
      shows the negation and keeps the pending operation. */
  lemma {:induction false} FinishKeys(num: Numerics, s: State, x: real)
    requires s.display != ErrorText && num.parse(s.display) == Some(x)
    ensures Press(num, s, "=") == Cleared(Calculate(num, s.operand1, x, s.operator))
    ensures Press(num, s, "%") == Cleared(num.format(x / 100.0))
    ensures Press(num, s, "+/-") == s.(display := num.format(-x))
  {
  }

  /** `ln` and `log10` of a non-positive value show the sentinel and keep
      `operand1`, yet set `newOperand`; the sentinel then makes the next key a
      plain clear, so the asymmetry with the other error paths cannot be
      observed after one more press. */
  lemma {:induction false} LogDomainError(num: Numerics, s: State, key: string, x: real, next: string, rest: seq<string>)
    requires s.display != ErrorText && (key == "ln" || key == "log10")
    requires num.parse(s.display) == Some(x) && x <= 0.0
    ensures Press(num, s, key) == s.(display := ErrorText, newOperand := true)
    ensures Run(num, s, [key, next] + rest) == Run(num, Initial, rest)
  {
    assert ([key, next] + rest)[1..] == [next] + rest;
    ErrorSwallowsNextKey(num, Press(num, s, key), next, rest);
  }

  /** A scientific key that succeeds puts the shown value into `operand1` and
      starts a new operand, so a following operator continues from it; the
      stored operator is untouched. */
  lemma {:induction false} ScientificKeyFeedsChain(num: Numerics, s: State, key: string, x: real, v: real)
    requires s.display != ErrorText && IsScientificKey(key)
    requires num.parse(s.display) == Some(x)
    requires ScientificText(num, key, x) != ErrorText
    requires num.parse(ScientificText(num, key, x)) == Some(v)
    ensures Press(num, s, key) == State(ScientificText(num, key, x), v, s.operator, true)
  {
  }

  // ---------------------------------------------------------------------
  // String editing of the display

  /** The number of decimal points in a text. */
  function Points(t: string): nat
  {
    if t == [] then 0 else (if t[0] == '.' then 1 else 0) + Points(t[1..])
  }

  lemma {:induction false} PointsAppend(a: string, b: string)
    ensures Points(a + b) == Points(a) + Points(b)
    decreases |a|
  {
    if a == [] {
      assert a + b == b;
    } else {
      assert (a + b)[1..] == a[1..] + b;
      PointsAppend(a[1..], b);
    }
  }

  lemma {:induction false} NoPointMeansNoPoints(t: string)
    requires '.' !in t
    ensures Points(t) == 0
    decreases |t|
  {
    if t != [] {
      assert '.' !in t[1..] by {
        forall i | 0 <= i < |t[1..]| ensures t[1..][i] != '.' {
          assert t[1..][i] == t[i + 1];
        }
      }
      NoPointMeansNoPoints(t[1..]);
    }
  }

  /** The formatter writes at most one decimal point (true of `%.10g`). */
  ghost predicate FormatsOnePoint(num: Numerics)
  {
    forall x :: Points(num.format(x)) <= 1
  }

  lemma {:induction false} PointsOfFixedTexts()
    ensures Points("0") == 0 && Points("0.") == 1 && Points(ErrorText) == 0
  {
    assert "0"[1..] == "";
    assert "0."[1..] == ".";
    assert "."[1..] == "";
    NoPointMeansNoPoints(ErrorText);
  }

  lemma {:induction false} PointsOfDigitKey(key: string)
    requires IsDigitKey(key)
    ensures Points(key) <= 1
  {
    assert key[1..] == "";
  }

  lemma {:induction false} TypeDigitKeepsOnePoint(s: State, key: string)
    requires IsDigitKey(key) && Points(s.display) <= 1
    ensures Points(TypeDigit(s, key).display) <= 1
  {
    PointsOfFixedTexts();
    PointsOfDigitKey(key);
    if !(s.display == "0" || s.newOperand) && !(key == "." && '.' in s.display) {
      PointsAppend(s.display, key);
      if key == "." {
        NoPointMeansNoPoints(s.display);
      } else {
        assert key[1..] == "";
      }
    }
  }

  lemma {:induction false} CalculateKeepsOnePoint(num: Numerics, a: real, b: real, op: string)
    requires FormatsOnePoint(num)
    ensures Points(Calculate(num, a, b, op)) <= 1
  {
    PointsOfFixedTexts();
  }

  lemma {:induction false} ScientificTextKeepsOnePoint(num: Numerics, key: string, x: real)
    requires FormatsOnePoint(num) && IsScientificKey(key)
    ensures Points(ScientificText(num, key, x)) <= 1
  {
    PointsOfFixedTexts();
    var y := if key == "sin" then num.sinDeg(x)
      else if key == "cos" then num.cosDeg(x)
      else if key == "tan" then num.tanDeg(x)
      else if key == "ln" then num.ln(x)
      else num.log10(x);
    assert ScientificText(num, key, x) in {ErrorText, num.format(y)};
    assert Points(num.format(y)) <= 1;
  }

  /** One press keeps the display to at most one decimal point. */
  lemma {:induction false} PressKeepsOnePoint(num: Numerics, s: State, key: string)
    requires FormatsOnePoint(num) && Points(s.display) <= 1
    ensures Points(Press(num, s, key).display) <= 1
  {
    PointsOfFixedTexts();
    if s.display == ErrorText || key == "AC" {
    } else if IsDigitKey(key) {
      TypeDigitKeepsOnePoint(s, key);
    } else if IsBinaryOperator(key) {
      match num.parse(s.display)
      case None =>
      case Some(b) => CalculateKeepsOnePoint(num, s.operand1, b, s.operator);
    } else if IsFinishKey(key) {
      match num.parse(s.display)
      case None =>
      case Some(x) => CalculateKeepsOnePoint(num, s.operand1, x, s.operator);
    } else if IsScientificKey(key) {
      match num.parse(s.display)
      case None =>
      case Some(x) => ScientificTextKeepsOnePoint(num, key, x);
    }
  }

  /** Along any sequence of presses the display never holds two points. */
  lemma {:induction false} DisplayKeepsOnePoint(num: Numerics, s: State, keys: seq<string>)
    requires FormatsOnePoint(num) && Points(s.display) <= 1
    ensures Points(Run(num, s, keys).display) <= 1
    decreases |keys|
  {
    if keys != [] {
      PressKeepsOnePoint(num, s, keys[0]);
      DisplayKeepsOnePoint(num, Press(num, s, keys[0]), keys[1..]);
    }
  }

  predicate IsDecimalDigit(key: string)
  {
    key in {"1", "2", "3", "4", "5", "6", "7", "8", "9", "0"}
  }

  /** The keys' texts, one after another. */
  function Typed(keys: seq<string>): string
  {
    if keys == [] then "" else Typed(keys[..|keys| - 1]) + keys[|keys| - 1]
  }

  function DropLeadingZeros(t: string): (r: string)
    ensures r == [] || r[0] != '0'
    ensures forall c :: c in r ==> c in t
  {
    if t != [] && t[0] == '0' then DropLeadingZeros(t[1..]) else t
  }

  /** What a typed run of digits reads as: no leading zeros, and `"0"` for
      nothing but zeros. */
  function Entered(keys: seq<string>): string
  {
    var t := DropLeadingZeros(Typed(keys));
    if t == [] then "0" else t
  }

  lemma {:induction false} DropLeadingZerosAppend(a: string, b: string)
    ensures DropLeadingZeros(a) != [] ==> DropLeadingZeros(a + b) == DropLeadingZeros(a) + b
    ensures DropLeadingZeros(a) == [] ==> DropLeadingZeros(a + b) == DropLeadingZeros(b)
    decreases |a|
  {
    if a == [] {
      assert a + b == b;
    } else if a[0] == '0' {
      assert (a + b)[0] == '0';
      assert (a + b)[1..] == a[1..] + b;
      DropLeadingZerosAppend(a[1..], b);
    } else {
      assert (a + b)[0] == a[0];
    }
  }

  lemma {:induction false} RunOne(num: Numerics, s: State, key: string)
    ensures Run(num, s, [key]) == Press(num, s, key)
  {
    assert [key][1..] == [];
  }

  lemma {:induction false} EnteredOne(key: string)
    requires IsDecimalDigit(key)
    ensures Entered([key]) == key
  {
    assert [key][..0] == [];
    assert Typed([key]) == key;
    assert |key| == 1 && key[1..] == "";
    if key != "0" {
      assert key[0] != '0';
    }
  }

  /** One more digit replaces a lone `"0"` and extends anything else. */
  lemma {:induction false} EnteredSnoc(front: seq<string>, last: string)
    requires IsDecimalDigit(last)
    ensures Entered(front + [last]) == if Entered(front) == "0" then last else Entered(front) + last
  {
    var keys := front + [last];
    assert keys[..|keys| - 1] == front;
    assert Typed(keys) == Typed(front) + last;
    var d := DropLeadingZeros(Typed(front));
    DropLeadingZerosAppend(Typed(front), last);
    if d == [] {
      assert DropLeadingZeros(Typed(keys)) == DropLeadingZeros(last);
      EnteredOne(last);
      assert Typed([last]) == last by {
        assert Typed([last]) == Typed([]) + last;
      }
    } else {
      assert d != "0";
    }
  }

  /** Typing digits at the start of a new operand shows exactly the typed
      number without its leading zeros, keeps the pending operation and ends
      the new-operand phase. */
  lemma {:induction false} TypingDigits(num: Numerics, s: State, keys: seq<string>)
    requires s.display != ErrorText && s.newOperand
    requires keys != [] && forall i :: 0 <= i < |keys| ==> IsDecimalDigit(keys[i])
    ensures Run(num, s, keys) == s.(display := Entered(keys), newOperand := false)
    decreases |keys|
  {
    var n := |keys|;
    var front, last := keys[..n - 1], keys[n - 1];
    assert keys == front + [last];
    assert IsDecimalDigit(last);
    RunAppend(num, s, front, [last]);
    EnteredSnoc(front, last);
    if front == [] {
      RunOne(num, s, last);
      EnteredOne(last);
    } else {
      TypingDigits(num, s, front);
      DigitsNotError(front);
      var t := Run(num, s, front);
      RunOne(num, t, last);
      assert Press(num, t, last) == TypeDigit(t, last);
    }
  }

  /** Typed digits never spell the sentinel. */
  lemma {:induction false} DigitsNotError(keys: seq<string>)
    requires forall i :: 0 <= i < |keys| ==> IsDecimalDigit(keys[i])
    ensures Entered(keys) != ErrorText
    decreases |keys|
  {
    DigitsOnly(keys);
    var t := Typed(keys);
    var d := DropLeadingZeros(t);
    if d != [] {
      assert d[0] in t;
      assert d[0] != 'E';
    }
  }

  lemma {:induction false} DigitsOnly(keys: seq<string>)
    requires forall i :: 0 <= i < |keys| ==> IsDecimalDigit(keys[i])
    ensures forall c :: c in Typed(keys) ==> c in "0123456789"
    decreases |keys|
  {
    if keys != [] {
      DigitsOnly(keys[..|keys| - 1]);
      var last := keys[|keys| - 1];
      assert IsDecimalDigit(last);
      assert last[0] in "0123456789";
    }
  }

  // ---------------------------------------------------------------------
  // Worked examples, under the formatter and parser behaving on the values
  // involved as Python's `%.10g` and `float()` do

  /** `2 + 3 * 4 =` evaluates left to right as `(2 + 3) * 4`. */
  lemma {:induction false} ChainingHasNoPrecedence(num: Numerics)
    requires num.parse("2") == Some(2.0) && num.parse("3") == Some(3.0)
    requires num.parse("4") == Some(4.0) && num.parse("5") == Some(5.0)
    requires num.format(2.0) == "2" && num.format(5.0) == "5" && num.format(20.0) == "20"
    ensures Run(num, Initial, ["2", "+", "3", "*", "4", "="]).display == "20"
  {
    var s1 := Press(num, Initial, "2");
    var s2 := Press(num, s1, "+");
    assert s2 == State("2", 2.0, "+", true);
    var s3 := Press(num, s2, "3");
    var s4 := Press(num, s3, "*");
    assert s4 == State("5", 5.0, "*", true);
    var s5 := Press(num, s4, "4");
    assert Press(num, s5, "=") == Cleared("20");
    RunAppend(num, Initial, ["2", "+", "3"], ["*", "4", "="]);
    RunAppend(num, Initial, ["2"], ["+", "3"]);
    RunAppend(num, s4, ["4"], ["="]);
  }

  /** `9 0 . 1 + 1 0 =` shows `100.1`. */
  lemma {:induction false} DecimalEntryThenSum(num: Numerics)
    requires num.parse("90.1") == Some(90.1) && num.parse("10") == Some(10.0)
    requires num.format(90.1) == "90.1" && num.format(100.1) == "100.1"
    ensures Run(num, Initial, ["9", "0", ".", "1", "+", "1", "0", "="]).display == "100.1"
  {
    var s4 := Run(num, Initial, ["9", "0", ".", "1"]);
    assert s4 == State("90.1", 0.0, "+", false) by {
      RunAppend(num, Initial, ["9", "0"], [".", "1"]);
    }
    var s5 := Press(num, s4, "+");
    assert s5 == State("90.1", 90.1, "+", true);
    var s7 := Run(num, s5, ["1", "0"]);
    assert s7 == State("10", 90.1, "+", false);
    assert Press(num, s7, "=") == Cleared("100.1");
    RunAppend(num, Initial, ["9", "0", ".", "1"], ["+", "1", "0", "="]);
    RunAppend(num, s4, ["+"], ["1", "0", "="]);
    RunAppend(num, s5, ["1", "0"], ["="]);
  }

  function Abs(x: real): real
  {
    if x < 0.0 then -x else x
  }

  /** The parser reads the formatter's text back to within a relative error
      `eps` plus an absolute error `delta`. A `%.10g` formatter that snaps
      values below 1e-12 to zero and trims its text with `Trim` is meant to
      meet it for an `eps` of about 5e-10 and a `delta` of 1e-12. The
      clean-up as written does not, both on texts whose exponent ends in 0
      (`DivideThenMultiplyAsWritten`) and on texts without a point that end
      in 0 (`ProductShownAsWritten`). */
  ghost predicate ReadsBackWithin(num: Numerics, eps: real, delta: real)
  {
    forall x :: num.parse(num.format(x)).Some? &&
      Abs(num.parse(num.format(x)).value - x) <= eps * Abs(x) + delta
  }

  lemma {:induction false} ReadBack(num: Numerics, eps: real, delta: real, x: real)
    requires ReadsBackWithin(num, eps, delta)
    ensures num.parse(num.format(x)).Some?
    ensures Abs(num.parse(num.format(x)).value - x) <= eps * Abs(x) + delta
  {
  }

  /** Multiplying a rounded quotient `q` of `a / b` back by `b` scales its
      error by `|b|`. */
  lemma {:induction false} RoundedQuotientTimesDivisor(a: real, b: real, q0: real, q: real, eps: real, delta: real)
    requires b != 0.0 && q0 == a / b
    requires Abs(q - q0) <= eps * Abs(q0) + delta
    ensures Abs(q * b - a) <= eps * Abs(a) + delta * Abs(b)
  {
    assert q0 * b == a;
    assert q * b - a == (q - q0) * b;
    assert Abs((q - q0) * b) == Abs(q - q0) * Abs(b);
    assert Abs(q - q0) * Abs(b) <= (eps * Abs(q0) + delta) * Abs(b);
    assert Abs(q0) * Abs(b) == Abs(a);
  }

  /** A read-back quotient within the formatter's error of `a / b` lands,
      times `b`, near `a`. */
  lemma {:induction false} ShownQuotientTimesDivisor(num: Numerics, eps: real, delta: real, a: real, b: real, q0: real)
    requires b != 0.0 && q0 == a / b
    requires num.parse(num.format(q0)).Some?
    requires Abs(num.parse(num.format(q0)).value - q0) <= eps * Abs(q0) + delta
    ensures Abs(num.parse(num.format(q0)).value * b - a) <= eps * Abs(a) + delta * Abs(b)
  {
    RoundedQuotientTimesDivisor(a, b, q0, num.parse(num.format(q0)).value, eps, delta);
  }

  /** The text `calculate` shows for `a / b`, when it reads back within the
      formatter's error, lands near `a` once multiplied by `b`. */
  lemma {:induction false} ShownQuotientReadsBack(num: Numerics, eps: real, delta: real, a: real, b: real)
    requires b != 0.0
    requires num.parse(num.format(a / b)).Some?
    requires Abs(num.parse(num.format(a / b)).value - a / b) <= eps * Abs(a / b) + delta
    ensures num.parse(Calculate(num, a, b, "/")).Some?
    ensures Abs(num.parse(Calculate(num, a, b, "/")).value * b - a) <= eps * Abs(a) + delta * Abs(b)
  {
    var q0 := a / b;
    DivideShowsQuotient(num, a, b, q0);
    ShownQuotientTimesDivisor(num, eps, delta, a, b, q0);
  }

  /** Dividing by a non-zero `b` and multiplying the shown quotient back by
      `b` gives `a` again up to the display's rounding: the error is the
      formatter's relative error on `a`, plus its absolute error scaled by
      `|b|`. */
  lemma {:induction false} DivideThenMultiply(num: Numerics, eps: real, delta: real, a: real, b: real)
    requires b != 0.0
    requires ReadsBackWithin(num, eps, delta)
    ensures Calculate(num, a, b, "/") == num.format(a / b)
    ensures num.parse(Calculate(num, a, b, "/")).Some?
    ensures Calculate(num, num.parse(Calculate(num, a, b, "/")).value, b, "*")
      == num.format(num.parse(Calculate(num, a, b, "/")).value * b)
    ensures Abs(num.parse(Calculate(num, a, b, "/")).value * b - a) <= eps * Abs(a) + delta * Abs(b)
  {
    DivideShowsQuotient(num, a, b, a / b);
    ReadBack(num, eps, delta, a / b);
    ShownQuotientReadsBack(num, eps, delta, a, b);
    MultiplyShowsProduct(num, num.parse(Calculate(num, a, b, "/")).value, b);
  }

  // ---------------------------------------------------------------------
  // The exponent eaten by `format_number`'s clean-up

  /** The intended clean-up trims a mantissa with a point, leaves one
      without a point alone, and keeps the exponent. */
  lemma {:induction false} TrimKeepsExponent(m: string, e: string)
    requires 'e' !in m && e != [] && e[0] == 'e'
    ensures '.' in m ==> Trim(m + e) == TrimAsWritten(m) + e
    ensures '.' !in m ==> Trim(m + e) == m + e
  {
    var g := m + e;
    var k := ExponentStart(g);
    assert g[|m|] == 'e';
    assert forall i :: 0 <= i < |m| ==> g[i] == m[i] && g[i] != 'e';
    assert k == |m|;
    assert g[..k] == m && g[k..] == e;
  }

  /** `%.10g` writes 5e-10 as `5e-10`; the clean-up as written leaves `5e-1`,
      the intended one `5e-10`. */
  lemma {:induction false} TrimAsWrittenEatsExponentZero()
    ensures TrimAsWritten("5e-10") == "5e-1"
    ensures Trim("5e-10") == "5e-10"
  {
    assert "5e-10"[..4] == "5e-1";
    assert RStrip("5e-10", '0') == "5e-1";
    TrimKeepsExponent("5", "e-10");
    assert "5" + "e-10" == "5e-10";
    assert '.' !in "5";
  }

  /** `%.10g` writes a non-integer just above 110 as `110`; the clean-up as
      written leaves `11`, the intended one `110`. */
  lemma {:induction false} TrimAsWrittenEatsIntegerZero()
    ensures TrimAsWritten("110") == "11"
    ensures Trim("110") == "110"
  {
    assert "110"[..2] == "11";
    assert "11"[..1] == "1";
    assert RStrip("110", '0') == "11";
    assert RStrip("11", '.') == "11";
    assert 'e' !in "110" && '.' !in "110";
  }

  /** As written, the product 1.1 * 100, which is 110.00000000000001 in
      binary floating point, shows `11`: no formatter that behaves so meets
      the ten-digit read-back bound. */
  lemma {:induction false} ProductShownAsWritten(num: Numerics)
    requires num.format(110.00000000000001) == TrimAsWritten("110")
    requires num.parse("11") == Some(11.0)
    ensures num.parse(num.format(110.00000000000001)) == Some(11.0)
    ensures !ReadsBackWithin(num, 0.0000000005, 0.000000000001)
  {
    TrimAsWrittenEatsIntegerZero();
    assert !(Abs(11.0 - 110.00000000000001) <= 0.0000000005 * Abs(110.00000000000001) + 0.000000000001);
  }

  /** As written, `1 / 2000000000` shows `5e-1`, which `float()` reads as 0.5:
      no formatter that behaves so meets the ten-digit read-back bound, and
      multiplying the shown quotient back by 2000000000 misses 1 by far more
      than 1. */
  lemma {:induction false} DivideThenMultiplyAsWritten(num: Numerics)
    requires num.format(1.0 / 2000000000.0) == TrimAsWritten("5e-10")
    requires num.parse("5e-1") == Some(0.5)
    ensures !ReadsBackWithin(num, 0.0000000005, 0.000000000001)
    ensures num.parse(Calculate(num, 1.0, 2000000000.0, "/")) == Some(0.5)
    ensures Abs(num.parse(Calculate(num, 1.0, 2000000000.0, "/")).value * 2000000000.0 - 1.0) > 1.0
  {
    QuotientShownAsHalf(num);
    DivideShowsQuotient(num, 1.0, 2000000000.0, 1.0 / 2000000000.0);
    HalfIsFarFromQuotient();
  }

  lemma {:induction false} QuotientShownAsHalf(num: Numerics)
    requires num.format(1.0 / 2000000000.0) == TrimAsWritten("5e-10")
    requires num.parse("5e-1") == Some(0.5)
    ensures num.parse(num.format(1.0 / 2000000000.0)) == Some(0.5)
  {
    TrimAsWrittenEatsExponentZero();
  }

  /** 0.5 is neither within the ten-digit bound of 1 / 2000000000 nor, times
      2000000000, within 1 of 1. */
  lemma {:induction false} HalfIsFarFromQuotient()
    ensures !(Abs(0.5 - 1.0 / 2000000000.0) <= 0.0000000005 * Abs(1.0 / 2000000000.0) + 0.000000000001)
    ensures Abs(0.5 * 2000000000.0 - 1.0) > 1.0
  {
    assert 1.0 / 2000000000.0 == 0.0000000005;
  }

  /** The `/` case of `Calculate` for a non-zero divisor, stated apart from
      the surrounding arithmetic. */
  lemma {:induction false} DivideShowsQuotient(num: Numerics, a: real, b: real, q0: real)
    requires b != 0.0 && q0 == a / b
    ensures Calculate(num, a, b, "/") == num.format(q0)
  {
  }

  /** The `*` case of `Calculate`, stated for fresh operands so that the
      prover unfolds it without the surrounding arithmetic. */
  lemma {:induction false} MultiplyShowsProduct(num: Numerics, a: real, b: real)
    ensures Calculate(num, a, b, "*") == num.format(a * b)
  {
  }
}
