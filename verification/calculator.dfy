/** The button-press state machine of the scientific calculator.

    Numbers are reals. The float formatter, the float parser and the math
    library are left uninterpreted: they are fields of a `Numerics` value that
    the calculator is built with, so every property proved here holds for any
    formatter, parser and math library. */
module Calculator {
  import opened Wrappers

  /** The numeric collaborators of the calculator. */
  datatype Numerics = Numerics(
    format: real -> string,             // format_number (the 1e-12 snap and %.10g)
    parse: string -> Option<real>,      // float(); None is a ValueError
    sinDeg: real -> real,               // math.sin(math.radians(x))
    cosDeg: real -> real,               // math.cos(math.radians(x))
    tanDeg: real -> real,               // math.tan(math.radians(x))
    ln: real -> real,                   // math.log, only called on x > 0
    log10: real -> real,                // math.log10, only called on x > 0
    pow: (real, real) -> Option<real>   // math.pow; None is OverflowError or ValueError
  )

  /** The sentinel display text. */
  const ErrorText: string := "Error"

  // ---------------------------------------------------------------------
  // The clean-up of `format_number`'s `%.10g` text

  /** `s.rstrip(c)`: `s` without its trailing run of `c`. */
  function RStrip(s: string, c: char): (r: string)
    ensures r <= s
    ensures r == [] || r[|r| - 1] != c
    ensures forall i :: |r| <= i < |s| ==> s[i] == c
    decreases |s|
  {
    if s != [] && s[|s| - 1] == c then RStrip(s[..|s| - 1], c) else s
  }

  /** The clean-up as written, `.rstrip('0').rstrip('.')` on the whole text:
      it also eats the zeros that end an exponent, and those of a text
      without a point. */
  function TrimAsWritten(g: string): (r: string)
    ensures r <= g
    ensures forall i :: |r| <= i < |g| ==> g[i] == '0' || g[i] == '.'
  {
    var z := RStrip(g, '0');
    assert forall i :: |z| <= i < |g| ==> g[i] == '0';
    assert forall i :: 0 <= i < |z| ==> z[i] == g[i];
    RStrip(z, '.')
  }

  /** Where the exponent of a `%g` text starts, or its length if it has none. */
  function ExponentStart(g: string): (k: nat)
    ensures k <= |g|
    ensures forall i :: 0 <= i < k ==> g[i] != 'e'
    ensures k < |g| ==> g[k] == 'e'
    decreases |g|
  {
    if g == [] || g[0] == 'e' then 0 else 1 + ExponentStart(g[1..])
  }

  /** The clean-up as intended: a mantissa with a point loses its trailing
      zeros and then the point, a mantissa without one is left alone, and an
      exponent is kept whole. */
  function Trim(g: string): (r: string)
    ensures 'e' !in g && '.' in g ==> r == TrimAsWritten(g)
    ensures 'e' !in g && '.' !in g ==> r == g
    ensures var e := g[ExponentStart(g)..]; |e| <= |r| && r[|r| - |e|..] == e
  {
    var k := ExponentStart(g);
    var m := g[..k];
    assert 'e' !in g ==> m == g;
    (if '.' in m then TrimAsWritten(m) else m) + g[k..]
  }

  /** The formatter never produces the sentinel text itself. */
  ghost predicate FormatNeverErrors(num: Numerics)
  {
    forall x :: num.format(x) != ErrorText
  }

  predicate IsDigitKey(key: string)
  {
    key in {"1", "2", "3", "4", "5", "6", "7", "8", "9", "0", "."}
  }

  predicate IsBinaryOperator(key: string)
  {
    key in {"+", "-", "*", "/", "^"}
  }

  predicate IsFinishKey(key: string)
  {
    key in {"=", "%", "+/-"}
  }

  predicate IsScientificKey(key: string)
  {
    key in {"sin", "cos", "tan", "ln", "log10"}
  }

  /** The inputs for which `Calculate` answers with the sentinel: a zero
      divisor, or a power that overflows or leaves the real domain. */
  predicate DomainError(num: Numerics, a: real, b: real, op: string)
  {
    (op == "/" && b == 0.0) || (op == "^" && num.pow(a, b).None?)
  }

  /** `calculate(operand1, operand2, operator)`: the display text of one fold. */
  function Calculate(num: Numerics, a: real, b: real, op: string): (r: string)
    ensures DomainError(num, a, b, op) ==> r == ErrorText
    ensures FormatNeverErrors(num) ==> (r == ErrorText <==> DomainError(num, a, b, op))
    ensures !IsBinaryOperator(op) ==> r == num.format(b)
    ensures op == "/" && b != 0.0 ==> r == num.format(a / b)
  {
    if op == "+" then num.format(a + b)
    else if op == "-" then num.format(a - b)
    else if op == "*" then num.format(a * b)
    else if op == "/" then
      if b == 0.0 then ErrorText else num.format(a / b)
    else if op == "^" then
      match num.pow(a, b)
      case None => ErrorText
      case Some(p) => num.format(p)
    else num.format(b)
  }

  /** What the calculator remembers between presses, with the display text. */
  datatype State = State(display: string, operand1: real, operator: string, newOperand: bool)

  /** The state `reset()` leaves behind, with the given display text. */
  function Cleared(display: string): State
  {
    State(display, 0.0, "+", true)
  }

  /** The state of a freshly started calculator. */
  const Initial: State := Cleared("0")

  /** Digit and decimal-point entry: pure string editing of the display. */
  function TypeDigit(s: State, key: string): State
    requires IsDigitKey(key)
  {
    if s.display == "0" || s.newOperand then
      s.(display := if key == "." then "0." else key, newOperand := false)
    else if key == "." && '.' in s.display then
      s
    else
      s.(display := s.display + key)
  }

  /** A binary operator folds the display into `operand1` with the operator
      stored before it, then stores the new one. */
  function FoldOperator(num: Numerics, s: State, key: string): State
    requires IsBinaryOperator(key)
  {
    match num.parse(s.display)
    case None => Cleared(ErrorText)
    case Some(b) =>
      var shown := Calculate(num, s.operand1, b, s.operator);
      if shown == ErrorText then
        State(shown, 0.0, key, true)
      else
        match num.parse(shown)
        case None => Cleared(ErrorText)
        case Some(v) => State(shown, v, key, true)
  }

  /** `=`, `%` and `+/-`. */
  function Finish(num: Numerics, s: State, key: string): State
    requires IsFinishKey(key)
  {
    match num.parse(s.display)
    case None => Cleared(ErrorText)
    case Some(x) =>
      if key == "=" then Cleared(Calculate(num, s.operand1, x, s.operator))
      else if key == "%" then Cleared(num.format(x / 100.0))
      else s.(display := num.format(-x))
  }

  /** The display text a scientific key shows for the operand `x`. */
  function ScientificText(num: Numerics, key: string, x: real): string
    requires IsScientificKey(key)
  {
    if key == "sin" then num.format(num.sinDeg(x))
    else if key == "cos" then num.format(num.cosDeg(x))
    else if key == "tan" then num.format(num.tanDeg(x))
    else if key == "ln" then
      if x <= 0.0 then ErrorText else num.format(num.ln(x))
    else
      if x <= 0.0 then ErrorText else num.format(num.log10(x))
  }

  /** A scientific key acts on the displayed value alone. */
  function Scientific(num: Numerics, s: State, key: string): State
    requires IsScientificKey(key)
  {
    match num.parse(s.display)
    case None => s.(display := ErrorText)
    case Some(x) =>
      var shown := ScientificText(num, key, x);
      if shown == ErrorText then
        s.(display := shown, newOperand := true)
      else
        match num.parse(shown)
        case None => s.(display := ErrorText)
        case Some(v) => s.(display := shown, operand1 := v, newOperand := true)
  }

  /** One button press, dispatched as `button_clicked`'s `elif` chain does. */
  function Press(num: Numerics, s: State, key: string): State
  {
    if s.display == ErrorText || key == "AC" then Cleared("0")
    else if IsDigitKey(key) then TypeDigit(s, key)
    else if IsBinaryOperator(key) then FoldOperator(num, s, key)
    else if IsFinishKey(key) then Finish(num, s, key)
    else if IsScientificKey(key) then Scientific(num, s, key)
    else s
  }

  /** A sequence of presses, handled one after another. */
  function Run(num: Numerics, s: State, keys: seq<string>): State
    decreases |keys|
  {
    if keys == [] then s else Run(num, Press(num, s, keys[0]), keys[1..])
  }

  /** The calculator widget's evaluation state and its display. */
  class CalculatorApp {
    const num: Numerics
    var operand1: real
    var operator: string
    var newOperand: bool
    var display: string

    /** The state as a value. */
    function Snapshot(): State
      reads this
    {
      State(display, operand1, operator, newOperand)
    }

    constructor (num: Numerics)
      ensures this.num == num
      ensures Snapshot() == Initial
    {
      this.num := num;
      new;
      Reset();
      display := "0";
    }

    /** `reset()`: clears the pending operation and leaves the display alone. */
    method Reset()
      modifies this
      ensures Snapshot() == Cleared(old(display))
    {
      operator := "+";
      operand1 := 0.0;
      newOperand := true;
    }

    /** `button_clicked`: handles one key. */
    method ButtonClicked(data: string)
      modifies this
      ensures Snapshot() == Press(num, old(Snapshot()), data)
    {
      var current := display;
      if current == ErrorText || data == "AC" {
        display := "0";
        Reset();
      } else if IsDigitKey(data) {
        if current == "0" || newOperand {
          display := if data != "." then data else "0.";
          newOperand := false;
        } else if data == "." && '.' in current {
          // a second decimal point is ignored
        } else {
          display := current + data;
        }
      } else if IsBinaryOperator(data) {
        var b := num.parse(current);
        if b.None? {
          display := ErrorText;
          Reset();
        } else {
          display := Calculate(num, operand1, b.value, operator);
          operator := data;
          if display == ErrorText {
            operand1 := 0.0;
            newOperand := true;
          } else {
            var v := num.parse(display);
            if v.None? {
              display := ErrorText;
              Reset();
            } else {
              operand1 := v.value;
              newOperand := true;
            }
          }
        }
      } else if IsFinishKey(data) {
        var x := num.parse(current);
        if x.None? {
          display := ErrorText;
          Reset();
        } else if data == "=" {
          display := Calculate(num, operand1, x.value, operator);
          Reset();
        } else if data == "%" {
          display := num.format(x.value / 100.0);
          Reset();
        } else {
          // +/- keeps the pending operation
          display := num.format(-x.value);
        }
      } else if IsScientificKey(data) {
        var x := num.parse(current);
        if x.None? {
          display := ErrorText;
        } else {
          display := ScientificText(num, data, x.value);
          if display != ErrorText {
            var v := num.parse(display);
            if v.None? {
              display := ErrorText;
              return;
            }
            operand1 := v.value;
          }
          newOperand := true;
        }
      }
    }
  }
}
