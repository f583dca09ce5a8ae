/**
 * NemeCalc (components/apps/NemeCalc.tsx): a display line and an equation
 * line edited by digit, operator, equals and clear buttons. The evaluation
 * of the equation text is outside the model; its outcome is a parameter.
 */
module NemeCalc {
  import opened Wrappers

  /**
   * The outcome of `eval(equation + display)` followed by `result.toString()`:
   * the evaluation throws, or it returns a value whose text is `Some(t)`;
   * `None` stands for a nullish result, whose `toString` call throws.
   */
  datatype Evaluation = Throws | Returns(text: Option<string>)

  /** The two lines the calculator shows. */
  datatype Readout = Readout(display: string, equation: string)

  const CLEARED := Readout("0", "")

  /**
   * `handleBtn(val)`: a display of exactly "0" is replaced by the key (so
   * "." gives "."), any other display is extended by it; the equation stays.
   */
  function Press(r: Readout, key: string): (s: Readout)
    ensures s.equation == r.equation
    ensures |s.display| >= |key| && s.display[|s.display| - |key|..] == key
    ensures r.display != "0" ==> |s.display| == |r.display| + |key| && s.display[..|r.display|] == r.display
    ensures r.display == "0" ==> s.display == key
  {
    if r.display == "0" then r.(display := key)
    else
      var d := r.display + key;
      assert d[|d| - |key|..] == key;
      r.(display := d)
  }

  /**
   * `handleOp(op)`: the equation becomes the display followed by the
   * operator, padded with spaces, and the display returns to "0". The
   * previous equation is dropped, not extended.
   */
  function Operator(r: Readout, op: string): (s: Readout)
    ensures s.display == "0"
    ensures s.equation == r.display + " " + op + " "
  {
    Readout("0", r.display + " " + op + " ")
  }

  /** The outcome of an operator press depends only on the display, not on the equation before it. */
  lemma OperatorForgetsEquation(r1: Readout, r2: Readout, op: string)
    requires r1.display == r2.display
    ensures Operator(r1, op) == Operator(r2, op)
  {
  }

  /**
   * `calculate`: when the evaluation throws, only the display changes, to
   * "Error". Otherwise the equation is completed with the display and " =";
   * the display becomes the result's text, or "Error" when the result has
   * none.
   */
  function Calculate(r: Readout, ev: Evaluation): (s: Readout)
    ensures ev.Throws? ==> s == Readout("Error", r.equation)
    ensures ev.Returns? ==> s.equation == r.equation + r.display + " ="
    ensures ev.Returns? && ev.text.Some? ==> s.display == ev.text.value
    ensures ev.Returns? && ev.text.None? ==> s.display == "Error"
  {
    match ev
    case Throws => r.(display := "Error")
    case Returns(text) =>
      var equation := r.equation + r.display + " =";
      match text
      case None => Readout("Error", equation)
      case Some(t) => Readout(t, equation)
  }

  /** Key presses one character at a time, as the digit and "." buttons send them. */
  function TypeKeys(r: Readout, keys: string): Readout
    decreases |keys|
  {
    if keys == [] then r else TypeKeys(Press(r, [keys[0]]), keys[1..])
  }

  /** The keys without their leading zeros. */
  function StripZeros(keys: string): (r: string)
    ensures r == [] || r[0] != '0'
    ensures |r| <= |keys| && r == keys[|keys| - |r|..]
    ensures forall k :: 0 <= k < |keys| - |r| ==> keys[k] == '0'
  {
    if keys != [] && keys[0] == '0' then StripZeros(keys[1..]) else keys
  }

  /** A display other than "0" and the empty text only grows by the keys typed. */
  lemma {:induction false} TypeKeysAppends(r: Readout, keys: string)
    requires |r.display| > 0 && r.display != "0"
    ensures TypeKeys(r, keys) == r.(display := r.display + keys)
    decreases |keys|
  {
    if keys != [] {
      var next := Press(r, [keys[0]]);
      assert |next.display| >= 2;
      TypeKeysAppends(next, keys[1..]);
      assert r.display + [keys[0]] + keys[1..] == r.display + keys;
    }
  }

  /**
   * Typing keys on a display of "0" shows them without their leading zeros,
   * or "0" when they are all zeros; the equation is untouched.
   */
  lemma {:induction false} TypeKeysFromZero(r: Readout, keys: string)
    requires r.display == "0"
    ensures TypeKeys(r, keys) == r.(display := if StripZeros(keys) == [] then "0" else StripZeros(keys))
    decreases |keys|
  {
    if keys != [] {
      var next := Press(r, [keys[0]]);
      if keys[0] == '0' {
        assert next == r;
        TypeKeysFromZero(r, keys[1..]);
      } else {
        assert next.display == [keys[0]];
        TypeKeysAppends(next, keys[1..]);
        assert [keys[0]] + keys[1..] == keys;
      }
    }
  }

  /** "12", "+", "3", "=" with a result "15" leaves "12 + 3 =" over "15". */
  lemma AdditionScenario()
    ensures Calculate(Press(Operator(TypeKeys(CLEARED, "12"), "+"), "3"), Returns(Some("15")))
            == Readout("15", "12 + 3 =")
  {
    TypeKeysFromZero(CLEARED, "12");
    assert StripZeros("12") == "12";
  }

  /** The calculator component's state. */
  class Calculator {
    var display: string
    var equation: string

    constructor ()
      ensures Current() == CLEARED
    {
      display := "0";
      equation := "";
    }

    function Current(): Readout
      reads this
    {
      Readout(display, equation)
    }

    /** A digit or "." button. */
    method HandleButton(key: string)
      modifies this
      ensures Current() == Press(old(Current()), key)
    {
      if display == "0" {
        display := key;
      } else {
        display := display + key;
      }
    }

    /** An operator button. */
    method HandleOperator(op: string)
      modifies this
      ensures Current() == Operator(old(Current()), op)
    {
      equation := display + " " + op + " ";
      display := "0";
    }

    /**
     * The "=" button. The equation update is issued before `toString` runs,
     * so it survives a nullish result; a throwing evaluation skips it.
     */
    method HandleEquals(ev: Evaluation)
      modifies this
      ensures Current() == Calculate(old(Current()), ev)
    {
      if ev.Throws? {
        display := "Error";
        return;
      }
      equation := equation + display + " =";
      match ev.text {
        case Some(t) =>
          display := t;
        case None =>
          display := "Error";
      }
    }

    /** "Clear Sequence": back to the initial readout, whatever the state. */
    method Clear()
      modifies this
      ensures Current() == CLEARED
    {
      display := "0";
      equation := "";
    }
  }
}
