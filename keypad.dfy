/** The on-screen keypad table `CALCULATOR_BUTTONS` of constants.ts, laid out in a four-column grid. */
module Keypad {
  import opened Types
  import opened Expression

  const Columns: nat := 4

  const CalculatorButtons: seq<ButtonConfig> := [
    ButtonConfig("C", "clear", Action, None, Some("text-red-400"), None),
    ButtonConfig("(", "(", Scientific, None, Some("text-primary"), None),
    ButtonConfig(")", ")", Scientific, None, Some("text-primary"), None),
    ButtonConfig("÷", "/", Operator, None, Some("text-primary"), None),

    ButtonConfig("7", "7", Number, None, None, None),
    ButtonConfig("8", "8", Number, None, None, None),
    ButtonConfig("9", "9", Number, None, None, None),
    ButtonConfig("×", "*", Operator, None, Some("text-primary"), None),

    ButtonConfig("4", "4", Number, None, None, None),
    ButtonConfig("5", "5", Number, None, None, None),
    ButtonConfig("6", "6", Number, None, None, None),
    ButtonConfig("-", "-", Operator, None, Some("text-primary"), None),

    ButtonConfig("1", "1", Number, None, None, None),
    ButtonConfig("2", "2", Number, None, None, None),
    ButtonConfig("3", "3", Number, None, None, None),
    ButtonConfig("+", "+", Operator, None, Some("text-primary"), None),

    ButtonConfig("Ask AI", "ai", AI, Some(1), None, Some("bg-primary/20 text-primary border border-primary/50")),
    ButtonConfig("0", "0", Number, None, None, None),
    ButtonConfig(".", ".", Number, None, None, None),
    ButtonConfig("=", "=", Action, None, None, Some("bg-primary text-white"))
  ]

  /** The three values the click handler dispatches instead of appending. */
  predicate IsControlValue(v: string) {
    v == "clear" || v == "=" || v == "ai"
  }

  /** Twenty keys: five full rows of the four-column grid. */
  lemma KeypadFillsGrid()
    ensures |CalculatorButtons| == 20 && |CalculatorButtons| % Columns == 0
  {
  }

  /** The values are pairwise distinct, as their use as list keys requires. */
  lemma ValuesDistinct()
    ensures forall i, j :: 0 <= i < j < |CalculatorButtons| ==>
      CalculatorButtons[i].value != CalculatorButtons[j].value
  {
  }

  /**
    Exactly the first, seventeenth and last keys carry a control value;
    every other key carries one simple character.
   */
  lemma ValuesAreControlsOrSimpleChars()
    ensures forall i :: 0 <= i < |CalculatorButtons| ==>
      (IsControlValue(CalculatorButtons[i].value) <==> i in {0, 16, 19})
    ensures forall i :: 0 <= i < |CalculatorButtons| && !IsControlValue(CalculatorButtons[i].value) ==>
      |CalculatorButtons[i].value| == 1 && IsSimpleChar(CalculatorButtons[i].value[0])
  {
  }

  /** The glyph labels carry ASCII values, so `×` and `÷` never enter the input from the keypad. */
  lemma NoGlyphValues()
    ensures CalculatorButtons[3].caption == "÷" && CalculatorButtons[3].value == "/"
    ensures CalculatorButtons[7].caption == "×" && CalculatorButtons[7].value == "*"
    ensures forall i :: 0 <= i < |CalculatorButtons| ==>
      '×' !in CalculatorButtons[i].value && '÷' !in CalculatorButtons[i].value
  {
  }

  /** Only the `ai` key has type AI; the digit keys and `.` have type Number. */
  lemma ButtonTypes()
    ensures forall i :: 0 <= i < |CalculatorButtons| ==>
      (CalculatorButtons[i].kind == AI <==> CalculatorButtons[i].value == "ai")
    ensures forall i :: 0 <= i < |CalculatorButtons| ==>
      (CalculatorButtons[i].kind == Number <==>
        (CalculatorButtons[i].value == "." || (|CalculatorButtons[i].value| == 1 && '0' <= CalculatorButtons[i].value[0] <= '9')))
  {
  }
}
