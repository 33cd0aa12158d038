/** The records of `types.ts`. */
module Types {

  datatype Option<+T> = None | Some(value: T)

  /** `CalculatorHistoryItem`: one finished calculation as the history shows it. */
  datatype HistoryItem = HistoryItem(
    id: string,
    expression: string,
    result: string,
    timestamp: int,
    isAi: bool)

  /** `ButtonType`. */
  datatype ButtonType = Number | Operator | Action | Scientific | AI

  /** `ButtonConfig`: one key of the on-screen keypad; the optional style fields are `None` when absent. */
  datatype ButtonConfig = ButtonConfig(
    caption: string,  // `label` in the source (a reserved word here)
    value: string,
    kind: ButtonType,
    span: Option<int>,
    color: Option<string>,
    bgColor: Option<string>)
}
