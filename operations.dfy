/** The names of the three reply operations and the mapping from a vote's sign to them. */
module Operations {

  const PLUS: string := "plus"
  const MINUS: string := "minus"
  const SELF: string := "selfPlus"

  /** The reply operation for a vote's sign: `+` is plus, `-` is minus, anything else has
      no name (the empty string). */
  function GetOperationName(operation: string): (r: string)
    ensures r == PLUS <==> operation == "+"
    ensures r == MINUS <==> operation == "-"
    ensures r == "" <==> operation != "+" && operation != "-"
    ensures r != SELF
  {
    match operation
    case "+" => PLUS
    case "-" => MINUS
    case _ => ""
  }
}
