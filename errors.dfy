/** `ParseError` and its error types. The constructor validates the item
  * name, so constructing an error can itself throw. */
module ParseErrors {
  import opened Wrappers
  import Text
  import Resources
  import Exceptions

  datatype ParseErrorType =
    | UnknownError
    | InvalidCommandArgsFormat
    | InvalidOptionValue
    | RequiredOptionValue
    | InvalidParameterValue

  /** All fields are fixed at construction. */
  datatype ParseError = ParseError(
    errorType: ParseErrorType,
    itemName: string,
    itemValue: Option<string>,
    message: string)

  /** What every constructed error satisfies. */
  predicate WellFormed(e: ParseError)
  {
    !Text.IsBlank(e.itemName)
  }

  /** The constructor: a blank item name throws `ArgumentException`; a null
    * message is stored as the empty string. */
  function NewParseError(errorType: ParseErrorType, itemName: string, itemValue: Option<string>,
                         message: Option<string>): (r: Result<ParseError, Exceptions.Exception>)
    ensures r.Err? <==> Text.IsBlank(itemName)
    ensures r.Err? ==> r.error == Exceptions.Argument(Resources.MissingRequiredParameterValue, "itemName")
    ensures r.Ok? ==> WellFormed(r.value)
    ensures r.Ok? ==> r.value.errorType == errorType && r.value.itemName == itemName
                      && r.value.itemValue == itemValue
    ensures r.Ok? ==> r.value.message == if message.Some? then message.value else ""
  {
    if Text.IsBlank(itemName) then
      Err(Exceptions.Argument(Resources.MissingRequiredParameterValue, "itemName"))
    else
      Ok(ParseError(errorType, itemName, itemValue, message.OrElse("")))
  }
}
