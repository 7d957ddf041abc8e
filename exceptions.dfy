/** The exceptions the library throws or catches, with the `Message` each
  * one carries: the .NET argument exceptions and the library's own
  * `InvalidConfigurationException` and `InvalidCommandArgsFormatException`. */
module Exceptions {
  import opened Wrappers
  import Text

  datatype Exception =
    | ArgumentNull(paramName: string)
    | Argument(text: string, paramName: string)
    | ArgumentOutOfRange(paramName: string)
    | InvalidOperation(text: string)
    | InvalidConfiguration(text: string)
    | InvalidCommandArgsFormat(text: string, itemName: string)
      /** Any other exception, known only by its message. */
    | Other(text: string)

  /** The `Message` property, in the format of the .NET runtime for its own
    * exception types. */
  function Message(e: Exception): string
  {
    match e
    case ArgumentNull(p) => "Value cannot be null. (Parameter '" + p + "')"
    case Argument(t, p) => if p == "" then t else t + " (Parameter '" + p + "')"
    case ArgumentOutOfRange(p) =>
      "Specified argument was out of the range of valid values. (Parameter '" + p + "')"
    case InvalidOperation(t) => t
    case InvalidConfiguration(t) => t
    case InvalidCommandArgsFormat(t, _) => t
    case Other(t) => t
  }

  // ---------------------------------------------------------------------
  // InvalidConfigurationException

  const ConfigurationInvalid := "Configuration is invalid"

  /** The message both constructors with a message argument compose. */
  function ComposedMessage(base: string, message: Option<string>): (r: string)
    ensures Text.HasPrefix(r, base)
    ensures Text.IsNullOrWhiteSpace(message) ==> r == base
    ensures !Text.IsNullOrWhiteSpace(message) ==> r[|base|..] == ". " + message.value
  {
    if Text.IsNullOrWhiteSpace(message) then base else base + ". " + message.value
  }

  /** `new InvalidConfigurationException()`. */
  function NewInvalidConfiguration(): (e: Exception)
    ensures e.InvalidConfiguration? && Message(e) == ConfigurationInvalid
  {
    InvalidConfiguration(ConfigurationInvalid)
  }

  /** `new InvalidConfigurationException(message)` and, since the inner
    * exception does not enter the message,
    * `new InvalidConfigurationException(message, inner)`. */
  function NewInvalidConfigurationWith(message: Option<string>): (e: Exception)
    ensures e.InvalidConfiguration?
    ensures Text.IsNullOrWhiteSpace(message) ==> Message(e) == ConfigurationInvalid
    ensures !Text.IsNullOrWhiteSpace(message) ==>
              Message(e) == ConfigurationInvalid + ". " + message.value
  {
    InvalidConfiguration(ComposedMessage(ConfigurationInvalid, message))
  }

  /** The detail given to the constructor can be read back from the message. */
  lemma ConfigurationDetailRecoverable(m: string)
    requires !Text.IsBlank(m)
    ensures Message(NewInvalidConfigurationWith(Some(m)))[|ConfigurationInvalid| + 2..] == m
    ensures |Message(NewInvalidConfigurationWith(Some(m)))| > |ConfigurationInvalid| + 2
  {
    var r := Message(NewInvalidConfigurationWith(Some(m)));
    assert r[|ConfigurationInvalid|..] == ". " + m;
    assert r[|ConfigurationInvalid| + 2..] == (". " + m)[2..];
  }

  // ---------------------------------------------------------------------
  // InvalidCommandArgsFormatException

  const CommandArgsFormatInvalid := "Command-Args format is invalid"
  const ItemDefaultName := "n/a"

  /** The item name every constructor keeps: the given one unless it is blank. */
  function ItemNameOrDefault(itemName: Option<string>): (r: string)
    ensures !Text.IsBlank(r)
    ensures Text.IsNullOrWhiteSpace(itemName) ==> r == ItemDefaultName
    ensures !Text.IsNullOrWhiteSpace(itemName) ==> r == itemName.value
  {
    assert !Text.IsWhiteSpace(ItemDefaultName[0]);
    if Text.IsNullOrWhiteSpace(itemName) then ItemDefaultName else itemName.value
  }

  /** `new InvalidCommandArgsFormatException()`. */
  function NewInvalidCommandArgsFormat(): (e: Exception)
    ensures e.InvalidCommandArgsFormat?
    ensures Message(e) == CommandArgsFormatInvalid && e.itemName == ItemDefaultName
  {
    InvalidCommandArgsFormat(CommandArgsFormatInvalid, ItemDefaultName)
  }

  /** `new InvalidCommandArgsFormatException(message, itemName)` and the
    * constructor that also takes an inner exception. */
  function NewInvalidCommandArgsFormatWith(message: Option<string>, itemName: Option<string>): (e: Exception)
    ensures e.InvalidCommandArgsFormat?
    ensures Text.IsNullOrWhiteSpace(message) ==> Message(e) == CommandArgsFormatInvalid
    ensures !Text.IsNullOrWhiteSpace(message) ==>
              Message(e) == CommandArgsFormatInvalid + ". " + message.value
    ensures !Text.IsBlank(e.itemName)
    ensures Text.IsNullOrWhiteSpace(itemName) ==> e.itemName == ItemDefaultName
    ensures !Text.IsNullOrWhiteSpace(itemName) ==> e.itemName == itemName.value
  {
    InvalidCommandArgsFormat(ComposedMessage(CommandArgsFormatInvalid, message), ItemNameOrDefault(itemName))
  }

  /** Every exception of the library's own two types has a non-empty message. */
  lemma LibraryMessagesNonEmpty(message: Option<string>, itemName: Option<string>)
    ensures |Message(NewInvalidConfigurationWith(message))| >= |ConfigurationInvalid|
    ensures |Message(NewInvalidCommandArgsFormatWith(message, itemName))| >= |CommandArgsFormatInvalid|
  {
  }
}
