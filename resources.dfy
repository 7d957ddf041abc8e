/** The English texts of the library's message resources and the messages
  * formatted from them (`string.Format` with `{0}`/`{1}` filled in). */
module Resources {
  import Text

  const CommandDoesNotExist := "Command with given name does not exist"
  const CommandsCapitalizedName := "COMMANDS"
  const MissingRequiredParameterValue := "Missing required parameter value"
  const NestedCommandsAreNotAllowed := "Nested commands are not allowed"
  const NotApplicableValue := "n/a"
  const NotAvailableShortName := "n/a"
  const OptionDoesNotExist := "Option with given name does not exist"
  const OptionsCapitalizedName := "OPTIONS"
  const ParameterOrdinalNotUsedInSequence := "Parameter ordinal numbers are not used in sequence"
  const ParametersCapitalizedName := "PARAMETERS"
  const ParametersNotAllowedToCombineWithCommands := "Parameters not allowed to combine with commands"
  const PropertyDoesNotHaveAnOptionAttribute := "Property does not have an option attribute"
  const PropertyDoesNotHaveAParameterAttribute := "Property does not have a parameter attribute"
  const PropertyDoesNotHaveACommandAttribute := "Property does not have a command attribute"
  const PropertyServiceNotInitialized := "PropertyService not initialized"
  const PropertyWithoutValueRequiresTypeBoolean := "Property without value requires type \"System.Boolean\""

  function OptionAlternativeNameAlreadyUsed(name: string): string
  {
    "Option alternative name \"" + name + "\" has already been used"
  }

  function OptionIsMissingRequiredName(property: string): string
  {
    "Option for property \"" + property + "\" is missing its required name"
  }

  function OptionIsMissingRequiredValue(name: string): string
  {
    "Option \"" + name + "\" is missing a required value"
  }

  function OptionLongNameAlreadyUsed(name: string): string
  {
    "Option long name \"" + name + "\" has already been used"
  }

  function OptionNameAlreadyUsed(name: string): string
  {
    "Option name \"" + name + "\" has already been used"
  }

  function ParameterNameAlreadyUsed(name: string): string
  {
    "Parameter name \"" + name + "\" has already been used"
  }

  function ParameterOrdinalAlreadyUsed(ordinal: nat): string
  {
    "Parameter ordinal number " + Text.NatToString(ordinal) + " has already been used"
  }

  function ValueIsInvalidForOption(value: string, name: string): string
  {
    "Value \"" + value + "\" is invalid for option \"" + name + "\""
  }
}
