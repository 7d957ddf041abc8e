# NArgs command-line binding, modelled in Dafny

NArgs binds the arguments of a console program to a configuration object.
The configuration declares options (`/name`, `-alt`, `--long-name`),
ordinal parameters and commands with their own nested options. This project
models the core of that binding and proves what it promises.

- **Tokenizer** (`Tokenizer`): `ConsoleArgumentTokenizer` as a class. Its
  `Tokenize` loop carries the last argument and appends one `CommandArgsItem`
  per `ProcessArguments` call. The item is classified as a long option, an
  option or a parameter, with its name split at the first `:`, or with the
  next argument taken as its value.
- **Binder** (`Parser`): `CommandLineParser.ParseItems` as a method whose loop
  skips the consumed token and counts parameter ordinals. Errors accumulate in
  a `ParseResult`, and a final check reports the missing required options. An
  exception that escapes becomes one `UnknownError`.
- **Property services** (`Service`, `DefaultService`): `PropertyService` and
  `DefaultPropertyService` as classes over one value table (`Values`). The
  table holds the validation and assignment rules per type tag, the Boolean
  literal sets and the custom data-type handlers. The default service also
  tracks assigned options and the current command scope.
- **Schema validation** (`ConfigurationValidation`): `ValidateConfiguration`
  and its helpers. Names and long names must be unique, compared ignoring
  case. Parameter ordinals must be exactly 1..n. Commands may not nest and may
  not sit beside parameters.
- **Results and errors** (`Results`, `ParseErrors`, `Exceptions`):
  `ParseResult` and `AnalysisResult` as classes with append-only error lists
  and a status. `ParseError` has a validating constructor. The two exception
  classes compose their messages.
- **Values and records** (`Tokens`, `Comparer`, `Options`, `Parameters`):
  `TokenizeItem` with its constructors and field-wise equality, and
  `Comparer.IsEqual`. `ParseOptions` and `TokenizeOptions` hold the defaults,
  and `Parameter`/`ParameterAttribute` guard their ordinal setter.
- **File names** (`FileSystem`): the syntactic checks of `FileSystemInfo`.
- **Usage builders** (`Usage`): `AttributeUsageInfo` and its option,
  parameter and command subclasses. They keep a de-duplicated item list and a
  maximum name length, and assemble the detail and syntax texts.

Reflection is replaced by data. A configuration is a sequence of property
descriptors (`Schema`), each carrying its option, parameter or command
attribute and its type tag. The object's fields are a map from a scope (the
root, or a command's nested object) and a property name to a value.

The code is followed as written where it and its tests disagree:

- The tokenizer splits only at `:` and strips the indicators from names;
  some enumeration tests expect `=` and prefixed names.
- No check that parameters precede options exists in the code, so none is
  modelled.
- `ParseErrorType` gains the `InvalidParameterValue` member that the binder
  reports.
- `ParseResult.AddErrors`, which the binder calls, is given the shape of
  `AnalysisResult.AddErrors`.
- The binder consumes `TokenizeItem` tokens, which it receives as its input.

One consequence of the code as written is proved rather than corrected. A
required Boolean option given without a value is set to true. A blank value
is not recorded as an assignment, however, so the option is then reported as
missing (`DefaultService.BlankBooleanStaysUnassigned`,
`Parser.RequiredBooleanLastIsReportedMissing`).

## Model

| member | source | states |
|---|---|---|
| Comparer.IsEqual | src/NArgs/Misc/Comparer.cs:16-19 | two strings are equal exactly when both are null or both are present with the same characters (ordinal comparison) |
| Comparer.IsEqualReflexive | src/NArgs/Misc/Comparer.cs:16-19 | every string, null included, equals itself |
| Comparer.IsEqualSymmetric | src/NArgs/Misc/Comparer.cs:16-19 | the comparison does not depend on argument order |
| ParseErrors.NewParseError | src/NArgs/Models/ParseError.cs:37-51 | a blank item name throws `ArgumentException` for `itemName`, any other builds the error with the given type, name and value, and a null message becomes the empty string |
| Exceptions.ComposedMessage | src/NArgs/Exceptions/InvalidConfigurationException.cs:36-46 | the message starts with the fixed text; a blank detail leaves the fixed text alone, any other follows it after ". " |
| Exceptions.NewInvalidConfiguration | src/NArgs/Exceptions/InvalidConfigurationException.cs:27-30 | the parameterless constructor's message is "Configuration is invalid" |
| Exceptions.NewInvalidConfigurationWith | src/NArgs/Exceptions/InvalidConfigurationException.cs:36-64 | a blank message gives the fixed text, any other gives "Configuration is invalid. " followed by the message |
| Exceptions.ConfigurationDetailRecoverable | src/NArgs/Exceptions/InvalidConfigurationException.cs:36-46 | the detail given to the constructor is the exact tail of the message |
| Exceptions.ItemNameOrDefault | src/NArgs/Exceptions/InvalidCommandArgsFormatException.cs:55 | the item name kept is never blank: "n/a" for a blank name, the given name otherwise |
| Exceptions.NewInvalidCommandArgsFormat | src/NArgs/Exceptions/InvalidCommandArgsFormatException.cs:33-37 | the parameterless constructor's message is "Command-Args format is invalid" and its item name "n/a" |
| Exceptions.NewInvalidCommandArgsFormatWith | src/NArgs/Exceptions/InvalidCommandArgsFormatException.cs:44-83 | the message is the fixed text, followed by ". " and the message unless that is blank; the item name is never blank and is "n/a" exactly when the given one is blank |
| Exceptions.LibraryMessagesNonEmpty | src/NArgs/Exceptions/InvalidCommandArgsFormatException.cs:44-83 | the library's own exceptions never carry a message shorter than their fixed text |
| Options.NewParseOptions | src/NArgs/Models/ParseOptions.cs:11-80 | a new `ParseOptions` has the current UI culture, indicators `/`, `-`, `--`, value indicator `:`, quotation character `"` and separator space |
| Options.NameIndicators | src/NArgs/Models/ParseOptions.cs:58-66 | exactly the current default, alternative and long-name indicators, in this order |
| Options.LongIndicatorOverlapsAlternative | src/NArgs/Models/ParseOptions.cs:12-13 | with the defaults, an argument starting with `--` also starts with `-`, so it starts with one of the name indicators |
| Options.NewTokenizeOptions | src/NArgs/Models/TokenizeOptions.cs:53-69 | the defaults: quotation character `"`, separators space and tab, name indicators `/`, `-`, `--` in order, value separators `:` and `=` |
| Parameters.Parameter.constructor | src/NArgs/Attributes/Parameter.cs:53-58 | a new parameter has ordinal 1 and empty name and description |
| Parameters.Parameter.OrdinalNumber | src/NArgs/Attributes/Parameter.cs:16-19 | the ordinal read back is never below 1 |
| Parameters.Parameter.SetOrdinalNumber | src/NArgs/Attributes/Parameter.cs:21-29 | a value below 1 throws `ArgumentOutOfRangeException` for `OrdinalNumber` and keeps the old ordinal; any other value is stored; the ordinal stays at least 1 |
| Parameters.ParameterAttribute.constructor | src/NArgs/Attributes/ParameterAttribute.cs:35-38 | a new attribute has ordinal 1 |
| Parameters.ParameterAttribute.OrdinalNumber | src/NArgs/Attributes/ParameterAttribute.cs:16-19 | the ordinal read back is never below 1 |
| Parameters.ParameterAttribute.SetOrdinalNumber | src/NArgs/Attributes/ParameterAttribute.cs:21-29 | a value below 1 throws `ArgumentOutOfRangeException` for `OrdinalNumber` and keeps the old ordinal; any other value is stored; the ordinal stays at least 1 |
| Tokens.NewEmptyItem | src/NArgs/Models/TokenizeItem.cs:65-72 | the parameterless constructor: empty name, no value, Success, error type `None`, empty message |
| Tokens.NewItem | src/NArgs/Models/TokenizeItem.cs:79-86 | the `(name, value)` constructor keeps both and gives a succeeded item with error type `None` and an empty message |
| Tokens.NewFailedItem | src/NArgs/Models/TokenizeItem.cs:95-102 | the failure constructor gives no value, Failure and the given error type; a null message becomes empty |
| Tokens.SucceededIsNotFailed | src/NArgs/Models/TokenizeItem.cs:55-60 | `Succeeded` is always the negation of `Failed` |
| Tokens.Equals | src/NArgs/Models/TokenizeItem.cs:105-136 | false for null, otherwise true exactly when all five fields are equal |
| Tokens.EqualsReflexive | src/NArgs/Models/TokenizeItem.cs:127-136 | every item equals itself |
| Tokens.EqualsSymmetric | src/NArgs/Models/TokenizeItem.cs:127-136 | equality does not depend on argument order |
| Tokens.Wrap32 | src/NArgs/Models/TokenizeItem.cs:113-118 | the C# `int` result of an arithmetic value: in range, congruent modulo 2^32, and unchanged when already in range |
| Tokens.GetHashCode | src/NArgs/Models/TokenizeItem.cs:111-120 | the hash folds the five field hashes into 966633335 with factor -1521134295 in 32-bit arithmetic, and is a C# `int` |
| Tokens.EqualItemsHashAlike | src/NArgs/Models/TokenizeItem.cs:111-136 | items that `Equals` relates have the same hash code |
| FileSystem.SegmentHasNoneOf | src/NArgs/Misc/FileSystemInfo.cs:31-38 | the character loop over one segment answers whether no character of it is in the invalid set |
| FileSystem.IsValidDirectoryName | src/NArgs/Misc/FileSystemInfo.cs:16-48 | true exactly when the name is not blank and no separator-delimited segment except the last holds an invalid path character |
| FileSystem.IsValidFileName | src/NArgs/Misc/FileSystemInfo.cs:55-94 | true exactly when the name is not blank, each segment before the last two passes the directory-name check, and the last two hold no invalid file-name character |
| FileSystem.SplitWithoutSeparator | src/NArgs/Misc/FileSystemInfo.cs:27 | a name without the separator splits into itself alone |
| FileSystem.SeparatorFreeDirectoryName | src/NArgs/Misc/FileSystemInfo.cs:20-44 | a name without a separator is a valid directory name exactly when it is not blank: the last segment is never inspected |
| FileSystem.FileNameBySegments | src/NArgs/Misc/FileSystemInfo.cs:59-90 | the file-name check holds exactly when the name is not blank, every segment before the last two is not blank, and the last two hold no invalid file-name character |
| FileSystem.SeparatorFreeFileName | src/NArgs/Misc/FileSystemInfo.cs:66-84 | a name without a separator is a valid file name exactly when it is not blank and holds no invalid file-name character |
| FileSystem.QuestionMarkNameRejected | src/NArgs/Misc/FileSystemInfo.cs:74-84 | example: with `?` among the invalid file-name characters, `?;` is not a valid file name |
| Results.Enumerate | src/NArgs/Models/AnalysisResult.cs:87-92 | enumerating lazily built errors yields those built before the first exception, in order, and that exception; with no exception every error is yielded |
| Results.ParseResult.constructor | src/NArgs/Models/ParseResult.cs:35-40 | a new result has the given status and no errors |
| Results.ParseResult.AddError | src/NArgs/Models/ParseResult.cs:46-55 | null throws `ArgumentNullException` and changes nothing; any other error is appended at the end and the status becomes Failure |
| Results.ParseResult.AddErrors | src/NArgs/Models/AnalysisResult.cs:80-96 | null throws and changes nothing; all errors are appended in order, and the status becomes Failure when there was at least one; errors imply Failure |
| Results.ParseResult.AddErrorsFrom | src/NArgs/Models/AnalysisResult.cs:80-96 | for errors built while enumerating: the errors built before an exception are appended and the status is kept; without an exception all are appended and a non-empty list sets Failure |
| Results.AnalysisResult.constructor | src/NArgs/Models/AnalysisResult.cs:54-59 | a new result is Success, has no errors and no commands defined |
| Results.AnalysisResult.SuccessIsNotFailure | src/NArgs/Models/AnalysisResult.cs:24-29 | `Success` and `Failure` are always complementary |
| Results.AnalysisResult.AddError | src/NArgs/Models/AnalysisResult.cs:65-74 | null throws and changes nothing; otherwise the error is appended and the status is Failure; the status is Failure exactly when there are errors |
| Results.AnalysisResult.AddErrors | src/NArgs/Models/AnalysisResult.cs:80-96 | null throws; an empty sequence changes nothing; a non-empty one is appended in order and sets Failure; the status is Failure exactly when there are errors |
| Schema.NewOptionAttr | src/NArgs/Attributes/Option.cs:67-75 | a new option attribute has empty names and description, display name `option`, and is not required |
| Schema.Find | src/NArgs/Services/PropertyService.cs:134-145 | the lookup in declaration order finds nothing exactly when no property answers the query, and otherwise the property at the first position that does |
| Schema.FindIsFirst | src/NArgs/Services/PropertyService.cs:134-145 | whatever property answers a query first in declaration order is the one the lookup returns |
| Schema.FirstMatchUnique | src/NArgs/Services/PropertyService.cs:134-145 | there is only one first matching position |
| Schema.ExactCommandFoundIgnoringCase | src/NArgs/Services/DefaultPropertyService.cs:157-176 | a command found by its exact `Name` is also found when case is ignored and the long name is consulted too |
| Values.InLiteralsIff | src/NArgs/Services/DefaultPropertyService.cs:568-581 | a text is one of the lower-case Boolean literals, ignoring case, exactly when its lower-case form is one of them |
| Values.BooleanLiteralsDisjoint | src/NArgs/Services/DefaultPropertyService.cs:568-581 | no text is both a true literal and a false literal |
| Values.UpperCaseLiteralsAccepted | src/NArgs/Services/DefaultPropertyService.cs:568-581 | example: case does not matter: `YES` and `On` are true literals, `OFF` a false one, and `Nein` is no true literal |
| Values.IsValidValue | src/NArgs/Services/DefaultPropertyService.cs:419-530 | a null or blank value is valid exactly for a Boolean property, and any non-blank value is valid for a String property |
| Values.BooleanValidIffLiteral | src/NArgs/Services/DefaultPropertyService.cs:453-463 | a non-blank text is valid for a Boolean exactly when its lower-case form is in `{y, yes, true, on, 1}` or `{n, no, false, off, 0}` |
| Values.ExistenceOnlyWhenRequired | src/NArgs/Services/DefaultPropertyService.cs:469-501 | for an option that is not required, a file or directory value needs only a well-formed name, never existence on disk |
| Values.CustomTypeNeedsHandler | src/NArgs/Services/DefaultPropertyService.cs:523-524 | without a registered handler no value is valid for a custom type |
| Values.IntegerRangeChecked | src/NArgs/Services/DefaultPropertyService.cs:482-516 | an integer type accepts the decimal text of a number, signed or not, exactly when the number lies in the type's range |
| Values.IntegerValidity | src/NArgs/Services/DefaultPropertyService.cs:482-516 | for an integer type a non-blank text is valid exactly when it parses to an integer in the type's range |
| Values.IntegerBoundaries | src/NArgs/Services/DefaultPropertyService.cs:482-516 | example: `Int16` accepts 32767 and rejects 32768, `UInt16` rejects 65536, and `UInt64` rejects -1 |
| Values.Assign | src/NArgs/Services/DefaultPropertyService.cs:297-308 | a null or blank value sets a Boolean to true and, for any other type, throws `ArgumentException` naming the property |
| Values.StoreThenRead | src/NArgs/Services/DefaultPropertyService.cs:302-382 | a stored field reads back the stored value and every other field keeps its own |
| Values.CustomValueFromGetter | src/NArgs/Services/DefaultPropertyService.cs:381-382 | a custom-typed field takes what the registered getter builds, null without a handler, and a throwing getter makes the assignment throw the same exception |
| Values.ValidValueAssigns | src/NArgs/Services/DefaultPropertyService.cs:290-395 | for every type whose check and conversion follow the same rule, a value the check accepts is stored without an exception, as long as a custom getter does not throw |
| Values.ValidIntegerStored | src/NArgs/Services/DefaultPropertyService.cs:341-375 | a valid integer text is stored as the number it spells, and that number is in the type's range |
| Values.BooleanAssignment | src/NArgs/Services/DefaultPropertyService.cs:317-327 | a non-blank Boolean text sets true for a true literal and false for a false literal, and leaves the field alone exactly when the check would reject it |
| Values.RelativeUriPassesButThrows | src/NArgs/Services/DefaultPropertyService.cs:377-379 | a relative URI passes the check but makes the assignment throw, because the check accepts relative and absolute forms and `new Uri` only absolute ones |
| Values.Register | src/NArgs/Services/DefaultPropertyService.cs:398-416 | null arguments throw `ArgumentNullException` in parameter order; a second registration throws because every type shares the one key; otherwise the handler is stored |
| Values.OneHandlerForAllCustomTypes | src/NArgs/Services/DefaultPropertyService.cs:415 | one registered handler judges every custom type: two custom properties with the same name and requirement are judged alike |
| DefaultService.Recorded | src/NArgs/Services/DefaultPropertyService.cs:386-393 | after a value that is not blank, the property's option is in the assigned list; the list only grows, by at most one, and never holds an option twice |
| DefaultService.UnassignedRequired | src/NArgs/Services/DefaultPropertyService.cs:246-253 | the options in the result are exactly the required options of the properties that are not assigned, and there are no more of them than properties |
| DefaultService.UnassignedRequiredAppend | src/NArgs/Services/DefaultPropertyService.cs:246-253 | the result keeps declaration order: for two property lists joined it is the result for the first followed by the result for the second |
| DefaultService.UnassignedRequiredSingle | src/NArgs/Services/DefaultPropertyService.cs:246-253 | a single property contributes its option exactly when that option is required and not assigned, and nothing otherwise |
| DefaultService.UnassignedRequiredNames | src/NArgs/Services/DefaultPropertyService.cs:246-253 | one name per unassigned required option, in the same order: its `Name`, or `n/a` when that is null |
| DefaultService.SettingAssigns | src/NArgs/Services/DefaultPropertyService.cs:386-393 | an option set to a value that is not blank is no longer reported as missing, and no other option's report changes |
| DefaultService.BlankBooleanStaysUnassigned | src/NArgs/Services/DefaultPropertyService.cs:298-303 | a required Boolean option set without a value becomes true, yet is still reported as missing |
| DefaultService.AcceptedValueIsStored | src/NArgs/Services/DefaultPropertyService.cs:290-395 | a value the check accepts, for a type whose check and conversion agree, is stored without an exception and reads back as the converted value |
| DefaultService.DefaultPropertyService.constructor | src/NArgs/Services/DefaultPropertyService.cs:52-60 | after validation passes: no values, nothing assigned, no current command and no handler |
| DefaultService.DefaultPropertyService.Create | src/NArgs/Services/DefaultPropertyService.cs:52-60 | a null configuration throws `ArgumentNullException`; construction succeeds exactly when the configuration passes validation, and otherwise throws the validation's exception; the options are the defaults |
| DefaultService.DefaultPropertyService.CreateWithOptions | src/NArgs/Services/DefaultPropertyService.cs:67-70 | the configuration is validated first, then null options throw; on success the given options are kept |
| DefaultService.DefaultPropertyService.GetPropertyByOptionName | src/NArgs/Services/DefaultPropertyService.cs:135-154 | a blank name throws; otherwise the first property of the current scope with an option named so (ordinal comparison of any of its three names), or `ArgumentException` when there is none |
| DefaultService.DefaultPropertyService.HasCommands | src/NArgs/Services/DefaultPropertyService.cs:89-92 | true exactly when some property of the current scope is a command |
| DefaultService.DefaultPropertyService.HasOptions | src/NArgs/Services/DefaultPropertyService.cs:95-98 | true exactly when some property of the current scope is an option |
| DefaultService.DefaultPropertyService.HasParameters | src/NArgs/Services/DefaultPropertyService.cs:101-104 | true exactly when some property of the current scope is a parameter |
| DefaultService.DefaultPropertyService.GetPropertyTypeByOptionName | src/NArgs/Services/DefaultPropertyService.cs:107-127 | succeeds exactly when the lookup by option name does, with that property's type; a blank name throws, and an unknown name throws naming the parameter `name` rather than the name |
| DefaultService.DefaultPropertyService.GetPropertyTypeNameByOptionName | src/NArgs/Services/DefaultPropertyService.cs:129-133 | the full name of that type, with the type lookup's exceptions |
| DefaultService.DefaultPropertyService.GetPropertyByCommandName | src/NArgs/Services/DefaultPropertyService.cs:157-176 | a blank name throws; otherwise, over the configuration's own properties whatever command is current, found exactly when some command's `Name` equals the name ordinally (the long name is not consulted), the first such property, and `CommandDoesNotExist` naming the name when there is none |
| DefaultService.DefaultPropertyService.IsRequired | src/NArgs/Services/DefaultPropertyService.cs:179-195 | null throws; otherwise true exactly when the property carries an option marked required, and then `GetOption` succeeds on it |
| DefaultService.DefaultPropertyService.GetOption | src/NArgs/Services/DefaultPropertyService.cs:210-220 | null throws `ArgumentNullException`; otherwise the property's option, or `ArgumentException` naming `prop` exactly when it has none |
| DefaultService.DefaultPropertyService.GetParameter | src/NArgs/Services/DefaultPropertyService.cs:222-232 | null throws `ArgumentNullException`; otherwise the property's parameter, or `ArgumentException` naming `prop` exactly when it has none |
| DefaultService.DefaultPropertyService.GetCommand | src/NArgs/Services/DefaultPropertyService.cs:234-244 | null throws `ArgumentNullException`; otherwise the property's command, or `ArgumentException` naming `prop` exactly when it has none |
| DefaultService.DefaultPropertyService.GetOptionName | src/NArgs/Services/DefaultPropertyService.cs:197-208 | fails exactly when `GetOption` does, with its exception; otherwise the option's first non-null name |
| DefaultService.DefaultPropertyService.IsValidValue | src/NArgs/Services/DefaultPropertyService.cs:419-530 | a null property throws; otherwise the value table's verdict with the registered handler |
| DefaultService.DefaultPropertyService.IsValidOptionValue | src/NArgs/Services/DefaultPropertyService.cs:533-552 | the lookup's exception passes through; otherwise the verdict for the first option property with that name |
| DefaultService.DefaultPropertyService.GetUnassignedRequiredOptionNames | src/NArgs/Services/DefaultPropertyService.cs:246-253 | the names of the required options of the current scope not yet assigned, in declaration order, `n/a` for a null name |
| DefaultService.DefaultPropertyService.GetPropertyValue | src/NArgs/Services/DefaultPropertyService.cs:256-264 | a null property throws; a field never set holds its initial value |
| DefaultService.DefaultPropertyService.GetGlobalPropertyValue | src/NArgs/Services/DefaultPropertyService.cs:267-276 | a null property throws; otherwise the field of the configuration object itself, which is `GetPropertyValue`'s answer whenever no command is current |
| DefaultService.DefaultPropertyService.SetCurrentCommand | src/NArgs/Services/DefaultPropertyService.cs:278-281 | null throws and keeps the current command; otherwise later lookups use the command's properties; no field changes |
| DefaultService.DefaultPropertyService.ResetCurrentCommand | src/NArgs/Services/DefaultPropertyService.cs:284-287 | later lookups use the configuration's own properties; no field changes |
| DefaultService.DefaultPropertyService.SetPropertyValue | src/NArgs/Services/DefaultPropertyService.cs:290-395 | a null property throws; a conversion that throws changes nothing; otherwise the field of the current object takes the converted value and a value that is not blank records the option once |
| DefaultService.DefaultPropertyService.AddCustomDataTypeHandler | src/NArgs/Services/DefaultPropertyService.cs:398-416 | null arguments throw in parameter order, a second registration throws, and otherwise the handler is stored; no field changes |
| Service.BindTouchesOneField | src/NArgs/Services/PropertyService.cs:222-234 | a successful binding changes only the field it targets: a command's field never touches the configuration's own fields, nor the other way round |
| Service.OptionName | src/NArgs/Services/PropertyService.cs:205-208 | the first of `Name`, `AlternativeName`, `LongName` that is not null, or the empty string |
| Service.PropertyService.OptionNameFindsOption | src/NArgs/Services/PropertyService.cs:127-148 | looking an option up by the name `GetOptionName` gives it: a blank name throws `MissingRequiredParameterValue`; otherwise the lookup succeeds with the first property answering to that name, which is the option's own property unless an earlier one answers to the same name |
| Service.PropertyService.constructor | src/NArgs/Services/PropertyService.cs:48-52 | default options, no configuration, no field values and no handler |
| Service.PropertyService.WithOptions | src/NArgs/Services/PropertyService.cs:58-61 | the given options, no configuration, no field values and no handler |
| Service.PropertyService.CreateWithOptions | src/NArgs/Services/PropertyService.cs:58-61 | null options throw `ArgumentNullException`; otherwise a fresh service with those options and nothing else set |
| Service.PropertyService.Config | src/NArgs/Services/PropertyService.cs:27-38 | reading the configuration before `Init` throws `InvalidOperationException`, and only then |
| Service.PropertyService.Init | src/NArgs/Services/PropertyService.cs:64-67 | a null configuration throws and changes nothing; otherwise the configuration becomes readable and is the given one |
| Service.PropertyService.GetProperties | src/NArgs/Services/PropertyService.cs:70-73 | the configuration's properties, with the same not-initialised exception |
| Service.PropertyService.HasCommands | src/NArgs/Services/PropertyService.cs:91-94 | true exactly when some property of the configuration is a command |
| Service.PropertyService.GetPropertyByOptionName | src/NArgs/Services/PropertyService.cs:127-148 | a blank name throws before the configuration is read; otherwise found exactly when some option has the name as one of its three names (ordinal comparison), the first such property in declaration order, and `OptionDoesNotExist` naming the name when there is none |
| Service.PropertyService.GetPropertyTypeByOptionName | src/NArgs/Services/PropertyService.cs:97-118 | succeeds exactly when the lookup by option name does, with that property's type; an unknown name throws naming the parameter `name` |
| Service.PropertyService.GetPropertyTypeNameByOptionName | src/NArgs/Services/PropertyService.cs:121-124 | the full name of that type, failing exactly when the type lookup fails |
| Service.PropertyService.GetPropertyByCommandName | src/NArgs/Services/PropertyService.cs:151-171 | a blank name throws; otherwise found exactly when some command's `Name` or `LongName` equals the name ignoring case, the first such command property, and `CommandDoesNotExist` when there is none |
| Service.PropertyService.GetCommandByName | src/NArgs/Services/PropertyService.cs:174-177 | the command found by `GetPropertyByCommandName`, with its exceptions |
| Service.PropertyService.GetCommandProperties | src/NArgs/Services/PropertyService.cs:76-86 | a blank command name throws; otherwise the members of the command found by name, failing exactly when that lookup fails |
| Service.PropertyService.IsRequired | src/NArgs/Services/PropertyService.cs:180-195 | null throws; otherwise true exactly when the property carries an option marked required |
| Service.PropertyService.GetOptionName | src/NArgs/Services/PropertyService.cs:198-213 | null throws `ArgumentNullException`, a property without an option throws `ArgumentException`, otherwise the option's first non-null name |
| Service.PropertyService.IsValidValue | src/NArgs/Services/PropertyService.cs:265-363 | null throws; otherwise the same verdict as the value table shared with the default service |
| Service.PropertyService.IsValidOptionValue | src/NArgs/Services/PropertyService.cs:366-384 | fails exactly when the option lookup fails, with its exception; otherwise the verdict for the property found |
| Service.PropertyService.SetPropertyValue | src/NArgs/Services/PropertyService.cs:216-219 | before `Init` it throws the not-initialised exception even for a null property; otherwise a converted value is stored in the configuration's own field and a failing conversion changes nothing |
| Service.PropertyService.SetCommandPropertyValue | src/NArgs/Services/PropertyService.cs:222-234 | a blank command name or an unknown command throws and changes nothing; otherwise the value goes to the field of that command's object |
| Service.PropertyService.Store | src/NArgs/Services/PropertyService.cs:453-550 | null property throws; otherwise the target field takes the converted value, or nothing changes when conversion throws |
| Service.PropertyService.AddCustomDataTypeHandler | src/NArgs/Services/PropertyService.cs:237-257 | null arguments throw in parameter order, a second registration throws as `Dictionary.Add` does, otherwise the handler is stored; configuration and values unchanged |
| ConfigurationValidation.Min | src/NArgs/Services/DefaultPropertyService.cs:823-825 | the first element of the sorted ordinals: an element of the list no greater than any other |
| ConfigurationValidation.Max | src/NArgs/Services/DefaultPropertyService.cs:823-826 | the last element of the sorted ordinals: an element of the list no smaller than any other |
| ConfigurationValidation.CheckOptionIff | src/NArgs/Services/DefaultPropertyService.cs:698-762 | an option passes exactly when its name is not blank and its upper-case names (alternative and long name when not blank) are new and distinct; it then claims exactly those keys |
| ConfigurationValidation.CheckParameterIff | src/NArgs/Services/DefaultPropertyService.cs:768-812 | a parameter passes exactly when its scope has no commands, its upper-case name (when not blank) is new and its ordinal is new; it then claims them |
| ConfigurationValidation.OrdinalsIff | src/NArgs/Services/DefaultPropertyService.cs:818-831 | for ordinals without repetitions, the first-is-1 and last-is-count test on the sorted list passes exactly when they are 1, 2, ..., n |
| ConfigurationValidation.ScopeIff | src/NArgs/Services/DefaultPropertyService.cs:636-690 | the check of a scope's remaining properties passes exactly when its options are named, option keys, parameter names and ordinals stay distinct, the ordinals end up 1 to n, no parameter sits beside commands and no command nests; it then returns all option keys claimed |
| ConfigurationValidation.OptionStep | src/NArgs/Services/DefaultPropertyService.cs:638-643 | the step of that equivalence for an option property |
| ConfigurationValidation.ParameterStep | src/NArgs/Services/DefaultPropertyService.cs:644-648 | the step of that equivalence for a parameter property |
| ConfigurationValidation.ParameterSplit | src/NArgs/Services/DefaultPropertyService.cs:784-811 | a parameter's name and ordinal split off the scope's remaining names and ordinals |
| ConfigurationValidation.CommandStep | src/NArgs/Services/DefaultPropertyService.cs:649-686 | the step of that equivalence for a command property, whose members form a scope of their own sharing the option keys |
| ConfigurationValidation.CommandSplit | src/NArgs/Services/DefaultPropertyService.cs:649-686 | the conditions on a scope starting with a command are those on the command's scope and those on the rest |
| ConfigurationValidation.CommandClaims | src/NArgs/Services/DefaultPropertyService.cs:651-670 | a command claims its members' option keys and none of the enclosing scope's parameter names or ordinals |
| ConfigurationValidation.ValidationIff | src/NArgs/Services/DefaultPropertyService.cs:630-690 | construction fails exactly for configurations that are not well formed: an unnamed option, an option key used twice anywhere ignoring case, repeated parameter names or ordinals, ordinals not 1 to n, parameters beside commands, or a nested command |
| ConfigurationValidation.ValidateParameterOrdinals | src/NArgs/Services/DefaultPropertyService.cs:818-831 | the loop computes exactly the ordinal check's verdict |
| ConfigurationValidation.ValidateCommand | src/NArgs/Services/DefaultPropertyService.cs:649-686 | the loop over a command's properties returns exactly the command scope's verdict and claimed keys |
| ConfigurationValidation.ValidateConfiguration | src/NArgs/Services/DefaultPropertyService.cs:630-690 | the loop over the configuration returns exactly the exception `ValidationError` names, or none |
| ConfigurationValidation.CaseInsensitiveClash | src/NArgs/Services/DefaultPropertyService.cs:708-729 | example: an alternative name `V` clashes with another option's name `v`: keys are compared in upper case |
| Tokenizer.Classify | src/NArgs/Tokenizers/ConsoleArgumentTokenizer.cs:166-181 | never `NotSet`; `OptionLongName` exactly when the name starts with the long-name indicator (ordinal), which is then stripped from the front; `Option` exactly when it otherwise starts with any indicator, and then no indicator is left at the front; otherwise `Parameter` with the name unchanged |
| Tokenizer.CreateItem | src/NArgs/Tokenizers/ConsoleArgumentTokenizer.cs:157-189 | throws `ArgumentNullException` exactly for a blank name; otherwise the name, trimmed of quotation characters and then white space, is classified; a value that is not blank is trimmed the same way, a blank one is kept |
| Tokenizer.ProcessArguments | src/NArgs/Tokenizers/ConsoleArgumentTokenizer.cs:108-155 | one item and the code 1 or 2; 2 exactly when `arg1` is an option without the value separator and `arg2` is a value argument, which becomes the item's value; an option without the separator and no value argument after it becomes an item with an empty value and code 1; an option with the separator splits at its first occurrence into name and value, the value stripped of surrounding quotation characters, with code 1; a non-option `arg1` becomes an item with an empty value and code 1; the only throw is the blank name |
| Tokenizer.ConsoleArgumentTokenizer.constructor | src/NArgs/Tokenizers/ConsoleArgumentTokenizer.cs:45-49 | default options and no items |
| Tokenizer.ConsoleArgumentTokenizer.WithOptions | src/NArgs/Tokenizers/ConsoleArgumentTokenizer.cs:51-54 | the given options and no items |
| Tokenizer.ConsoleArgumentTokenizer.Create | src/NArgs/Tokenizers/ConsoleArgumentTokenizer.cs:51-54 | null options throw `ArgumentNullException`, and only they do; otherwise a fresh tokenizer with those options and no items |
| Tokenizer.ConsoleArgumentTokenizer.Tokenize | src/NArgs/Tokenizers/ConsoleArgumentTokenizer.cs:56-106 | the loop returns exactly the items of the recursive definition, a null array throwing `ArgumentNullException`; on success `Items` is the returned list, on a throw it keeps its old value |
| Tokenizer.TokenizeOnlyThrowsBlankName | src/NArgs/Tokenizers/ConsoleArgumentTokenizer.cs:95-155 | the only exception a run can throw is the blank item name: the final call always returns 1, so the "Unknown error" throw is unreachable |
| Tokenizer.ItemCountBounds | src/NArgs/Tokenizers/ConsoleArgumentTokenizer.cs:66-101 | every non-blank argument is its own item or the value of the one before: no more items than non-blank arguments and at least half as many |
| Tokenizer.BlankArgumentsYieldNothing | src/NArgs/Tokenizers/ConsoleArgumentTokenizer.cs:68-95 | white-space-only arguments yield no item |
| Tokenizer.SplitAtFirstColon | src/NArgs/Tokenizers/ConsoleArgumentTokenizer.cs:114-144 | an option argument with a `:` splits at the first one: the name before it, the rest without quotation characters as the value (later colons stay in it), and the next argument is left for the next turn |
| Tokenizer.WaitingArgumentAlone | src/NArgs/Tokenizers/ConsoleArgumentTokenizer.cs:95-101 | a waiting argument with nothing after it ends the run as its own single item |
| Tokenizer.OptionStepTakesValue | src/NArgs/Tokenizers/ConsoleArgumentTokenizer.cs:118-130 | a waiting option without `:` takes a following value argument, trimmed of quotation characters, as its value and nothing is left waiting |
| Tokenizer.OptionTakesValue | src/NArgs/Tokenizers/ConsoleArgumentTokenizer.cs:118-130 | a waiting option without `:` and a value argument after it yield one item carrying that value |
| Tokenizer.OptionThenValue | src/NArgs/Tokenizers/ConsoleArgumentTokenizer.cs:66-130 | the arguments option, value yield exactly one item |
| Tokenizer.InlineValueAlone | src/NArgs/Tokenizers/ConsoleArgumentTokenizer.cs:95-144 | a waiting option with an inline `:` value yields exactly one item |
| Tokenizer.OptionWithInlineValue | src/NArgs/Tokenizers/ConsoleArgumentTokenizer.cs:66-144 | the single argument `name:value` yields exactly one item |
| Tokenizer.SeparateValueLikeInlineValue | src/NArgs/Tokenizers/ConsoleArgumentTokenizer.cs:114-144 | under the default options, an option followed by its value as a separate argument yields the same items as the option with the value after a `:` |
| Parser.DetermineOptionProperty | src/NArgs/Parsers/CommandLineParser.cs:371-385 | none exactly when no declared option has the token name, stripped of its leading indicators, as its name, alternative name or long name; otherwise the first such property |
| Parser.DetermineParameterProperty | src/NArgs/Parsers/CommandLineParser.cs:402-406 | none exactly when no declared parameter has the ordinal; otherwise the first such property |
| Parser.GetOptionName | src/NArgs/Parsers/CommandLineParser.cs:424-427 | no longer than the token name; a piece of the token name with a run of whole indicators removed before it and a run removed after it; and neither starting nor ending with any of the tokenizer's indicators |
| Parser.IndicatorThenPlainName | src/NArgs/Parsers/CommandLineParser.cs:424-427 | a name that neither starts nor ends with an indicator, written after one of the default indicators `/`, `-` or `--`, comes back as that name |
| Text.TrimAnyLeavesCore | src/NArgs/Parsers/CommandLineParser.cs:426 | `Trim(string[])` leaves a piece of the text such that what precedes it and what follows it are each a run of whole non-empty indicators |
| Parser.PlainNameUnchanged | src/NArgs/Parsers/CommandLineParser.cs:424-427 | a name that neither starts nor ends with an indicator is its own option name |
| Parser.GetOptionNameIdempotent | src/NArgs/Parsers/CommandLineParser.cs:424-427 | stripping the indicators twice gives the same name as stripping them once |
| Parser.FailedTokens | src/NArgs/Parsers/CommandLineParser.cs:234-240 | every token in the result failed and comes from the input, every failed token of the input is in the result, and the result is empty exactly when no token failed |
| Parser.FailedTokensAppend | src/NArgs/Parsers/CommandLineParser.cs:234-240 | the filter keeps token order: the failed tokens of two lists joined are those of the first followed by those of the second |
| Parser.FailedTokensSingle | src/NArgs/Parsers/CommandLineParser.cs:234-240 | a single token is kept exactly when it failed |
| Parser.Caught | src/NArgs/Parsers/CommandLineParser.cs:357-366 | an `InvalidCommandArgsFormatException` becomes an `InvalidCommandArgsFormat` error carrying its item name and message, and building it throws exactly when that name is blank; any other exception becomes an `UnknownError` for item `n/a` |
| Parser.SetPreserves | src/NArgs/Parsers/CommandLineParser.cs:274-336 | a value the service stores changes no field outside the current scope and only adds to the assigned options |
| Parser.Perform | src/NArgs/Parsers/CommandLineParser.cs:257-340 | setting a value throws exactly when the service's `SetPropertyValue` throws and otherwise leaves its new fields; adding an error throws exactly when the error cannot be built and otherwise reports it and changes no field |
| Parser.OptionAction | src/NArgs/Parsers/CommandLineParser.cs:263-319 | a token naming an option only sets that option, keeping the parameter ordinal; every error it reports has a name |
| Parser.ParameterAction | src/NArgs/Parsers/CommandLineParser.cs:321-346 | a token naming no option always consumes only itself; a value set moves the ordinal on by one |
| Parser.Decide | src/NArgs/Parsers/CommandLineParser.cs:255-346 | a blank token name leads to an error whose construction throws; the ordinal moves on by at most one |
| Parser.StepAt | src/NArgs/Parsers/CommandLineParser.cs:249-346 | a turn that goes on moves the ordinal on by at most one, writes only in the current scope and reports only named errors |
| Parser.RunNext | src/NArgs/Parsers/CommandLineParser.cs:249-252 | a turn that goes on continues the pass from the token it leads to |
| Parser.RunThrow | src/NArgs/Parsers/CommandLineParser.cs:357-366 | a turn that throws ends the pass with the errors and fields it had |
| Parser.BindFromNext | src/NArgs/Parsers/CommandLineParser.cs:249-252 | the same as `RunNext` for the parser's own turn |
| Parser.BindFromAdvance | src/NArgs/Parsers/CommandLineParser.cs:249-347 | a turn that goes on leads to a state from which the same pass follows |
| Parser.BindFromThrow | src/NArgs/Parsers/CommandLineParser.cs:357-366 | a turn of the parser that throws ends the pass with what it had |
| Parser.FailedTokensOnlyReported | src/NArgs/Parsers/CommandLineParser.cs:234-243 | when a token failed tokenizing, no field is set, the required options are not checked and, when every failed token has a name, the errors are exactly one `InvalidCommandArgsFormat` per failed token, in token order, carrying its name, value and message |
| Parser.FailedTokensNamed | src/NArgs/Parsers/CommandLineParser.cs:234-240 | failed tokens that all have names stay named in the list of failed tokens |
| Parser.BlankNameStopsPass | src/NArgs/Parsers/CommandLineParser.cs:255-258 | a token with a blank name stops the pass with the exception of the `ParseError` constructor, which is then reported as one `UnknownError` |
| Parser.OrdinalAdvancesOnBoundParameter | src/NArgs/Parsers/CommandLineParser.cs:324-345 | the ordinal moves on exactly when a parameter with the current ordinal exists and accepts the token; then the value is set and nothing is reported, otherwise an error is reported and no field changes |
| Parser.NonBooleanOptionTakesNextToken | src/NArgs/Parsers/CommandLineParser.cs:282-301 | a non-Boolean option without an inline value always consumes the next token, and reports `InvalidOptionValue` with that token exactly when the service rejects it, changing no field then |
| Parser.BooleanOptionTakesValidNextOnly | src/NArgs/Parsers/CommandLineParser.cs:269-281 | a Boolean option without an inline value consumes the next token exactly when it is valid for a Boolean (a literal, or no token at all); otherwise the option becomes true; nothing is reported either way |
| Parser.RunErrorsNamed | src/NArgs/Parsers/CommandLineParser.cs:249-347 | a pass whose every turn reports only named errors reports only named errors |
| Parser.RunKeepsScope | src/NArgs/Parsers/CommandLineParser.cs:249-347 | a pass whose every turn keeps to the scope keeps to it |
| Parser.PassErrorsNamed | src/NArgs/Parsers/CommandLineParser.cs:249-347 | every error the binding pass reports has a name, since the `ParseError` constructor refuses blank ones |
| Parser.PassStaysInScope | src/NArgs/Parsers/CommandLineParser.cs:249-347 | the binding pass writes only fields of the current scope, and the assigned options only grow |
| Parser.NoErrorsMeansRequiredAssigned | src/NArgs/Parsers/CommandLineParser.cs:349-355 | a parse that reports no error and throws nothing has assigned every required option of the scope |
| Parser.RequiredReportedUnlessAssigned | src/NArgs/Parsers/CommandLineParser.cs:349-400 | a required option left unassigned is reported by a `RequiredOptionValue` error with its name and value `n/a`, unless an exception escaped or the pass reported an `UnknownError` or `InvalidCommandArgsFormat` |
| Parser.RequiredReportedAfterFailedTokens | src/NArgs/Parsers/CommandLineParser.cs:234-243 | when a token failed tokenizing and a required option is unassigned, an exception escaped or an `UnknownError` or `InvalidCommandArgsFormat` error was reported |
| Parser.RequiredReportedAfterBinding | src/NArgs/Parsers/CommandLineParser.cs:247-355 | the same for tokens that all tokenized |
| Parser.RequiredReportedWhenBound | src/NArgs/Parsers/CommandLineParser.cs:349-400 | the same for a binding pass that threw nothing, where only an `UnknownError` can stand in for the report |
| Parser.RequiredBooleanLastIsReportedMissing | src/NArgs/Parsers/CommandLineParser.cs:269-355 | a required Boolean option given as the last token without a value is set to true yet reported as missing, since a blank value is not recorded as an assignment |
| Parser.VerboseLastOutcome | src/NArgs/Parsers/CommandLineParser.cs:222-369 | example: the whole outcome of that example, an instance of `Parser.RequiredBooleanLastIsReportedMissing`: the one missing-option error and the option set to true |
| Parser.VerboseCheck | src/NArgs/Parsers/CommandLineParser.cs:349-355 | example: the required check after that pass reports the option |
| Parser.VerboseLastPass | src/NArgs/Parsers/CommandLineParser.cs:249-347 | example: the pass over that one token sets the option to true, reports nothing and leaves it unassigned |
| Parser.VerboseStep | src/NArgs/Parsers/CommandLineParser.cs:269-276 | example: the turn for that token with nothing after it |
| Parser.VerboseTakesNoValue | src/NArgs/Parsers/CommandLineParser.cs:269-276 | example: that token is decided as setting the option to no value and skipping the missing next token |
| Parser.VerboseReportedMissing | src/NArgs/Parsers/CommandLineParser.cs:387-400 | example: the required check reports an unassigned required option by name |
| Parser.LoneIndicatorMatchesDefaultAlternativeName | src/NArgs/Parsers/CommandLineParser.cs:371-385 | example: a lone indicator such as `-` is stripped to the empty name, which an option with an empty alternative name matches |
| Parser.CommandLineParser.constructor | src/NArgs/Parsers/CommandLineParser.cs:53-58 | the given indicators, service and options |
| Parser.CommandLineParser.Create | src/NArgs/Parsers/CommandLineParser.cs:53-58 | a null tokenizer throws, then a null property service; otherwise a fresh parser with the default options |
| Parser.CommandLineParser.CreateWithOptions | src/NArgs/Parsers/CommandLineParser.cs:66-69 | the two services are checked first, then null options throw; otherwise the given options are kept |
| Parser.CommandLineParser.ParseItems | src/NArgs/Parsers/CommandLineParser.cs:222-369 | a null list throws; otherwise the result's errors and the service's fields are those of the recursive definition, its status is failure exactly when there are errors, and an exception escapes only when a caught one cannot be reported |
| Parser.CommandLineParser.AttemptItems | src/NArgs/Parsers/CommandLineParser.cs:231-355 | the body of the `try`: failed tokens reported, or else the tokens bound and the required options checked |
| Parser.CommandLineParser.BindAndCheckItems | src/NArgs/Parsers/CommandLineParser.cs:247-355 | the binding loop followed by the required check |
| Parser.CommandLineParser.BindItems | src/NArgs/Parsers/CommandLineParser.cs:247-347 | the loop gives exactly the errors, fields and exception of the recursive pass |
| Parser.CommandLineParser.TakeTurnFrom | src/NArgs/Parsers/CommandLineParser.cs:249-347 | one turn of the loop keeps to the pass the loop started |
| Parser.CommandLineParser.TakeTurn | src/NArgs/Parsers/CommandLineParser.cs:251-346 | one turn does what the turn function says, on the service and on the result |
| Parser.CommandLineParser.BindOption | src/NArgs/Parsers/CommandLineParser.cs:263-320 | the turn for an option token does what the option's decision says |
| Parser.CommandLineParser.BindOptionToNext | src/NArgs/Parsers/CommandLineParser.cs:266-302 | the same for an option token without an inline value |
| Parser.CommandLineParser.BindOptionInline | src/NArgs/Parsers/CommandLineParser.cs:303-319 | the same for an option token with an inline value; it consumes only the token itself |
| Parser.CommandLineParser.BindParameter | src/NArgs/Parsers/CommandLineParser.cs:321-346 | the turn for a token that names no option does what the parameter's decision says |
| Parser.CommandLineParser.Report | src/NArgs/Parsers/CommandLineParser.cs:257-340 | building the error throws and changes nothing, or the error is appended |
| Parser.CommandLineParser.CheckRequiredProperties | src/NArgs/Parsers/CommandLineParser.cs:387-400 | a fresh result holding one `RequiredOptionValue` error per unassigned required option name, failing exactly when there is one, or the exception that building one throws |
| Parser.CommandLineParser.AddRequiredErrors | src/NArgs/Parsers/CommandLineParser.cs:349-355 | the errors of that check are appended to the result when it failed |
| Parser.CommandLineParser.Finish | src/NArgs/Parsers/CommandLineParser.cs:357-368 | the catch clauses: the result gets the one error for the exception, or that error's construction escapes |
| Usage.WithItem | src/NArgs/Models/AttributeUsageInfo.cs:30-41 | the item is appended unless the list already holds an equal one: the old list is kept as a prefix, the item is in the result, and a list without repetitions stays so |
| Usage.MaxLengthIsMaximum | src/NArgs/Models/OptionUsageInfo.cs:51-54 | the recorded longest name length is no smaller than any item's and is the length of some item when there is one |
| Usage.MaxLengthWithItem | src/NArgs/Models/OptionUsageInfo.cs:51-54 | adding an item raises the longest length to the item's length when that is longer and otherwise keeps it |
| Usage.Shown | src/NArgs/Models/ParameterUsageInfo.cs:36-37 | a blank name or description is shown as `n/a`, any other one as it is; never empty |
| Usage.JoinedSnoc | src/NArgs/Models/OptionUsageInfo.cs:76-96 | one more name is joined behind ` \| `, or alone when nothing came before |
| Usage.JoinedEmpty | src/NArgs/Models/OptionUsageInfo.cs:78-89 | names that are never empty join to the empty string only when there are none |
| Usage.AppendNameJoined | src/NArgs/Models/OptionUsageInfo.cs:76-96 | one step of building the combined name joins the indicated name when it is present and adds nothing otherwise |
| Usage.CombinedNameIsJoined | src/NArgs/Models/OptionUsageInfo.cs:68-96 | the combined name is the present names, each behind its indicator, joined by ` \| `; it is empty exactly when no name is present |
| Usage.NameLength | src/NArgs/Models/OptionUsageInfo.cs:24-49 | the length `AddItem` accumulates name by name is exactly the length of the combined name the detail text shows, and 0 exactly when no name is present |
| Usage.OptionDescriptionsAligned | src/NArgs/Models/OptionUsageInfo.cs:98-102 | in the line of every option whose combined name fits the name column, the name starts at column 4 and the description at column `MaxNameLength + 8` |
| Usage.PaddedName | src/NArgs/Models/OptionUsageInfo.cs:98-100 | a name left-aligned in a column no narrower than it fills the column and starts it |
| Usage.ColumnLayout | src/NArgs/Models/ParameterUsageInfo.cs:34-38 | in a line made of a lead, a padded name, a gap and the rest, the name starts after the lead and the rest after the gap |
| Usage.SyntaxSeparator | src/NArgs/Models/OptionUsageInfo.cs:123-149 | what follows an option in the syntax text is never empty |
| Usage.OptionSyntaxPrefixNext | src/NArgs/Models/OptionUsageInfo.cs:121-152 | the syntax text of one more option is the text so far, that option's syntax name and its separator |
| Usage.OptionalOptionsBracketed | src/NArgs/Models/OptionUsageInfo.cs:126-140 | an optional option is shown in brackets; a required one shows `/Name` bare, or nothing when it has no name |
| Usage.OptionSyntaxGrows | src/NArgs/Models/OptionUsageInfo.cs:121-152 | every option adds at least its separator, so the syntax text is at least as long as the number of options |
| Usage.OptionSyntaxEndsWithSpace | src/NArgs/Models/OptionUsageInfo.cs:146-151 | with any option the syntax text is not empty and ends with a single space, never a line break |
| Usage.LineBreakEveryFourthOption | src/NArgs/Models/OptionUsageInfo.cs:123-149 | after the k-th option the text breaks the line exactly when k is a multiple of four and more options follow |
| Usage.OptionUsageInfo.constructor | src/NArgs/Models/AttributeUsageInfo.cs:24-28 | no items and longest name length 0 |
| Usage.OptionUsageInfo.AddItem | src/NArgs/Models/OptionUsageInfo.cs:15-55 | null throws and changes nothing; otherwise the option is listed once and the longest length becomes the larger of the old one and the option's combined name length; the list never repeats and the recorded length stays the longest |
| Usage.OptionUsageInfo.GetUsageDetailText | src/NArgs/Models/OptionUsageInfo.cs:58-111 | the loop builds exactly the detail text: nothing without options, otherwise the heading and one aligned line per option in the order added |
| Usage.OptionUsageInfo.GetUsageSyntaxText | src/NArgs/Models/OptionUsageInfo.cs:114-160 | the loop builds exactly the syntax text: each option's syntax name and separator, four to a line |
| Usage.EntryTable | src/NArgs/Models/ParameterUsageInfo.cs:24-47 | the loop shared by the parameter and command tables builds exactly their detail text |
| Usage.EntryDescriptionsAligned | src/NArgs/Models/ParameterUsageInfo.cs:34-38 | for every entry whose shown name fits the name column, the name starts at column 4 and the description (or `n/a`) at column `MaxNameLength + 9` |
| Usage.ItemFits | src/NArgs/Models/ParameterUsageInfo.cs:17-20 | every listed item's name length is within the recorded longest length |
| Usage.ParameterEntries | src/NArgs/Models/ParameterUsageInfo.cs:32-39 | one table entry per parameter, in order, with its name and description |
| Usage.ParameterSyntaxLength | src/NArgs/Models/ParameterUsageInfo.cs:56-59 | each parameter contributes `<name> `, so the syntax text is as long as the shown names plus three characters each, at least four per parameter |
| Usage.ParameterSyntaxEnds | src/NArgs/Models/ParameterUsageInfo.cs:56-59 | the syntax text starts with `<` and the first parameter's shown name and ends with the last one's followed by `> ` |
| Usage.ParameterUsageInfo.constructor | src/NArgs/Models/AttributeUsageInfo.cs:24-28 | no items and longest name length 0 |
| Usage.ParameterUsageInfo.AddItem | src/NArgs/Models/ParameterUsageInfo.cs:13-21 | null throws (in the base class) and changes nothing; otherwise the parameter is listed once and the longest length grows to its name's length when that is longer |
| Usage.ParameterUsageInfo.GetUsageDetailText | src/NArgs/Models/ParameterUsageInfo.cs:24-47 | the parameters' table: nothing without parameters, otherwise the heading and one aligned line per parameter |
| Usage.ParameterUsageInfo.GetUsageSyntaxText | src/NArgs/Models/ParameterUsageInfo.cs:50-67 | `<name> ` for every parameter in the order added, `n/a` for a blank name |
| Usage.CommandEntries | src/NArgs/Models/CommandUsageInfo.cs:36-43 | one table entry per command, in order, with its name and description |
| Usage.CommandUsageInfo.constructor | src/NArgs/Models/AttributeUsageInfo.cs:24-28 | no items and longest name length 0 |
| Usage.CommandUsageInfo.AddItem | src/NArgs/Models/CommandUsageInfo.cs:12-25 | null throws and changes nothing; otherwise the command is listed once and the longest length grows to its name's length when that is longer |
| Usage.CommandUsageInfo.GetUsageDetailText | src/NArgs/Models/CommandUsageInfo.cs:28-51 | the commands' table: nothing without commands, otherwise the heading and one aligned line per command |
| Usage.CommandUsageInfo.GetUsageSyntaxText | src/NArgs/Models/CommandUsageInfo.cs:54-57 | the placeholder ` <command> ` exactly when some command is listed, nothing otherwise |
| Text.Trim | src/NArgs/Tokenizers/ConsoleArgumentTokenizer.cs:68 | the piece of the text left between a leading and a trailing run of characters of the set, both runs as long as possible: a non-empty result neither starts nor ends with a character of the set |
| Text.TrimKeeps | src/NArgs/Tokenizers/ConsoleArgumentTokenizer.cs:164 | a text whose ends are not trimmed characters is unchanged by `Trim` |
| Text.TrimEmptyIff | src/NArgs/Tokenizers/ConsoleArgumentTokenizer.cs:68 | trimming empties a text exactly when all its characters are trimmed ones |
| Text.BlankIffTrimmedEmpty | src/NArgs/Tokenizers/ConsoleArgumentTokenizer.cs:68-70 | `IsNullOrWhiteSpace` holds exactly when `Trim()` leaves nothing |
| Text.TrimStartAny | src/NArgs/Tokenizers/ConsoleArgumentTokenizer.cs:171-176 | `TrimStart(string[])`: a suffix of the text that starts with none of the non-empty prefixes |
| Text.TrimStartAnyRemovesRun | src/NArgs/Tokenizers/ConsoleArgumentTokenizer.cs:171-176 | what `TrimStart(string[])` removes is a run of whole non-empty prefixes |
| Text.TrimEndAny | src/NArgs/Parsers/CommandLineParser.cs:426 | the trailing half of `Trim(string[])`: a prefix of the text that ends with none of the non-empty suffixes |
| Text.TrimEndAnyRemovesRun | src/NArgs/Parsers/CommandLineParser.cs:426 | what the trailing half of `Trim(string[])` removes is a run of whole non-empty suffixes |
| Text.IndexOfFrom | src/NArgs/Tokenizers/ConsoleArgumentTokenizer.cs:114 | `IndexOf`: -1 exactly when the text does not occur, otherwise the first position where it does |
| Text.Split | src/NArgs/Misc/FileSystemInfo.cs:27-66 | `Split(char)`: at least one piece, none containing the separator, and joined back with it they give the text |
| Text.PadRight | src/NArgs/Models/OptionUsageInfo.cs:98-100 | a negative format width left-aligns: the text, then spaces up to the width |
| Text.PadLeft | src/NArgs/Models/OptionUsageInfo.cs:142-145 | a positive format width right-aligns: spaces up to the width, then the text |
| Text.ParseIntegerOfText | src/NArgs/Services/DefaultPropertyService.cs:482-516 | the decimal text of a number, with or without a minus sign, parses back to that number |

## Left out

- Reflection (`GetCustomAttributes`, `PropertyInfo.GetValue`/`SetValue`, the property-info extensions): replaced by descriptor sequences and a value map.
- .NET parsing of floating-point numbers, dates and URIs: these are uninterpreted `Values.Platform` functions. The checks call `TryParse` without a format provider, so they read the text in the thread's current culture; the conversions call `Parse` with the `Culture` of the parse options. The model folds both cultures into the oracles: `tryParse` stands for the current-culture check and `parses` for the conversion in the options' culture. It does not claim that the two agree. Integer texts are read as plain decimal numbers with an optional sign, in the check and the conversion alike, so culture-specific signs and digit groups are not modelled.
- `File.Exists`, `Directory.Exists`, the directory separator and the invalid path and file-name character sets are parameters (`Values.Platform`, `FileSystem.PathRules`); no disk is read.
- The resource-manager lookup of messages: the English texts of the resources are constants in `Resources`.
- `SecureStringExtensions`: a wrapper over `SecureString` and marshalling interop.
- `CommandLineParser.GetUsage`: it depends on external string collections whose key order is unspecified. The usage builders it calls are modelled.
- `ParseArguments(string)`: the string-splitting `Tokenize(string)` it calls is not part of this model.
- `ParseArguments(string[])`: the tokenizer returns `CommandArgsItem` values while `ParseItems` takes `TokenizeItem` values, and no code converts one into the other; the two halves are modelled separately.
- The list helpers of the external `NExtents` package (`StartsWith` over a list, `TrimStart` with several prefixes, `ToLowerString`) are defined here as "starts with any", "remove leading prefixes, repeatedly" and ASCII lower-casing. This is an assumption about that package.
- Case folding is ASCII only; culture-aware upper- and lower-casing is not modelled.
- The alignment widths that the usage texts build with `Convert.ToString` are plain decimal numbers; culture formatting is not modelled.
- Command dispatch, help-option events and command execution: no parser in the code implements them.
- The `TokenizeState` and `ParseState` enumerations: no code uses them.
- ConfigurationValidation.ValidateParameterOrdinals: the in-place `Sort` of the ordinal list is not modelled. The check is stated as "the smallest ordinal is 1 and the largest is the count", which is what the sorted list's first and last entries give.
- Usage.ParameterUsageInfo.GetUsageSyntaxText: takes no indentation argument, since the source ignores it.
- Usage.CommandUsageInfo.GetUsageSyntaxText: takes no indentation argument, since the source ignores it.
- DefaultService.DefaultPropertyService: `GetProperties` and `GetGlobalProperties` are not members; they are the descriptor sequences themselves (`Properties()` and `configuration`). The other lookups of the class are modelled as members.
- Tokenizer.ItemCountBounds: bounds the number of items between half and all of the non-blank arguments (counting a pending one); it does not state which argument becomes which item's name or value.
- Attribute families: the source has two families of attributes. `Option`, `Parameter` and `Command` are read by `CommandLineParser` and `PropertyService`. `OptionAttribute`, `ParameterAttribute` and `CommandAttribute` are read by `DefaultPropertyService` and its validation. The model maps both onto one `Schema.Property` descriptor. So a configuration decorated for one service and invisible to the other is not captured: in the model both services see the same options, parameters and commands.
- Service.PropertyService.SetCommandPropertyValue: the command property's object is assumed to be present. A command property whose value is null is not modelled; there the source throws `TargetException` from `SetValue` (src/NArgs/Services/PropertyService.cs:233).
- Service.PropertyService.GetCommandProperties: the command property's object is assumed to be present. A command property whose value is null is not modelled; there the source throws `NullReferenceException` from `GetProperties` (src/NArgs/Services/PropertyService.cs:85).
- Values.IsValidValue: a `Char` value is valid when it is one character, and a character here is one Unicode scalar value. .NET counts UTF-16 code units, so a character outside the Basic Multilingual Plane is valid in the model and invalid in the source.
- Values.Assign: a `Char` value converts when it is one Unicode scalar value. .NET's `char.Parse` needs one UTF-16 code unit, so a character outside the Basic Multilingual Plane converts in the model and throws in the source.
- Tokenizer.ConsoleArgumentTokenizer.Tokenize: the arguments are strings, never null. A null element of the argument array, on which the source throws `NullReferenceException` from `Trim` (src/NArgs/Tokenizers/ConsoleArgumentTokenizer.cs:68), is not modelled.
- Values.Assign: the `FileInfo` and `DirectoryInfo` constructors are treated as never throwing. .NET throws `ArgumentException` for a path it rejects outright, such as one holding a NUL character (src/NArgs/Services/DefaultPropertyService.cs:354, 358).
