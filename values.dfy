/** The value table both property services share: which command-line texts
  * are valid for a property (`IsValidValue`) and what `SetPropertyValue`
  * stores for them. The .NET parsers for dates and floating-point numbers,
  * URI checks, the file system and the custom handlers' delegates are
  * parameters; integer and character parsing are written out. */
module Values {
  import opened Wrappers
  import Text
  import Options
  import FileSystem
  import Exceptions
  import Resources
  import opened Schema

  /** A custom data-type getter: builds the field's object from (property
    * name, value), or throws; the object may be null. */
  type Getter = (string, string) -> Result<Option<CustomObject>, Exceptions.Exception>

  /** A custom data-type validator: judges (property name, value, required). */
  type Validator = (string, string, bool) -> bool

  /** A registered custom data-type handler. */
  datatype Handler = Handler(getter: Getter, validator: Validator)

  /** What the value table asks of the runtime and the machine. */
  datatype Platform = Platform(
    /** The directory separator and the invalid path and file-name characters. */
    pathRules: FileSystem.PathRules,
    fileExists: string -> bool,
    directoryExists: string -> bool,
    /** `TryParse` of `DateTime`, `Double` and `Single` with the current culture. */
    tryParse: (TypeTag, string) -> bool,
    /** Whether `Parse(value, culture)` of those types succeeds. */
    parses: (TypeTag, Options.Culture, string) -> bool,
    /** `Uri.IsWellFormedUriString(value, UriKind.RelativeOrAbsolute)`. */
    uriWellFormed: string -> bool,
    /** Whether `new Uri(value)` succeeds. */
    uriCreates: string -> bool,
    /** The message of the exception a failing conversion throws. */
    failureMessage: (TypeTag, string) -> string)

  // ---------------------------------------------------------------------
  // Boolean literals, compared ignoring case

  const TrueLiterals: seq<string> := ["y", "yes", "true", "on", "1"]
  const FalseLiterals: seq<string> := ["n", "no", "false", "off", "0"]

  predicate InLiterals(value: Option<string>, literals: seq<string>)
  {
    value.Some? && exists i :: 0 <= i < |literals| && Text.EqualsIgnoreCase(value.value, literals[i])
  }

  /** `IsBooleanTrueValue`: null is no literal. */
  predicate IsBooleanTrueValue(value: Option<string>)
  {
    InLiterals(value, TrueLiterals)
  }

  /** `IsBooleanFalseValue`. */
  predicate IsBooleanFalseValue(value: Option<string>)
  {
    InLiterals(value, FalseLiterals)
  }

  predicate NoUpperCase(s: string)
  {
    forall i :: 0 <= i < |s| ==> !('A' <= s[i] <= 'Z')
  }

  lemma LowerKeepsLowerCase(s: string)
    requires NoUpperCase(s)
    ensures Text.Lower(s) == s
  {
  }

  /** A text is one of a list of lower-case literals, ignoring case, exactly
    * when its lower-case form is one of them. */
  lemma InLiteralsIff(s: string, literals: seq<string>)
    requires forall i :: 0 <= i < |literals| ==> NoUpperCase(literals[i])
    ensures InLiterals(Some(s), literals) <==> Text.Lower(s) in literals
  {
    if InLiterals(Some(s), literals) {
      var i :| 0 <= i < |literals| && Text.EqualsIgnoreCase(s, literals[i]);
      LowerKeepsLowerCase(literals[i]);
    }
    if Text.Lower(s) in literals {
      var i :| 0 <= i < |literals| && literals[i] == Text.Lower(s);
      LowerKeepsLowerCase(literals[i]);
      assert Text.EqualsIgnoreCase(s, literals[i]);
    }
  }

  /** No text is both a true and a false literal. */
  lemma BooleanLiteralsDisjoint(value: Option<string>)
    ensures !(IsBooleanTrueValue(value) && IsBooleanFalseValue(value))
  {
    if value.Some? {
      forall i | 0 <= i < |TrueLiterals| ensures NoUpperCase(TrueLiterals[i]) {
      }
      forall i | 0 <= i < |FalseLiterals| ensures NoUpperCase(FalseLiterals[i]) {
      }
      InLiteralsIff(value.value, TrueLiterals);
      InLiteralsIff(value.value, FalseLiterals);
      var l := Text.Lower(value.value);
      if l in TrueLiterals {
        assert l[0] in {'y', 't', 'o', '1'};
      }
    }
  }

  /** Case does not matter: `YES`, `On` and `TRUE` are true literals. */
  lemma UpperCaseLiteralsAccepted()
    ensures IsBooleanTrueValue(Some("YES")) && IsBooleanTrueValue(Some("On"))
    ensures IsBooleanFalseValue(Some("OFF")) && !IsBooleanTrueValue(Some("Nein"))
  {
    assert Text.EqualsIgnoreCase("YES", TrueLiterals[1]);
    assert Text.EqualsIgnoreCase("On", TrueLiterals[3]);
    assert Text.EqualsIgnoreCase("OFF", FalseLiterals[3]);
    forall i | 0 <= i < |TrueLiterals| ensures NoUpperCase(TrueLiterals[i]) {
    }
    InLiteralsIff("Nein", TrueLiterals);
    assert Text.Lower("Nein")[0] == 'n';
  }

  // ---------------------------------------------------------------------
  // Integer types

  predicate IsIntegerType(t: TypeTag)
  {
    t.TInt16? || t.TInt32? || t.TInt64? || t.TUInt16? || t.TUInt32? || t.TUInt64?
  }

  /** The smallest and largest value of an integer type. */
  function IntegerBounds(t: TypeTag): (b: (int, int))
    requires IsIntegerType(t)
  {
    match t
    case TInt16 => (-0x8000, 0x7FFF)
    case TInt32 => (-0x8000_0000, 0x7FFF_FFFF)
    case TInt64 => (-0x8000_0000_0000_0000, 0x7FFF_FFFF_FFFF_FFFF)
    case TUInt16 => (0, 0xFFFF)
    case TUInt32 => (0, 0xFFFF_FFFF)
    case TUInt64 => (0, 0xFFFF_FFFF_FFFF_FFFF)
  }

  /** `TryParse` of an integer type: the text is an integer in its range. */
  predicate IsIntegerText(t: TypeTag, value: string)
    requires IsIntegerType(t)
  {
    var n := Text.ParseInteger(value);
    n.Some? && IntegerBounds(t).0 <= n.value <= IntegerBounds(t).1
  }

  // ---------------------------------------------------------------------
  // IsValidValue

  /** `IsValidValue` for a non-blank value. */
  function IsValidText(platform: Platform, handler: Option<Handler>, prop: Property, value: string): bool
  {
    if IsIntegerType(prop.typ) then IsIntegerText(prop.typ, value)
    else match prop.typ
    case TChar => |value| == 1
    case TString => true
    case TBoolean => IsBooleanTrueValue(Some(value)) || IsBooleanFalseValue(Some(value))
    case TDateTime => platform.tryParse(TDateTime, value)
    case TDirectoryInfo =>
      FileSystem.ValidDirectoryName(value, platform.pathRules)
      && (IsRequired(prop) ==> platform.directoryExists(value))
    case TDouble => platform.tryParse(TDouble, value)
    case TFileInfo =>
      FileSystem.ValidFileName(value, platform.pathRules)
      && (IsRequired(prop) ==> platform.fileExists(value))
    case TSingle => platform.tryParse(TSingle, value)
    case TUri => platform.uriWellFormed(value)
    case TCustom(_) =>
      // every custom type is registered and looked up under the same key
      handler.Some? && handler.value.validator(prop.name, value, IsRequired(prop))
    case _ => false // the integer types, handled above
  }

  /** `IsValidValue(prop, value)` once `prop` is known not to be null: a null
    * or blank value suits a Boolean only. */
  function IsValidValue(platform: Platform, handler: Option<Handler>, prop: Property, value: Option<string>): (r: bool)
    ensures Text.IsNullOrWhiteSpace(value) ==> (r <==> prop.typ == TBoolean)
    ensures !Text.IsNullOrWhiteSpace(value) && prop.typ == TString ==> r
  {
    if Text.IsNullOrWhiteSpace(value) then prop.typ == TBoolean
    else IsValidText(platform, handler, prop, value.value)
  }

  /** A Boolean takes a non-blank text exactly when it is one of the literals. */
  lemma BooleanValidIffLiteral(platform: Platform, handler: Option<Handler>, prop: Property, value: string)
    requires prop.typ == TBoolean && !Text.IsBlank(value)
    ensures IsValidValue(platform, handler, prop, Some(value))
            <==> Text.Lower(value) in TrueLiterals || Text.Lower(value) in FalseLiterals
  {
    forall i | 0 <= i < |TrueLiterals| ensures NoUpperCase(TrueLiterals[i]) {
    }
    forall i | 0 <= i < |FalseLiterals| ensures NoUpperCase(FalseLiterals[i]) {
    }
    InLiteralsIff(value, TrueLiterals);
    InLiteralsIff(value, FalseLiterals);
  }

  /** A file or directory must exist only when its option is required; an
    * optional one needs a well-formed name alone. */
  lemma ExistenceOnlyWhenRequired(platform: Platform, handler: Option<Handler>, prop: Property, value: string)
    requires !Text.IsBlank(value) && !IsRequired(prop)
    ensures prop.typ == TFileInfo ==>
              IsValidValue(platform, handler, prop, Some(value)) == FileSystem.ValidFileName(value, platform.pathRules)
    ensures prop.typ == TDirectoryInfo ==>
              IsValidValue(platform, handler, prop, Some(value))
              == FileSystem.ValidDirectoryName(value, platform.pathRules)
  {
  }

  /** Without a registered handler no value suits a custom type. */
  lemma CustomTypeNeedsHandler(platform: Platform, prop: Property, value: Option<string>)
    requires prop.typ.TCustom?
    ensures !IsValidValue(platform, None, prop, value)
  {
  }

  /** Integer types accept exactly the texts of the numbers in their range. */
  lemma {:induction false} IntegerRangeChecked(platform: Platform, handler: Option<Handler>, prop: Property, n: nat,
                                               negative: bool)
    requires IsIntegerType(prop.typ)
    ensures var text := if negative then "-" + Text.NatToString(n) else Text.NatToString(n);
            var v: int := if negative then -(n as int) else n as int;
            IsValidValue(platform, handler, prop, Some(text))
            <==> IntegerBounds(prop.typ).0 <= v <= IntegerBounds(prop.typ).1
  {
    var text := if negative then "-" + Text.NatToString(n) else Text.NatToString(n);
    assert !Text.IsBlank(text) by {
      assert negative ==> text[0] == '-';
      assert !negative ==> Text.IsDigit(text[0]);
      assert !Text.IsWhiteSpace(text[0]);
    }
    IntegerValidity(platform, handler, prop, text);
    Text.ParseIntegerOfText(n, negative);
  }

  lemma IntegerValidity(platform: Platform, handler: Option<Handler>, prop: Property, text: string)
    requires IsIntegerType(prop.typ) && !Text.IsBlank(text)
    ensures IsValidValue(platform, handler, prop, Some(text)) == IsIntegerText(prop.typ, text)
  {
  }

  /** The boundaries: `Int16` takes 32767 but not 32768, `UInt16` refuses
    * 65536 and `UInt64` refuses -1. */
  lemma IntegerBoundaries(platform: Platform, handler: Option<Handler>, prop: Property)
    ensures prop.typ == TInt16 ==>
              IsValidValue(platform, handler, prop, Some(Text.NatToString(32767)))
              && !IsValidValue(platform, handler, prop, Some(Text.NatToString(32768)))
    ensures prop.typ == TUInt16 ==> !IsValidValue(platform, handler, prop, Some(Text.NatToString(65536)))
    ensures prop.typ == TUInt64 ==> !IsValidValue(platform, handler, prop, Some("-" + Text.NatToString(1)))
  {
    if IsIntegerType(prop.typ) {
      IntegerRangeChecked(platform, handler, prop, 32767, false);
      IntegerRangeChecked(platform, handler, prop, 32768, false);
      IntegerRangeChecked(platform, handler, prop, 65536, false);
      IntegerRangeChecked(platform, handler, prop, 1, true);
    }
  }

  // ---------------------------------------------------------------------
  // What SetPropertyValue stores

  /** The conversion of a non-blank value: `Some(v)` to store `v`, `None` to
    * leave the field as it is (a Boolean text that is no literal), or the
    * exception the conversion throws. Files and directories are created from
    * any non-blank path. */
  function Convert(platform: Platform, culture: Options.Culture, handler: Option<Handler>, prop: Property,
                   value: string): Result<Option<Value>, Exceptions.Exception>
  {
    var fail := Err(Exceptions.Other(platform.failureMessage(prop.typ, value)));
    if IsIntegerType(prop.typ) then
      if IsIntegerText(prop.typ, value) then Ok(Some(IntValue(prop.typ, Text.ParseInteger(value).value))) else fail
    else match prop.typ
    case TString => Ok(Some(StringValue(value)))
    case TBoolean =>
      if IsBooleanTrueValue(Some(value)) then Ok(Some(BoolValue(true)))
      else if IsBooleanFalseValue(Some(value)) then Ok(Some(BoolValue(false)))
      else Ok(None)
    case TChar => if |value| == 1 then Ok(Some(CharValue(value[0]))) else fail
    case TDateTime => if platform.parses(TDateTime, culture, value) then Ok(Some(ParsedValue(TDateTime, culture, value))) else fail
    case TDouble => if platform.parses(TDouble, culture, value) then Ok(Some(ParsedValue(TDouble, culture, value))) else fail
    case TSingle => if platform.parses(TSingle, culture, value) then Ok(Some(ParsedValue(TSingle, culture, value))) else fail
    case TFileInfo => Ok(Some(FileValue(value)))
    case TDirectoryInfo => Ok(Some(DirectoryValue(value)))
    case TUri => if platform.uriCreates(value) then Ok(Some(UriValue(value))) else fail
    case TCustom(_) =>
      if handler.None? then Ok(Some(CustomValue(None)))
      else
        (match handler.value.getter(prop.name, value)
         case Err(e) => Err(e)
         case Ok(obj) => Ok(Some(CustomValue(obj))))
    case _ => fail // the integer types, handled above
  }

  /** What `SetPropertyValue(prop, value)` stores once `prop` is known not to
    * be null: a null or blank value sets a Boolean to true and is refused for
    * any other type, naming the property. */
  function Assign(platform: Platform, culture: Options.Culture, handler: Option<Handler>, prop: Property,
                  value: Option<string>): (r: Result<Option<Value>, Exceptions.Exception>)
    ensures Text.IsNullOrWhiteSpace(value) && prop.typ == TBoolean ==> r == Ok(Some(BoolValue(true)))
    ensures Text.IsNullOrWhiteSpace(value) && prop.typ != TBoolean ==>
              r == Err(Exceptions.Argument(Resources.PropertyWithoutValueRequiresTypeBoolean, prop.name))
  {
    if Text.IsNullOrWhiteSpace(value) then
      if prop.typ == TBoolean then Ok(Some(BoolValue(true)))
      else Err(Exceptions.Argument(Resources.PropertyWithoutValueRequiresTypeBoolean, prop.name))
    else Convert(platform, culture, handler, prop, value.value)
  }

  /** The field map after storing the outcome of an assignment. */
  function Store(values: map<FieldKey, Value>, key: FieldKey, v: Option<Value>): map<FieldKey, Value>
  {
    if v.Some? then values[key := v.value] else values
  }

  /** A field never written still holds its initial value. */
  function Read(values: map<FieldKey, Value>, key: FieldKey): Value
  {
    if key in values then values[key] else Initial
  }

  /** Storing a value and reading it back gives that value, and the other
    * fields keep theirs. */
  lemma StoreThenRead(values: map<FieldKey, Value>, key: FieldKey, v: Value, other: FieldKey)
    ensures Read(Store(values, key, Some(v)), key) == v
    ensures other != key ==> Read(Store(values, key, Some(v)), other) == Read(values, other)
  {
  }

  /** A custom-typed field takes what the registered getter builds, and
    * null when no handler is registered; a getter that throws makes the
    * assignment throw the same exception. */
  lemma CustomValueFromGetter(platform: Platform, culture: Options.Culture, handler: Option<Handler>, prop: Property,
                              value: string)
    requires prop.typ.TCustom? && !Text.IsBlank(value)
    ensures handler.None? ==> Assign(platform, culture, handler, prop, Some(value)) == Ok(Some(CustomValue(None)))
    ensures handler.Some? && handler.value.getter(prop.name, value).Ok? ==>
              Assign(platform, culture, handler, prop, Some(value))
              == Ok(Some(CustomValue(handler.value.getter(prop.name, value).value)))
    ensures handler.Some? && handler.value.getter(prop.name, value).Err? ==>
              Assign(platform, culture, handler, prop, Some(value)) == Err(handler.value.getter(prop.name, value).error)
  {
  }

  /** For every type whose validation and conversion use the same rules, a
    * value that `IsValidValue` accepts converts without throwing, as long as
    * a custom getter does not throw. Dates, floating-point numbers and URIs
    * are checked and converted by different runtime calls and are left out. */
  lemma ValidValueAssigns(platform: Platform, culture: Options.Culture, handler: Option<Handler>, prop: Property,
                          value: Option<string>)
    requires !(prop.typ.TDateTime? || prop.typ.TDouble? || prop.typ.TSingle? || prop.typ.TUri?)
    requires IsValidValue(platform, handler, prop, value)
    requires prop.typ.TCustom? && handler.Some? && value.Some? ==> handler.value.getter(prop.name, value.value).Ok?
    ensures Assign(platform, culture, handler, prop, value).Ok?
  {
  }

  /** A valid integer text is stored as the number it spells, in range. */
  lemma ValidIntegerStored(platform: Platform, culture: Options.Culture, handler: Option<Handler>, prop: Property,
                           value: string)
    requires IsIntegerType(prop.typ) && !Text.IsBlank(value)
    requires IsValidValue(platform, handler, prop, Some(value))
    ensures var r := Assign(platform, culture, handler, prop, Some(value));
            && r.Ok? && r.value.Some? && r.value.value.IntValue?
            && Text.ParseInteger(value) == Some(r.value.value.n)
            && IntegerBounds(prop.typ).0 <= r.value.value.n <= IntegerBounds(prop.typ).1
  {
  }

  /** A non-blank Boolean text sets true or false by the literal sets and
    * leaves the field alone when it is in neither. */
  lemma BooleanAssignment(platform: Platform, culture: Options.Culture, handler: Option<Handler>, prop: Property,
                          value: string)
    requires prop.typ == TBoolean && !Text.IsBlank(value)
    ensures var r := Assign(platform, culture, handler, prop, Some(value));
            && r.Ok?
            && (IsBooleanTrueValue(Some(value)) ==> r.value == Some(BoolValue(true)))
            && (IsBooleanFalseValue(Some(value)) ==> r.value == Some(BoolValue(false)))
            && (r.value.None? <==> !IsValidValue(platform, handler, prop, Some(value)))
  {
    BooleanLiteralsDisjoint(Some(value));
  }

  /** A URI that is well formed as a relative reference passes validation,
    * yet `new Uri` refuses it when it is not absolute: the assignment throws. */
  lemma RelativeUriPassesButThrows(platform: Platform, culture: Options.Culture, handler: Option<Handler>,
                                   prop: Property, value: string)
    requires prop.typ == TUri && !Text.IsBlank(value)
    requires platform.uriWellFormed(value) && !platform.uriCreates(value)
    ensures IsValidValue(platform, handler, prop, Some(value))
    ensures Assign(platform, culture, handler, prop, Some(value)).Err?
  {
  }

  // ---------------------------------------------------------------------
  // Registering the custom data-type handler

  /** The message `Dictionary.Add` throws for a key already present: every
    * handler is registered under the key `type.GetType()`, which is the
    * runtime type `System.RuntimeType` whatever the type. */
  const DuplicateKeyMessage := "An item with the same key has already been added. Key: System.RuntimeType"

  /** `AddCustomDataTypeHandler` on the handler slot: null arguments throw in
    * parameter order, and since all types share one key only the first
    * registration succeeds. */
  function Register(current: Option<Handler>, typ: Option<TypeTag>,
                    getter: Option<Getter>, validator: Option<Validator>): (r: Result<Handler, Exceptions.Exception>)
    ensures r.Ok? <==> typ.Some? && getter.Some? && validator.Some? && current.None?
    ensures r.Ok? ==> r.value == Handler(getter.value, validator.value)
    ensures typ.None? ==> r == Err(Exceptions.ArgumentNull("type"))
    ensures typ.Some? && getter.None? ==> r == Err(Exceptions.ArgumentNull("getter"))
    ensures typ.Some? && getter.Some? && validator.None? ==> r == Err(Exceptions.ArgumentNull("validator"))
    ensures typ.Some? && getter.Some? && validator.Some? && current.Some? ==>
              r == Err(Exceptions.Argument(DuplicateKeyMessage, ""))
  {
    if typ.None? then Err(Exceptions.ArgumentNull("type"))
    else if getter.None? then Err(Exceptions.ArgumentNull("getter"))
    else if validator.None? then Err(Exceptions.ArgumentNull("validator"))
    else if current.Some? then Err(Exceptions.Argument(DuplicateKeyMessage, ""))
    else Ok(Handler(getter.value, validator.value))
  }

  /** A handler registered for one custom type judges every custom type:
    * two custom-typed properties with the same name and requirement are
    * judged alike whatever their types. */
  lemma OneHandlerForAllCustomTypes(platform: Platform, h: Handler, p: Property, q: Property, value: string)
    requires p.typ.TCustom? && q.typ.TCustom? && p.name == q.name && IsRequired(p) == IsRequired(q)
    requires !Text.IsBlank(value)
    ensures IsValidValue(platform, Some(h), p, Some(value)) == IsValidValue(platform, Some(h), q, Some(value))
    ensures IsValidValue(platform, Some(h), p, Some(value)) == h.validator(p.name, value, IsRequired(p))
  {
  }
}
