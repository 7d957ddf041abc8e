/** The configuration object a property service binds to, described without
  * reflection. Each public property of the configuration class is a
  * descriptor holding its name, its type and the option, parameter and
  * command attributes it carries, in declaration order; a command property
  * lists the properties of its own type. The field values live in a map
  * keyed by the command property they belong to and the property name. */
module Schema {
  import opened Wrappers
  import Text
  import Options

  /** The property types the value table knows, and any other type by its
    * full name (`System.Security.SecureString` among them: it has a full-name
    * constant but no case of its own, so it is handled as a custom type). */
  datatype TypeTag =
    | TBoolean | TChar | TDateTime | TDirectoryInfo | TDouble | TFileInfo
    | TInt16 | TInt32 | TInt64 | TSingle | TString | TUInt16 | TUInt32
    | TUInt64 | TUri
    | TCustom(fullName: string)

  /** `PropertyType.FullName`, which the value table switches on. */
  function FullName(t: TypeTag): string
  {
    match t
    case TBoolean => "System.Boolean"
    case TChar => "System.Char"
    case TDateTime => "System.DateTime"
    case TDirectoryInfo => "System.IO.DirectoryInfo"
    case TDouble => "System.Double"
    case TFileInfo => "System.IO.FileInfo"
    case TInt16 => "System.Int16"
    case TInt32 => "System.Int32"
    case TInt64 => "System.Int64"
    case TSingle => "System.Single"
    case TString => "System.String"
    case TUInt16 => "System.UInt16"
    case TUInt32 => "System.UInt32"
    case TUInt64 => "System.UInt64"
    case TUri => "System.Uri"
    case TCustom(n) => n
  }

  /** An option attribute. Every name may be null; a new attribute has empty
    * names and description, display name `option` and is not required. */
  datatype OptionAttr = OptionAttr(
    name: Option<string>,
    alternativeName: Option<string>,
    longName: Option<string>,
    description: string,
    usageTypeDisplayName: string,
    required: bool)

  function NewOptionAttr(): (o: OptionAttr)
    ensures o.name == Some("") && o.alternativeName == Some("") && o.longName == Some("")
    ensures o.description == "" && o.usageTypeDisplayName == "option" && !o.required
  {
    OptionAttr(Some(""), Some(""), Some(""), "", "option", false)
  }

  /** A parameter attribute: its ordinal number (at least 1, as the
    * attribute's setter guarantees), name and description. */
  datatype ParameterAttr = ParameterAttr(ordinalNumber: nat, name: Option<string>, description: Option<string>)

  /** A command attribute: name, long name and description. */
  datatype CommandAttr = CommandAttr(name: Option<string>, longName: Option<string>, description: string)

  datatype Property = Property(
    name: string,
    typ: TypeTag,
    option: Option<OptionAttr>,
    parameter: Option<ParameterAttr>,
    command: Option<CommandAttr>,
    /** The properties of the property's own type (used for commands). */
    members: seq<Property>)

  /** A field of the configuration object: the command property whose object
    * holds it (None for the configuration itself) and the property name. */
  datatype FieldKey = FieldKey(scope: Option<string>, property: string)

  /** An object a custom data-type getter returns, known by its identity. */
  datatype CustomObject = CustomObject(id: nat)

  /** The values fields take. `Initial` is whatever the configuration object
    * held before any binding. Values of the culture-dependent types keep the
    * culture and the text they were parsed from. */
  datatype Value =
    | Initial
    | BoolValue(b: bool)
    | StringValue(s: string)
    | CharValue(c: char)
    | IntValue(tag: TypeTag, n: int)
    | ParsedValue(tag: TypeTag, culture: Options.Culture, text: string)
    | FileValue(path: string)
    | DirectoryValue(path: string)
    | UriValue(text: string)
    | CustomValue(obj: Option<CustomObject>)

  /** `IsRequired`: an option marked required; anything else is not. */
  predicate IsRequired(p: Property)
  {
    p.option.Some? && p.option.value.required
  }

  // ---------------------------------------------------------------------
  // Finding the first property that answers a query

  /** What the lookups search for: an option by any of its three names
    * (ordinal comparison), a parameter by ordinal number, a command by name
    * (ordinal comparison), or a command by name or long name ignoring case. */
  datatype Query =
    | OptionNamed(name: string)
    | ParameterAt(ordinal: nat)
    | CommandNamed(name: string)
    | CommandNamedIgnoreCase(name: string)

  predicate SameName(n: Option<string>, name: string, ignoreCase: bool)
  {
    n.Some? && Text.SameText(n.value, name, ignoreCase)
  }

  predicate Matches(p: Property, q: Query)
  {
    match q
    case OptionNamed(n) =>
      p.option.Some? &&
      (SameName(p.option.value.name, n, false) || SameName(p.option.value.alternativeName, n, false)
       || SameName(p.option.value.longName, n, false))
    case ParameterAt(k) => p.parameter.Some? && p.parameter.value.ordinalNumber == k
    case CommandNamed(n) => p.command.Some? && SameName(p.command.value.name, n, false)
    case CommandNamedIgnoreCase(n) =>
      p.command.Some? &&
      (SameName(p.command.value.name, n, true) || SameName(p.command.value.longName, n, true))
  }

  /** Index `k` holds the first property that answers `q`. */
  predicate IsFirstMatch(props: seq<Property>, k: int, q: Query)
  {
    0 <= k < |props| && Matches(props[k], q) && forall j :: 0 <= j < k ==> !Matches(props[j], q)
  }

  /** `FirstOrDefault` over the properties in declaration order. */
  function Find(props: seq<Property>, q: Query): (r: Option<Property>)
    ensures r.None? <==> forall k :: 0 <= k < |props| ==> !Matches(props[k], q)
    ensures r.Some? ==> exists k :: IsFirstMatch(props, k, q) && props[k] == r.value
  {
    if props == [] then None
    else if Matches(props[0], q) then
      assert IsFirstMatch(props, 0, q);
      Some(props[0])
    else
      var r := Find(props[1..], q);
      if r.Some? then
        var k :| IsFirstMatch(props[1..], k, q) && props[1..][k] == r.value;
        assert IsFirstMatch(props, k + 1, q);
        r
      else
        r
  }

  /** A command found by its exact name is also found when case is ignored
    * and the long name is consulted as well, so every command the console
    * parser's service finds the older service finds too. */
  lemma ExactCommandFoundIgnoringCase(props: seq<Property>, k: nat, name: string)
    requires k < |props| && Matches(props[k], CommandNamed(name))
    ensures Find(props, CommandNamedIgnoreCase(name)).Some?
  {
    assert Matches(props[k], CommandNamedIgnoreCase(name));
  }

  /** There is only one first match. */
  lemma FirstMatchUnique(props: seq<Property>, k: int, m: int, q: Query)
    requires IsFirstMatch(props, k, q) && IsFirstMatch(props, m, q)
    ensures k == m
  {
  }

  /** The property found is the one at the first matching position. */
  lemma FindIsFirst(props: seq<Property>, k: int, q: Query)
    requires IsFirstMatch(props, k, q)
    ensures Find(props, q) == Some(props[k])
  {
    var r := Find(props, q);
    assert r.Some?;
    var m :| IsFirstMatch(props, m, q) && props[m] == r.value;
    FirstMatchUnique(props, k, m, q);
  }

  // ---------------------------------------------------------------------
  // Counting properties by kind

  predicate HasCommands(props: seq<Property>)
  {
    exists k :: 0 <= k < |props| && props[k].command.Some?
  }

  predicate HasOptions(props: seq<Property>)
  {
    exists k :: 0 <= k < |props| && props[k].option.Some?
  }

  predicate HasParameters(props: seq<Property>)
  {
    exists k :: 0 <= k < |props| && props[k].parameter.Some?
  }

  // ---------------------------------------------------------------------
  // Lists without repetitions

  predicate Distinct<T(==)>(s: seq<T>)
  {
    forall i, j :: 0 <= i < j < |s| ==> s[i] != s[j]
  }

  /** Appending to a list without repetitions keeps it so exactly when the
    * new element is not in it yet. */
  lemma DistinctSnoc<T>(s: seq<T>, x: T)
    requires Distinct(s)
    ensures Distinct(s + [x]) <==> x !in s
  {
    if x in s {
      var i :| 0 <= i < |s| && s[i] == x;
      assert (s + [x])[i] == (s + [x])[|s|];
    }
  }

  lemma DistinctPrefix<T>(s: seq<T>, t: seq<T>)
    requires Distinct(s + t)
    ensures Distinct(s)
  {
    forall i, j | 0 <= i < j < |s| ensures s[i] != s[j] {
      assert (s + t)[i] == s[i] && (s + t)[j] == s[j];
    }
  }

  /** The tail of a concatenation whose first part is not empty. */
  lemma TailOfAppend<T>(a: seq<T>, b: seq<T>)
    requires a != []
    ensures a + b != [] && (a + b)[0] == a[0] && (a + b)[1..] == a[1..] + b
  {
  }

  lemma AppendAssociative<T>(x: seq<T>, y: seq<T>, z: seq<T>)
    ensures x + (y + z) == (x + y) + z
  {
  }
}
