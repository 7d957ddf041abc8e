/** `DefaultPropertyService`: the property service the console parser binds
  * with. It holds the configuration, the field values, the list of options
  * assigned so far, the command whose object is current and the one custom
  * data-type handler slot. */
module DefaultService {
  import opened Wrappers
  import Text
  import Options
  import Exceptions
  import Resources
  import opened Schema
  import Values
  import ConfigurationValidation
  import Service

  /** What a binding pass reads and does not change: the runtime, the parse
    * culture, the handler, the current command and its properties. */
  datatype Context = Context(
    platform: Values.Platform,
    culture: Options.Culture,
    handler: Option<Values.Handler>,
    scope: Option<string>,
    properties: seq<Property>)

  /** What a binding pass changes: the field values and the options assigned so far. */
  datatype Fields = Fields(values: map<FieldKey, Value>, recorded: seq<OptionAttr>)

  /** `_AssignedOptions` after setting `prop` to `value`: a value that is not
    * blank records the property's option, once. */
  function Recorded(recorded: seq<OptionAttr>, prop: Property, value: Option<string>): (r: seq<OptionAttr>)
    ensures Distinct(recorded) ==> Distinct(r)
    ensures forall o :: o in r <==> o in recorded || (!Text.IsNullOrWhiteSpace(value) && prop.option == Some(o))
    ensures |recorded| <= |r| <= |recorded| + 1 && r[..|recorded|] == recorded
  {
    if !Text.IsNullOrWhiteSpace(value) && prop.option.Some? && prop.option.value !in recorded then
      DistinctSnocIfNew(recorded, prop.option.value);
      recorded + [prop.option.value]
    else recorded
  }

  lemma DistinctSnocIfNew(s: seq<OptionAttr>, x: OptionAttr)
    requires x !in s
    ensures Distinct(s) ==> Distinct(s + [x])
  {
    if Distinct(s) {
      DistinctSnoc(s, x);
    }
  }

  /** `SetPropertyValue` on the pure state: the converted value is stored
    * under the current scope, and the option is recorded; a conversion that
    * throws changes nothing. */
  function Set(c: Context, f: Fields, prop: Property, value: Option<string>): Result<Fields, Exceptions.Exception>
  {
    match Values.Assign(c.platform, c.culture, c.handler, prop, value)
    case Err(e) => Err(e)
    case Ok(v) => Ok(Fields(Values.Store(f.values, FieldKey(c.scope, prop.name), v), Recorded(f.recorded, prop, value)))
  }

  /** `IsValidValue` with the context's handler. */
  predicate Accepts(c: Context, prop: Property, value: Option<string>)
  {
    Values.IsValidValue(c.platform, c.handler, prop, value)
  }

  /** The required options among `props` that are not assigned, in
    * declaration order. */
  function UnassignedRequired(props: seq<Property>, recorded: seq<OptionAttr>): (r: seq<OptionAttr>)
    ensures forall o :: o in r <==>
              o.required && o !in recorded && exists k :: 0 <= k < |props| && props[k].option == Some(o)
    ensures |r| <= |props|
  {
    if props == [] then []
    else
      var rest := UnassignedRequired(props[1..], recorded);
      assert forall k :: 1 <= k < |props| ==> props[k] == props[1..][k - 1];
      var o := props[0].option;
      if o.Some? && o.value.required && o.value !in recorded then [o.value] + rest else rest
  }

  /** The result keeps declaration order: for a concatenation of property
    * lists it is the result for the first part followed by the result for
    * the second. With `UnassignedRequiredSingle` this fixes the result
    * completely. */
  lemma {:induction false} UnassignedRequiredAppend(a: seq<Property>, b: seq<Property>, recorded: seq<OptionAttr>)
    ensures UnassignedRequired(a + b, recorded) == UnassignedRequired(a, recorded) + UnassignedRequired(b, recorded)
  {
    if a == [] {
      assert a + b == b;
    } else {
      var o := a[0].option;
      var head := if o.Some? && o.value.required && o.value !in recorded then [o.value] else [];
      UnassignedRequiredAppendStep(a, b, recorded);
      UnassignedRequiredAppend(a[1..], b, recorded);
      AppendAssociative(head, UnassignedRequired(a[1..], recorded), UnassignedRequired(b, recorded));
    }
  }

  /** One step of `UnassignedRequiredAppend`: the first property of `a`
    * contributes its option, or nothing, in front of the rest. */
  lemma UnassignedRequiredAppendStep(a: seq<Property>, b: seq<Property>, recorded: seq<OptionAttr>)
    requires a != []
    ensures var o := a[0].option;
            var head := if o.Some? && o.value.required && o.value !in recorded then [o.value] else [];
            UnassignedRequired(a + b, recorded) == head + UnassignedRequired(a[1..] + b, recorded)
            && UnassignedRequired(a, recorded) == head + UnassignedRequired(a[1..], recorded)
  {
    TailOfAppend(a, b);
  }

  /** A single property contributes its option exactly when that option is
    * required and not assigned. */
  lemma UnassignedRequiredSingle(p: Property, recorded: seq<OptionAttr>)
    ensures UnassignedRequired([p], recorded)
            == (if p.option.Some? && p.option.value.required && p.option.value !in recorded
                then [p.option.value] else [])
  {
    assert [p][1..] == [];
  }

  /** The name an unassigned option is reported by. */
  function NameOrNotApplicable(o: OptionAttr): string
  {
    o.name.OrElse(Resources.NotApplicableValue)
  }

  /** `GetUnassignedRequiredOptionNames`. */
  function UnassignedRequiredNames(props: seq<Property>, recorded: seq<OptionAttr>): (r: seq<string>)
    ensures var u := UnassignedRequired(props, recorded);
            |r| == |u| && forall i :: 0 <= i < |u| ==> r[i] == NameOrNotApplicable(u[i])
  {
    var u := UnassignedRequired(props, recorded);
    seq(|u|, i requires 0 <= i < |u| => NameOrNotApplicable(u[i]))
  }

  /** An option set to a value that is not blank is no longer reported as
    * missing, and no other option's report changes. */
  lemma SettingAssigns(c: Context, f: Fields, prop: Property, value: Option<string>, o: OptionAttr)
    requires Set(c, f, prop, value).Ok?
    requires !Text.IsNullOrWhiteSpace(value) && prop.option.Some?
    ensures prop.option.value !in UnassignedRequired(c.properties, Set(c, f, prop, value).value.recorded)
    ensures o != prop.option.value ==>
              (o in UnassignedRequired(c.properties, Set(c, f, prop, value).value.recorded)
               <==> o in UnassignedRequired(c.properties, f.recorded))
  {
  }

  /** A Boolean option set without a value becomes true, yet stays reported
    * as missing when it is required. */
  lemma BlankBooleanStaysUnassigned(c: Context, f: Fields, prop: Property, value: Option<string>, k: nat)
    requires Text.IsNullOrWhiteSpace(value) && prop.typ == TBoolean
    requires k < |c.properties| && c.properties[k] == prop
    requires prop.option.Some? && prop.option.value.required && prop.option.value !in f.recorded
    ensures Set(c, f, prop, value).Ok?
    ensures Values.Read(Set(c, f, prop, value).value.values, FieldKey(c.scope, prop.name)) == BoolValue(true)
    ensures prop.option.value in UnassignedRequired(c.properties, Set(c, f, prop, value).value.recorded)
  {
  }

  /** A value `IsValidValue` accepts for a type whose check and conversion
    * agree is stored without an exception (unless a custom getter throws), and reading the field back gives
    * what was stored. */
  lemma AcceptedValueIsStored(c: Context, f: Fields, prop: Property, value: Option<string>)
    requires !(prop.typ.TDateTime? || prop.typ.TDouble? || prop.typ.TSingle? || prop.typ.TUri?)
    requires Accepts(c, prop, value)
    requires prop.typ.TCustom? && c.handler.Some? && value.Some? ==> c.handler.value.getter(prop.name, value.value).Ok?
    ensures Set(c, f, prop, value).Ok?
    ensures var v := Values.Assign(c.platform, c.culture, c.handler, prop, value).value;
            v.Some? ==> Values.Read(Set(c, f, prop, value).value.values, FieldKey(c.scope, prop.name)) == v.value
  {
    Values.ValidValueAssigns(c.platform, c.culture, c.handler, prop, value);
  }

  class DefaultPropertyService {
    const configuration: seq<Property>
    const options: Options.ParseOptions
    const platform: Values.Platform
    var values: map<FieldKey, Value>
    var assignedOptions: seq<OptionAttr>
    /** `_CurrentCommandConfiguration`: the command property whose object is
      * current, or None for the configuration itself. */
    var currentCommand: Option<Property>
    var handler: Option<Values.Handler>

    ghost predicate Valid()
      reads this
    {
      ConfigurationValidation.WellFormedConfiguration(configuration) && Distinct(assignedOptions)
    }

    /** The state after the constructor's validation has passed. */
    constructor (cfg: seq<Property>, o: Options.ParseOptions, platform: Values.Platform)
      requires ConfigurationValidation.WellFormedConfiguration(cfg)
      ensures Valid()
      ensures configuration == cfg && options == o && this.platform == platform
      ensures values == map[] && assignedOptions == [] && currentCommand.None? && handler.None?
    {
      configuration := cfg;
      options := o;
      this.platform := platform;
      values := map[];
      assignedOptions := [];
      currentCommand := None;
      handler := None;
    }

    /** `new DefaultPropertyService(configuration)`: a null configuration
      * throws, then the configuration is validated; the options are the
      * defaults with the current UI culture. */
    static method Create(cfg: Option<seq<Property>>, currentUICulture: Options.Culture, platform: Values.Platform)
      returns (r: Result<DefaultPropertyService, Exceptions.Exception>)
      ensures cfg.None? ==> r == Err(Exceptions.ArgumentNull("configuration"))
      ensures cfg.Some? ==> (r.Ok? <==> ConfigurationValidation.WellFormedConfiguration(cfg.value))
      ensures cfg.Some? && r.Err? ==> Some(r.error) == ConfigurationValidation.ValidationError(cfg.value)
      ensures r.Ok? ==> fresh(r.value) && r.value.Valid() && r.value.configuration == cfg.value
                        && r.value.options == Options.NewParseOptions(currentUICulture)
                        && r.value.values == map[] && r.value.assignedOptions == []
                        && r.value.currentCommand.None? && r.value.handler.None?
    {
      if cfg.None? {
        return Err(Exceptions.ArgumentNull("configuration"));
      }
      var e := ConfigurationValidation.ValidateConfiguration(cfg.value);
      ConfigurationValidation.ValidationIff(cfg.value);
      if e.Some? {
        return Err(e.value);
      }
      var s := new DefaultPropertyService(cfg.value, Options.NewParseOptions(currentUICulture), platform);
      r := Ok(s);
    }

    /** `new DefaultPropertyService(configuration, options)`: the
      * configuration is checked first, then the options. */
    static method CreateWithOptions(cfg: Option<seq<Property>>, o: Option<Options.ParseOptions>,
                                    currentUICulture: Options.Culture, platform: Values.Platform)
      returns (r: Result<DefaultPropertyService, Exceptions.Exception>)
      ensures cfg.None? ==> r == Err(Exceptions.ArgumentNull("configuration"))
      ensures cfg.Some? && !ConfigurationValidation.WellFormedConfiguration(cfg.value) ==>
                r.Err? && Some(r.error) == ConfigurationValidation.ValidationError(cfg.value)
      ensures cfg.Some? && ConfigurationValidation.WellFormedConfiguration(cfg.value) && o.None? ==>
                r == Err(Exceptions.ArgumentNull("options"))
      ensures r.Ok? ==> cfg.Some? && o.Some? && fresh(r.value) && r.value.Valid()
                        && r.value.configuration == cfg.value && r.value.options == o.value
                        && r.value.values == map[] && r.value.assignedOptions == []
                        && r.value.currentCommand.None? && r.value.handler.None?
    {
      r := Create(cfg, currentUICulture, platform);
      if r.Ok? {
        if o.None? {
          return Err(Exceptions.ArgumentNull("options"));
        }
        var s := new DefaultPropertyService(cfg.value, o.value, platform);
        r := Ok(s);
      }
    }

    /** `GetCurrentConfiguration().GetType().GetProperties()`. */
    function Properties(): seq<Property>
      reads this
    {
      if currentCommand.Some? then currentCommand.value.members else configuration
    }

    function Ctx(): Context
      reads this
    {
      Context(platform, options.culture, handler,
              if currentCommand.Some? then Some(currentCommand.value.name) else None, Properties())
    }

    function State(): Fields
      reads this
    {
      Fields(values, assignedOptions)
    }

    /** `GetPropertyByOptionName`: the first property of the current scope
      * with an option named `name` (any of its three names, compared
      * ordinally). A blank name and an unknown name throw. */
    function GetPropertyByOptionName(name: Option<string>): (r: Result<Property, Exceptions.Exception>)
      reads this
      ensures Text.IsNullOrWhiteSpace(name) ==>
                r == Err(Exceptions.Argument(Resources.MissingRequiredParameterValue, "name"))
      ensures !Text.IsNullOrWhiteSpace(name) ==>
                (r.Ok? <==> exists k :: 0 <= k < |Properties()| && Matches(Properties()[k], OptionNamed(name.value)))
      ensures !Text.IsNullOrWhiteSpace(name) && r.Err? ==>
                r.error == Exceptions.Argument(Resources.OptionDoesNotExist, name.value)
      ensures r.Ok? ==> exists k :: IsFirstMatch(Properties(), k, OptionNamed(name.value)) && Properties()[k] == r.value
    {
      if Text.IsNullOrWhiteSpace(name) then Err(Exceptions.Argument(Resources.MissingRequiredParameterValue, "name"))
      else
        match Find(Properties(), OptionNamed(name.value))
        case None => Err(Exceptions.Argument(Resources.OptionDoesNotExist, name.value))
        case Some(p) => Ok(p)
    }

    /** `HasCommands`, `HasOptions`, `HasParameters`: whether some property
      * of the current scope carries that attribute. */
    function HasCommands(): (r: bool)
      reads this
      ensures r <==> exists k :: 0 <= k < |Properties()| && Properties()[k].command.Some?
    {
      Schema.HasCommands(Properties())
    }

    function HasOptions(): (r: bool)
      reads this
      ensures r <==> exists k :: 0 <= k < |Properties()| && Properties()[k].option.Some?
    {
      Schema.HasOptions(Properties())
    }

    function HasParameters(): (r: bool)
      reads this
      ensures r <==> exists k :: 0 <= k < |Properties()| && Properties()[k].parameter.Some?
    {
      Schema.HasParameters(Properties())
    }

    /** `GetPropertyTypeByOptionName`: the type of the property the option
      * lookup finds; unlike that lookup, an unknown name throws with the
      * parameter name `name` rather than the name itself. */
    function GetPropertyTypeByOptionName(name: Option<string>): (r: Result<TypeTag, Exceptions.Exception>)
      reads this
      ensures r.Ok? <==> GetPropertyByOptionName(name).Ok?
      ensures r.Ok? ==> r.value == GetPropertyByOptionName(name).value.typ
      ensures Text.IsNullOrWhiteSpace(name) ==>
                r == Err(Exceptions.Argument(Resources.MissingRequiredParameterValue, "name"))
      ensures !Text.IsNullOrWhiteSpace(name) && r.Err? ==>
                r.error == Exceptions.Argument(Resources.OptionDoesNotExist, "name")
    {
      if Text.IsNullOrWhiteSpace(name) then Err(Exceptions.Argument(Resources.MissingRequiredParameterValue, "name"))
      else
        match Find(Properties(), OptionNamed(name.value))
        case None => Err(Exceptions.Argument(Resources.OptionDoesNotExist, "name"))
        case Some(p) => Ok(p.typ)
    }

    /** `GetPropertyTypeNameByOptionName`: the type's full name. */
    function GetPropertyTypeNameByOptionName(name: Option<string>): (r: Result<string, Exceptions.Exception>)
      reads this
      ensures r.Ok? <==> GetPropertyByOptionName(name).Ok?
      ensures r.Ok? ==> r.value == FullName(GetPropertyByOptionName(name).value.typ)
      ensures r.Err? ==> r == GetPropertyTypeByOptionName(name).PropagateFailure()
    {
      var t :- GetPropertyTypeByOptionName(name);
      Ok(FullName(t))
    }

    /** `GetPropertyByCommandName`: the first command property of the
      * configuration itself (whatever command is current) whose command
      * name equals `name` ordinally; the long name is not consulted. */
    function GetPropertyByCommandName(name: Option<string>): (r: Result<Property, Exceptions.Exception>)
      reads this
      ensures Text.IsNullOrWhiteSpace(name) ==>
                r == Err(Exceptions.Argument(Resources.MissingRequiredParameterValue, "name"))
      ensures !Text.IsNullOrWhiteSpace(name) ==>
                (r.Ok? <==> exists k :: 0 <= k < |configuration| && Matches(configuration[k], CommandNamed(name.value)))
      ensures !Text.IsNullOrWhiteSpace(name) && r.Err? ==>
                r.error == Exceptions.Argument(Resources.CommandDoesNotExist, name.value)
      ensures r.Ok? ==> r.value.command.Some? && r.value.command.value.name == name
                        && exists k :: IsFirstMatch(configuration, k, CommandNamed(name.value))
                                       && configuration[k] == r.value
    {
      if Text.IsNullOrWhiteSpace(name) then Err(Exceptions.Argument(Resources.MissingRequiredParameterValue, "name"))
      else
        match Find(configuration, CommandNamed(name.value))
        case None => Err(Exceptions.Argument(Resources.CommandDoesNotExist, name.value))
        case Some(p) => Ok(p)
    }

    /** `IsRequired`: only an option can be required. */
    function IsRequired(prop: Option<Property>): (r: Result<bool, Exceptions.Exception>)
      ensures prop.None? ==> r == Err(Exceptions.ArgumentNull("prop"))
      ensures prop.Some? ==> r.Ok? && (r.value <==> prop.value.option.Some? && prop.value.option.value.required)
      ensures r.Ok? && r.value ==> GetOption(prop).Ok?
    {
      if prop.None? then Err(Exceptions.ArgumentNull("prop")) else Ok(Schema.IsRequired(prop.value))
    }

    /** `GetOption`, `GetParameter`, `GetCommand`: the property's attribute
      * of that kind; a null property and a property without one throw. */
    function GetOption(prop: Option<Property>): (r: Result<OptionAttr, Exceptions.Exception>)
      ensures prop.None? ==> r == Err(Exceptions.ArgumentNull("prop"))
      ensures prop.Some? ==> (r.Ok? <==> prop.value.option.Some?)
      ensures prop.Some? && r.Err? ==>
                r.error == Exceptions.Argument(Resources.PropertyDoesNotHaveAnOptionAttribute, "prop")
      ensures r.Ok? ==> prop.value.option == Some(r.value)
    {
      if prop.None? then Err(Exceptions.ArgumentNull("prop"))
      else if prop.value.option.None? then
        Err(Exceptions.Argument(Resources.PropertyDoesNotHaveAnOptionAttribute, "prop"))
      else Ok(prop.value.option.value)
    }

    function GetParameter(prop: Option<Property>): (r: Result<ParameterAttr, Exceptions.Exception>)
      ensures prop.None? ==> r == Err(Exceptions.ArgumentNull("prop"))
      ensures prop.Some? ==> (r.Ok? <==> prop.value.parameter.Some?)
      ensures prop.Some? && r.Err? ==>
                r.error == Exceptions.Argument(Resources.PropertyDoesNotHaveAParameterAttribute, "prop")
      ensures r.Ok? ==> prop.value.parameter == Some(r.value)
    {
      if prop.None? then Err(Exceptions.ArgumentNull("prop"))
      else if prop.value.parameter.None? then
        Err(Exceptions.Argument(Resources.PropertyDoesNotHaveAParameterAttribute, "prop"))
      else Ok(prop.value.parameter.value)
    }

    function GetCommand(prop: Option<Property>): (r: Result<CommandAttr, Exceptions.Exception>)
      ensures prop.None? ==> r == Err(Exceptions.ArgumentNull("prop"))
      ensures prop.Some? ==> (r.Ok? <==> prop.value.command.Some?)
      ensures prop.Some? && r.Err? ==>
                r.error == Exceptions.Argument(Resources.PropertyDoesNotHaveACommandAttribute, "prop")
      ensures r.Ok? ==> prop.value.command == Some(r.value)
    {
      if prop.None? then Err(Exceptions.ArgumentNull("prop"))
      else if prop.value.command.None? then
        Err(Exceptions.Argument(Resources.PropertyDoesNotHaveACommandAttribute, "prop"))
      else Ok(prop.value.command.value)
    }

    /** `GetOptionName`: the first of the option's names that is not null,
      * or the empty string; the exceptions are those of `GetOption`. */
    function GetOptionName(prop: Option<Property>): (r: Result<string, Exceptions.Exception>)
      ensures r.Err? <==> GetOption(prop).Err?
      ensures r.Err? ==> r.error == GetOption(prop).error
      ensures r.Ok? ==> r.value == Service.OptionName(GetOption(prop).value)
    {
      var o :- GetOption(prop);
      Ok(Service.OptionName(o))
    }

    /** `IsValidValue`: a null property throws; otherwise the value table
      * decides with the registered handler. */
    function IsValidValue(prop: Option<Property>, value: Option<string>): (r: Result<bool, Exceptions.Exception>)
      reads this
      ensures prop.None? ==> r == Err(Exceptions.ArgumentNull("prop"))
      ensures prop.Some? ==> r == Ok(Accepts(Ctx(), prop.value, value))
    {
      if prop.None? then Err(Exceptions.ArgumentNull("prop"))
      else Ok(Values.IsValidValue(platform, handler, prop.value, value))
    }

    /** `IsValidOptionValue`: the value is judged for the option the name
      * finds; the lookup's exceptions pass through. */
    function IsValidOptionValue(name: Option<string>, value: Option<string>): (r: Result<bool, Exceptions.Exception>)
      reads this
      ensures r.Err? <==> GetPropertyByOptionName(name).Err?
      ensures r.Err? ==> r.error == GetPropertyByOptionName(name).error
      ensures r.Ok? ==> exists k :: IsFirstMatch(Properties(), k, OptionNamed(name.value))
                                    && r.value == Accepts(Ctx(), Properties()[k], value)
    {
      match GetPropertyByOptionName(name)
      case Err(e) => Err(e)
      case Ok(p) => Ok(Values.IsValidValue(platform, handler, p, value))
    }

    /** `GetUnassignedRequiredOptionNames`. */
    function GetUnassignedRequiredOptionNames(): (r: seq<string>)
      reads this
      ensures var u := UnassignedRequired(Properties(), assignedOptions);
              |r| == |u| && forall i :: 0 <= i < |r| ==> r[i] == NameOrNotApplicable(u[i])
    {
      UnassignedRequiredNames(Properties(), assignedOptions)
    }

    /** `GetPropertyValue`: the field of the current object; a field never
      * set holds its initial value. */
    function GetPropertyValue(prop: Option<Property>): (r: Result<Value, Exceptions.Exception>)
      reads this
      ensures prop.None? ==> r == Err(Exceptions.ArgumentNull("prop"))
      ensures prop.Some? ==> r.Ok? && (FieldKey(Ctx().scope, prop.value.name) !in values ==> r.value == Initial)
    {
      if prop.None? then Err(Exceptions.ArgumentNull("prop"))
      else Ok(Values.Read(values, FieldKey(Ctx().scope, prop.value.name)))
    }

    /** `GetGlobalPropertyValue`: the field of the configuration object
      * itself, whatever command is current. */
    function GetGlobalPropertyValue(prop: Option<Property>): (r: Result<Value, Exceptions.Exception>)
      reads this
      ensures prop.None? ==> r == Err(Exceptions.ArgumentNull("prop"))
      ensures prop.Some? ==> r.Ok? && (FieldKey(None, prop.value.name) !in values ==> r.value == Initial)
      ensures currentCommand.None? ==> r == GetPropertyValue(prop)
    {
      if prop.None? then Err(Exceptions.ArgumentNull("prop"))
      else Ok(Values.Read(values, FieldKey(None, prop.value.name)))
    }

    /** `SetCurrentCommand`: later lookups and assignments use the command's
      * properties and object. */
    method SetCurrentCommand(command: Option<Property>) returns (thrown: Option<Exceptions.Exception>)
      requires Valid()
      modifies this
      ensures Valid()
      ensures command.None? ==> thrown == Some(Exceptions.ArgumentNull("command")) && currentCommand == old(currentCommand)
      ensures command.Some? ==> thrown.None? && currentCommand == command && Properties() == command.value.members
      ensures values == old(values) && assignedOptions == old(assignedOptions) && handler == old(handler)
    {
      if command.None? {
        return Some(Exceptions.ArgumentNull("command"));
      }
      currentCommand := command;
      thrown := None;
    }

    /** `ResetCurrentCommand`: back to the configuration itself. */
    method ResetCurrentCommand()
      requires Valid()
      modifies this
      ensures Valid()
      ensures currentCommand.None? && Properties() == configuration
      ensures values == old(values) && assignedOptions == old(assignedOptions) && handler == old(handler)
    {
      currentCommand := None;
    }

    /** `SetPropertyValue`: a null property throws; otherwise the value is
      * converted by the property's type and stored in the current object, and
      * an option set to a value that is not blank is recorded as assigned. */
    method SetPropertyValue(prop: Option<Property>, value: Option<string>) returns (thrown: Option<Exceptions.Exception>)
      requires Valid()
      modifies this
      ensures Valid()
      ensures Ctx() == old(Ctx())
      ensures prop.None? ==> thrown == Some(Exceptions.ArgumentNull("prop")) && State() == old(State())
      ensures prop.Some? && Set(Ctx(), old(State()), prop.value, value).Err? ==>
                thrown == Some(Set(Ctx(), old(State()), prop.value, value).error) && State() == old(State())
      ensures prop.Some? && Set(Ctx(), old(State()), prop.value, value).Ok? ==>
                thrown.None? && State() == Set(Ctx(), old(State()), prop.value, value).value
    {
      if prop.None? {
        return Some(Exceptions.ArgumentNull("prop"));
      }
      var p := prop.value;
      var converted := Values.Assign(platform, options.culture, handler, p, value);
      if converted.Err? {
        return Some(converted.error);
      }
      if converted.value.Some? {
        values := values[FieldKey(Ctx().scope, p.name) := converted.value.value];
      }
      if !Text.IsNullOrWhiteSpace(value) && p.option.Some? && p.option.value !in assignedOptions {
        DistinctSnoc(assignedOptions, p.option.value);
        assignedOptions := assignedOptions + [p.option.value];
      }
      thrown := None;
    }

    /** `AddCustomDataTypeHandler`: fills the one handler slot. */
    method AddCustomDataTypeHandler(typ: Option<TypeTag>, getter: Option<Values.Getter>,
                                    validator: Option<Values.Validator>)
      returns (thrown: Option<Exceptions.Exception>)
      requires Valid()
      modifies this
      ensures Valid()
      ensures var r := Values.Register(old(handler), typ, getter, validator);
              && (r.Ok? ==> thrown.None? && handler == Some(r.value))
              && (r.Err? ==> thrown == Some(r.error) && handler == old(handler))
      ensures values == old(values) && assignedOptions == old(assignedOptions) && currentCommand == old(currentCommand)
    {
      var r := Values.Register(handler, typ, getter, validator);
      if r.Err? {
        return Some(r.error);
      }
      handler := Some(r.value);
      thrown := None;
    }
  }
}
