/** `PropertyService`: the older property service. It is created without a
  * configuration, is given one by `Init`, and binds values either to the
  * configuration object or to the object of a command named by the caller.
  * It validates neither the configuration nor keeps a list of assigned
  * options. */
module Service {
  import opened Wrappers
  import Text
  import Options
  import Exceptions
  import Resources
  import opened Schema
  import Values

  /** Where `property.SetValue(target, value)` writes: the field of `target`
    * named by the property, `target` being the configuration object (scope
    * None) or the object of a command property. */
  function Bind(platform: Values.Platform, culture: Options.Culture, handler: Option<Values.Handler>,
                values: map<FieldKey, Value>, scope: Option<string>, prop: Property, value: Option<string>)
    : Result<map<FieldKey, Value>, Exceptions.Exception>
  {
    match Values.Assign(platform, culture, handler, prop, value)
    case Err(e) => Err(e)
    case Ok(v) => Ok(Values.Store(values, FieldKey(scope, prop.name), v))
  }

  /** Binding a value changes the one field it targets and no other: in
    * particular a command's field never touches the configuration's own. */
  lemma BindTouchesOneField(platform: Values.Platform, culture: Options.Culture, handler: Option<Values.Handler>,
                            values: map<FieldKey, Value>, scope: Option<string>, prop: Property,
                            value: Option<string>, other: FieldKey)
    requires Bind(platform, culture, handler, values, scope, prop, value).Ok?
    requires other != FieldKey(scope, prop.name)
    ensures Values.Read(Bind(platform, culture, handler, values, scope, prop, value).value, other)
            == Values.Read(values, other)
  {
    var v := Values.Assign(platform, culture, handler, prop, value).value;
    if v.Some? {
      Values.StoreThenRead(values, FieldKey(scope, prop.name), v.value, other);
    }
  }

  /** `GetOptionName` of a property known to carry an option: the first of
    * its names that is not null, or the empty string. */
  function OptionName(o: OptionAttr): (r: string)
    ensures o.name.Some? ==> r == o.name.value
    ensures o.name.None? && o.alternativeName.Some? ==> r == o.alternativeName.value
    ensures o.name.None? && o.alternativeName.None? && o.longName.Some? ==> r == o.longName.value
    ensures o.name.None? && o.alternativeName.None? && o.longName.None? ==> r == ""
  {
    o.name.OrElse(o.alternativeName.OrElse(o.longName.OrElse("")))
  }


  class PropertyService {
    /** `_config`: None until `Init`. */
    var config: Option<seq<Property>>
    const options: Options.ParseOptions
    const platform: Values.Platform
    var values: map<FieldKey, Value>
    var handler: Option<Values.Handler>

    /** `new PropertyService()`: the default options with the current UI
      * culture, no configuration and no handler. */
    constructor (currentUICulture: Options.Culture, platform: Values.Platform)
      ensures options == Options.NewParseOptions(currentUICulture) && this.platform == platform
      ensures config.None? && values == map[] && handler.None?
    {
      options := Options.NewParseOptions(currentUICulture);
      this.platform := platform;
      config := None;
      values := map[];
      handler := None;
    }

    constructor WithOptions(o: Options.ParseOptions, platform: Values.Platform)
      ensures options == o && this.platform == platform
      ensures config.None? && values == map[] && handler.None?
    {
      options := o;
      this.platform := platform;
      config := None;
      values := map[];
      handler := None;
    }

    /** `new PropertyService(options)`: null options throw. */
    static method CreateWithOptions(o: Option<Options.ParseOptions>, platform: Values.Platform)
      returns (r: Result<PropertyService, Exceptions.Exception>)
      ensures o.None? ==> r == Err(Exceptions.ArgumentNull("options"))
      ensures o.Some? ==> r.Ok? && fresh(r.value) && r.value.options == o.value && r.value.config.None?
                          && r.value.values == map[] && r.value.handler.None?
    {
      if o.None? {
        return Err(Exceptions.ArgumentNull("options"));
      }
      var s := new PropertyService.WithOptions(o.value, platform);
      r := Ok(s);
    }

    /** The `Config` getter: reading it before `Init` throws. */
    function Config(): (r: Result<seq<Property>, Exceptions.Exception>)
      reads this
      ensures r.Err? <==> config.None?
      ensures r.Err? ==> r.error == Exceptions.InvalidOperation(Resources.PropertyServiceNotInitialized)
      ensures r.Ok? ==> r.value == config.value
    {
      if config.None? then Err(Exceptions.InvalidOperation(Resources.PropertyServiceNotInitialized))
      else Ok(config.value)
    }

    /** `Init`: a null configuration throws; otherwise it replaces the
      * current one, whose field values go with it. */
    method Init(cfg: Option<seq<Property>>) returns (thrown: Option<Exceptions.Exception>)
      modifies this
      ensures cfg.None? ==> thrown == Some(Exceptions.ArgumentNull("config")) && config == old(config)
                            && values == old(values)
      ensures cfg.Some? ==> thrown.None? && config == cfg && values == map[] && Config() == Ok(cfg.value)
      ensures handler == old(handler)
    {
      if cfg.None? {
        return Some(Exceptions.ArgumentNull("config"));
      }
      config := cfg;
      values := map[];
      thrown := None;
    }

    /** `GetProperties`. */
    function GetProperties(): (r: Result<seq<Property>, Exceptions.Exception>)
      reads this
      ensures r == Config()
    {
      Config()
    }

    /** `HasCommands`: some property of the configuration is a command. */
    function HasCommands(): (r: Result<bool, Exceptions.Exception>)
      reads this
      ensures r.Err? <==> config.None?
      ensures r.Ok? ==> (r.value <==> exists k :: 0 <= k < |config.value| && config.value[k].command.Some?)
    {
      match Config()
      case Err(e) => Err(e)
      case Ok(props) => Ok(Schema.HasCommands(props))
    }

    /** `GetPropertyByOptionName`: the first option property with `name` as
      * one of its names, compared ordinally; the name is checked before the
      * configuration is read. */
    function GetPropertyByOptionName(name: Option<string>): (r: Result<Property, Exceptions.Exception>)
      reads this
      ensures Text.IsNullOrWhiteSpace(name) ==>
                r == Err(Exceptions.Argument(Resources.MissingRequiredParameterValue, "name"))
      ensures !Text.IsNullOrWhiteSpace(name) && config.None? ==> r == Config().PropagateFailure()
      ensures !Text.IsNullOrWhiteSpace(name) && config.Some? ==>
                (r.Ok? <==> exists k :: 0 <= k < |config.value| && Matches(config.value[k], OptionNamed(name.value)))
      ensures !Text.IsNullOrWhiteSpace(name) && config.Some? && r.Err? ==>
                r.error == Exceptions.Argument(Resources.OptionDoesNotExist, name.value)
      ensures r.Ok? ==> config.Some?
                        && exists k :: IsFirstMatch(config.value, k, OptionNamed(name.value)) && config.value[k] == r.value
    {
      if Text.IsNullOrWhiteSpace(name) then Err(Exceptions.Argument(Resources.MissingRequiredParameterValue, "name"))
      else
        var props :- Config();
        match Find(props, OptionNamed(name.value))
        case None => Err(Exceptions.Argument(Resources.OptionDoesNotExist, name.value))
        case Some(p) => Ok(p)
    }

    /** Looking an option up by the name `GetOptionName` gives it: a blank
      * name throws; otherwise the lookup finds the option's property, or an
      * earlier property answering to the same name. */
    lemma OptionNameFindsOption(k: nat, o: OptionAttr)
      requires config.Some? && k < |config.value| && config.value[k].option == Some(o)
      ensures var name := OptionName(o);
              var r := GetPropertyByOptionName(Some(name));
              && (Text.IsBlank(name) ==>
                    r == Err(Exceptions.Argument(Resources.MissingRequiredParameterValue, "name")))
              && (!Text.IsBlank(name) ==>
                    && r.Ok?
                    && (exists j :: 0 <= j <= k && IsFirstMatch(config.value, j, OptionNamed(name))
                                    && config.value[j] == r.value)
                    && ((forall j :: 0 <= j < k ==> !Matches(config.value[j], OptionNamed(name))) ==>
                          r.value == config.value[k]))
    {
      var name := OptionName(o);
      if !Text.IsBlank(name) {
        assert name != "";
        assert Matches(config.value[k], OptionNamed(name));
        var r := GetPropertyByOptionName(Some(name));
        var j :| IsFirstMatch(config.value, j, OptionNamed(name)) && config.value[j] == r.value;
        if (forall i :: 0 <= i < k ==> !Matches(config.value[i], OptionNamed(name))) {
          assert IsFirstMatch(config.value, k, OptionNamed(name));
          FirstMatchUnique(config.value, j, k, OptionNamed(name));
        }
      }
    }

    /** `GetPropertyTypeByOptionName`: the type of that property; an unknown
      * name throws naming the parameter rather than the name. */
    function GetPropertyTypeByOptionName(name: Option<string>): (r: Result<TypeTag, Exceptions.Exception>)
      reads this
      ensures r.Ok? <==> GetPropertyByOptionName(name).Ok?
      ensures r.Ok? ==> r.value == GetPropertyByOptionName(name).value.typ
      ensures !Text.IsNullOrWhiteSpace(name) && config.Some? && r.Err? ==>
                r.error == Exceptions.Argument(Resources.OptionDoesNotExist, "name")
    {
      if Text.IsNullOrWhiteSpace(name) then Err(Exceptions.Argument(Resources.MissingRequiredParameterValue, "name"))
      else
        var props :- Config();
        match Find(props, OptionNamed(name.value))
        case None => Err(Exceptions.Argument(Resources.OptionDoesNotExist, "name"))
        case Some(p) => Ok(p.typ)
    }

    /** `GetPropertyTypeNameByOptionName`: the type's full name. */
    function GetPropertyTypeNameByOptionName(name: Option<string>): (r: Result<string, Exceptions.Exception>)
      reads this
      ensures r.Ok? <==> GetPropertyTypeByOptionName(name).Ok?
      ensures r.Ok? ==> r.value == FullName(GetPropertyTypeByOptionName(name).value)
    {
      var t :- GetPropertyTypeByOptionName(name);
      Ok(FullName(t))
    }

    /** `GetPropertyByCommandName`: the first command property whose name or
      * long name equals `name` ignoring case. */
    function GetPropertyByCommandName(name: Option<string>): (r: Result<Property, Exceptions.Exception>)
      reads this
      ensures Text.IsNullOrWhiteSpace(name) ==>
                r == Err(Exceptions.Argument(Resources.MissingRequiredParameterValue, "name"))
      ensures !Text.IsNullOrWhiteSpace(name) && config.None? ==> r == Config().PropagateFailure()
      ensures !Text.IsNullOrWhiteSpace(name) && config.Some? ==>
                (r.Ok? <==> exists k :: 0 <= k < |config.value|
                                        && Matches(config.value[k], CommandNamedIgnoreCase(name.value)))
      ensures !Text.IsNullOrWhiteSpace(name) && config.Some? && r.Err? ==>
                r.error == Exceptions.Argument(Resources.CommandDoesNotExist, name.value)
      ensures r.Ok? ==> config.Some? && r.value.command.Some?
                        && exists k :: IsFirstMatch(config.value, k, CommandNamedIgnoreCase(name.value))
                                       && config.value[k] == r.value
    {
      if Text.IsNullOrWhiteSpace(name) then Err(Exceptions.Argument(Resources.MissingRequiredParameterValue, "name"))
      else
        var props :- Config();
        match Find(props, CommandNamedIgnoreCase(name.value))
        case None => Err(Exceptions.Argument(Resources.CommandDoesNotExist, name.value))
        case Some(p) => Ok(p)
    }

    /** `GetCommandByName`: the command's object, known here by the command
      * property that holds it. */
    function GetCommandByName(name: Option<string>): (r: Result<Property, Exceptions.Exception>)
      reads this
      ensures r == GetPropertyByCommandName(name)
    {
      GetPropertyByCommandName(name)
    }

    /** `GetCommandProperties`: the properties of the named command's object. */
    function GetCommandProperties(commandName: Option<string>): (r: Result<seq<Property>, Exceptions.Exception>)
      reads this
      ensures Text.IsNullOrWhiteSpace(commandName) ==>
                r == Err(Exceptions.Argument(Resources.MissingRequiredParameterValue, "commandName"))
      ensures !Text.IsNullOrWhiteSpace(commandName) ==>
                (r.Ok? <==> GetPropertyByCommandName(commandName).Ok?)
      ensures r.Ok? ==> r.value == GetPropertyByCommandName(commandName).value.members
    {
      if Text.IsNullOrWhiteSpace(commandName) then
        Err(Exceptions.Argument(Resources.MissingRequiredParameterValue, "commandName"))
      else
        var cmd :- GetPropertyByCommandName(commandName);
        Ok(cmd.members)
    }

    /** `IsRequired`. */
    function IsRequired(info: Option<Property>): (r: Result<bool, Exceptions.Exception>)
      ensures info.None? ==> r == Err(Exceptions.ArgumentNull("info"))
      ensures info.Some? ==> r.Ok? && (r.value <==> info.value.option.Some? && info.value.option.value.required)
    {
      if info.None? then Err(Exceptions.ArgumentNull("info")) else Ok(Schema.IsRequired(info.value))
    }

    /** `GetOptionName`: a property without an option throws. */
    function GetOptionName(info: Option<Property>): (r: Result<string, Exceptions.Exception>)
      ensures info.None? ==> r == Err(Exceptions.ArgumentNull("info"))
      ensures info.Some? && info.value.option.None? ==>
                r == Err(Exceptions.Argument(Resources.PropertyDoesNotHaveAnOptionAttribute, "info"))
      ensures info.Some? && info.value.option.Some? ==> r == Ok(OptionName(info.value.option.value))
    {
      if info.None? then Err(Exceptions.ArgumentNull("info"))
      else if info.value.option.None? then
        Err(Exceptions.Argument(Resources.PropertyDoesNotHaveAnOptionAttribute, "info"))
      else Ok(OptionName(info.value.option.value))
    }

    /** `IsValidValue`: a null property throws; otherwise the value table
      * decides with the registered handler. */
    function IsValidValue(info: Option<Property>, value: Option<string>): (r: Result<bool, Exceptions.Exception>)
      reads this
      ensures info.None? ==> r == Err(Exceptions.ArgumentNull("info"))
      ensures info.Some? ==> r == Ok(Values.IsValidValue(platform, handler, info.value, value))
    {
      if info.None? then Err(Exceptions.ArgumentNull("info"))
      else Ok(Values.IsValidValue(platform, handler, info.value, value))
    }

    /** `IsValidOptionValue`: the value judged for the option the name finds. */
    function IsValidOptionValue(name: Option<string>, value: Option<string>): (r: Result<bool, Exceptions.Exception>)
      reads this
      ensures r.Err? <==> GetPropertyByOptionName(name).Err?
      ensures r.Err? ==> r.error == GetPropertyByOptionName(name).error
      ensures r.Ok? ==> r.value == Values.IsValidValue(platform, handler, GetPropertyByOptionName(name).value, value)
    {
      var p :- GetPropertyByOptionName(name);
      Ok(Values.IsValidValue(platform, handler, p, value))
    }

    /** `SetPropertyValue`: the configuration is read first, so before `Init`
      * even a null property gets the not-initialised exception; then the
      * value is converted and stored in the configuration object. */
    method SetPropertyValue(property: Option<Property>, value: Option<string>) returns (thrown: Option<Exceptions.Exception>)
      modifies this
      ensures config == old(config) && handler == old(handler)
      ensures config.None? ==> thrown == Some(Config().error) && values == old(values)
      ensures config.Some? && property.None? ==> thrown == Some(Exceptions.ArgumentNull("property")) && values == old(values)
      ensures config.Some? && property.Some? ==>
                var r := Bind(platform, options.culture, handler, old(values), None, property.value, value);
                && (r.Ok? ==> thrown.None? && values == r.value)
                && (r.Err? ==> thrown == Some(r.error) && values == old(values))
    {
      var target := Config();
      if target.Err? {
        return Some(target.error);
      }
      thrown := Store(property, None, value);
    }

    /** `SetCommandPropertyValue`: the value goes to the field of the named
      * command's object. */
    method SetCommandPropertyValue(property: Option<Property>, commandName: Option<string>, value: Option<string>)
      returns (thrown: Option<Exceptions.Exception>)
      modifies this
      ensures config == old(config) && handler == old(handler)
      ensures Text.IsNullOrWhiteSpace(commandName) ==>
                thrown == Some(Exceptions.Argument(Resources.MissingRequiredParameterValue, "commandName"))
                && values == old(values)
      ensures !Text.IsNullOrWhiteSpace(commandName) && GetPropertyByCommandName(commandName).Err? ==>
                thrown == Some(GetPropertyByCommandName(commandName).error) && values == old(values)
      ensures !Text.IsNullOrWhiteSpace(commandName) && GetPropertyByCommandName(commandName).Ok? && property.None? ==>
                thrown == Some(Exceptions.ArgumentNull("property")) && values == old(values)
      ensures !Text.IsNullOrWhiteSpace(commandName) && GetPropertyByCommandName(commandName).Ok? && property.Some? ==>
                var scope := Some(GetPropertyByCommandName(commandName).value.name);
                var r := Bind(platform, options.culture, handler, old(values), scope, property.value, value);
                && (r.Ok? ==> thrown.None? && values == r.value)
                && (r.Err? ==> thrown == Some(r.error) && values == old(values))
    {
      if Text.IsNullOrWhiteSpace(commandName) {
        return Some(Exceptions.Argument(Resources.MissingRequiredParameterValue, "commandName"));
      }
      var cmd := GetPropertyByCommandName(commandName);
      if cmd.Err? {
        return Some(cmd.error);
      }
      thrown := Store(property, Some(cmd.value.name), value);
    }

    /** The private `SetPropertyValue(property, target, value)`. */
    method Store(property: Option<Property>, scope: Option<string>, value: Option<string>)
      returns (thrown: Option<Exceptions.Exception>)
      modifies this
      ensures config == old(config) && handler == old(handler)
      ensures property.None? ==> thrown == Some(Exceptions.ArgumentNull("property")) && values == old(values)
      ensures property.Some? ==>
                var r := Bind(platform, options.culture, handler, old(values), scope, property.value, value);
                && (r.Ok? ==> thrown.None? && values == r.value)
                && (r.Err? ==> thrown == Some(r.error) && values == old(values))
    {
      if property.None? {
        return Some(Exceptions.ArgumentNull("property"));
      }
      var r := Bind(platform, options.culture, handler, values, scope, property.value, value);
      if r.Err? {
        return Some(r.error);
      }
      values := r.value;
      thrown := None;
    }

    /** `AddCustomDataTypeHandler`: fills the one handler slot. */
    method AddCustomDataTypeHandler(typ: Option<TypeTag>, getter: Option<Values.Getter>,
                                    validator: Option<Values.Validator>)
      returns (thrown: Option<Exceptions.Exception>)
      modifies this
      ensures var r := Values.Register(old(handler), typ, getter, validator);
              && (r.Ok? ==> thrown.None? && handler == Some(r.value))
              && (r.Err? ==> thrown == Some(r.error) && handler == old(handler))
      ensures config == old(config) && values == old(values)
    {
      var r := Values.Register(handler, typ, getter, validator);
      if r.Err? {
        return Some(r.error);
      }
      handler := Some(r.value);
      thrown := None;
    }
  }
}
