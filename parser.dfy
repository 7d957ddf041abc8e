/** `CommandLineParser`: binds the tokens of a command line to the properties
  * of the configuration through the default property service, collecting
  * parse errors rather than throwing. */
module Parser {
  import opened Wrappers
  import Text
  import Options
  import Exceptions
  import Resources
  import opened Schema
  import opened ParseErrors
  import Results
  import Tokens
  import Values
  import DS = DefaultService

  const RequiredNameMissing := "Required name is missing"
  const NoOptionOrParameter := "Argument does not match any option or parameter"

  /** The indicators `DetermineOptionProperty` strips from a token name:
    * long, alternative, default. */
  const OptionIndicators: seq<string> :=
    [Options.LongNameIndicator, Options.AlternativeNameIndicator, Options.DefaultNameIndicator]

  // ---------------------------------------------------------------------
  // Lookups

  function OptionItemName(itemName: string): string
  {
    Text.TrimStartAny(itemName, OptionIndicators)
  }

  /** `DetermineOptionProperty`: the first declared option that has the
    * token name, without its leading indicators, as one of its names. */
  function DetermineOptionProperty(props: seq<Property>, item: Tokens.TokenizeItem): (r: Option<Property>)
    ensures r.None? <==> forall k :: 0 <= k < |props| ==> !Matches(props[k], OptionNamed(OptionItemName(item.name)))
    ensures r.Some? ==> exists k :: IsFirstMatch(props, k, OptionNamed(OptionItemName(item.name))) && props[k] == r.value
  {
    Find(props, OptionNamed(OptionItemName(item.name)))
  }

  /** `DetermineParameterProperty`: the first declared parameter with the
    * ordinal number. */
  function DetermineParameterProperty(props: seq<Property>, ordinal: nat): (r: Option<Property>)
    ensures r.None? <==> forall k :: 0 <= k < |props| ==> !Matches(props[k], ParameterAt(ordinal))
    ensures r.Some? ==> exists k :: IsFirstMatch(props, k, ParameterAt(ordinal)) && props[k] == r.value
  {
    Find(props, ParameterAt(ordinal))
  }

  /** `GetOptionName`: the token name with the tokenizer's indicators
    * removed from both ends. The result is a piece of the name with a run
    * of indicators before it and a run of indicators after it, and it
    * neither starts nor ends with an indicator. */
  function GetOptionName(indicators: seq<string>, itemName: string): (r: string)
    ensures |r| <= |itemName|
    ensures Text.IsCore(r, itemName, indicators)
    ensures forall j :: 0 <= j < |indicators| && indicators[j] != "" ==>
              !Text.HasPrefix(r, indicators[j]) && !Text.EndsWith(r, indicators[j])
  {
    TrimEndKeepsNoPrefix(Text.TrimStartAny(itemName, indicators), indicators);
    Text.TrimAnyLeavesCore(itemName, indicators);
    Text.TrimAny(itemName, indicators)
  }

  /** With the tokenizer's default indicators `/`, `-` and `--`, one
    * indicator in front of a name that neither starts nor ends with an
    * indicator is removed, and the name is left. */
  lemma IndicatorThenPlainName(p: string, name: string)
    requires p in Options.NewTokenizeOptions().nameIndicators
    requires var ps := Options.NewTokenizeOptions().nameIndicators;
             forall j :: 0 <= j < |ps| && ps[j] != "" ==> !Text.HasPrefix(name, ps[j]) && !Text.EndsWith(name, ps[j])
    ensures GetOptionName(Options.NewTokenizeOptions().nameIndicators, p + name) == name
  {
    var ps := Options.NewTokenizeOptions().nameIndicators;
    StripDefaultIndicator(ps, p, name);
    SameStartSameName(ps, p + name, name);
    PlainNameUnchanged(ps, name);
  }

  /** Under the default indicators, any one indicator in front of a text
    * goes when the text removes its leading indicators. */
  lemma StripDefaultIndicator(ps: seq<string>, p: string, t: string)
    requires ps == Options.NewTokenizeOptions().nameIndicators && p in ps
    ensures Text.TrimStartAny(p + t, ps) == Text.TrimStartAny(t, ps)
  {
    if p == "/" {
      assert p == ps[0];
      StripSingleIndicator(ps, 0, t);
    } else if p == "-" {
      assert p == ps[1];
      StripSingleIndicator(ps, 1, t);
    } else {
      assert p == "--" && ps[1] == "-";
      DoubleIndicator(t);
      StripSingleIndicator(ps, 1, t);
      StripSingleIndicator(ps, 1, "-" + t);
    }
  }

  lemma DoubleIndicator(t: string)
    ensures "--" + t == "-" + ("-" + t)
  {
  }

  /** Under the default indicators, a one-character indicator in front of a
    * text goes first when the text removes its leading indicators. */
  lemma StripSingleIndicator(ps: seq<string>, k: nat, t: string)
    requires ps == Options.NewTokenizeOptions().nameIndicators && k < 2
    ensures Text.TrimStartAny(ps[k] + t, ps) == Text.TrimStartAny(t, ps)
  {
    var c := ps[k][0];
    assert ps[k] == [c];
    OneCharInFront(c, t);
    Text.FirstPrefixIs(ps[k] + t, ps, 0, k);
    Text.TrimStartAnyStep(ps[k] + t, ps, k);
  }

  lemma OneCharInFront(c: char, t: string)
    ensures Text.HasPrefix([c] + t, [c]) && ([c] + t)[1..] == t
    ensures forall d :: d != c ==> !Text.HasPrefix([c] + t, [d])
  {
    assert ([c] + t)[..1] == [c];
  }

  /** Names that lose their leading indicators alike have the same option
    * name. */
  lemma SameStartSameName(ps: seq<string>, a: string, b: string)
    requires Text.TrimStartAny(a, ps) == Text.TrimStartAny(b, ps)
    ensures GetOptionName(ps, a) == GetOptionName(ps, b)
  {
  }

  /** Cutting the end off a text that starts with no indicator leaves a
    * text that starts with none. */
  lemma TrimEndKeepsNoPrefix(t: string, ps: seq<string>)
    requires forall j :: 0 <= j < |ps| && ps[j] != "" ==> !Text.HasPrefix(t, ps[j])
    ensures forall j :: 0 <= j < |ps| && ps[j] != "" ==> !Text.HasPrefix(Text.TrimEndAny(t, ps), ps[j])
  {
  }

  /** A name that neither starts nor ends with an indicator is its own
    * option name; hence `GetOptionName` is idempotent. */
  lemma PlainNameUnchanged(indicators: seq<string>, name: string)
    requires forall j :: 0 <= j < |indicators| && indicators[j] != "" ==>
               !Text.HasPrefix(name, indicators[j]) && !Text.EndsWith(name, indicators[j])
    ensures GetOptionName(indicators, name) == name
  {
    assert Text.FirstPrefixFrom(name, indicators, 0).None?;
    assert Text.TrimStartAny(name, indicators) == name;
    assert Text.FirstSuffixFrom(name, indicators, 0).None?;
  }

  lemma GetOptionNameIdempotent(indicators: seq<string>, itemName: string)
    ensures GetOptionName(indicators, GetOptionName(indicators, itemName)) == GetOptionName(indicators, itemName)
  {
    PlainNameUnchanged(indicators, GetOptionName(indicators, itemName));
  }

  // ---------------------------------------------------------------------
  // The errors the parser reports

  /** The `InvalidOptionValue` error for an option token and the value it
    * was given; its construction throws when the trimmed name is blank. */
  function InvalidOptionValueError(indicators: seq<string>, itemName: string, value: Option<string>)
    : Result<ParseError, Exceptions.Exception>
  {
    var name := GetOptionName(indicators, itemName);
    NewParseError(InvalidOptionValue, name, value, Some(Resources.ValueIsInvalidForOption(value.OrElse(""), name)))
  }

  /** The tokens that failed tokenizing, in order. */
  function FailedTokens(items: seq<Tokens.TokenizeItem>): (r: seq<Tokens.TokenizeItem>)
    ensures forall j :: 0 <= j < |r| ==> Tokens.Failed(r[j])
    ensures r == [] <==> forall k :: 0 <= k < |items| ==> !Tokens.Failed(items[k])
    ensures forall k :: 0 <= k < |items| && Tokens.Failed(items[k]) ==> items[k] in r
    ensures forall j :: 0 <= j < |r| ==> r[j] in items
  {
    if items == [] then []
    else
      assert forall k :: 1 <= k < |items| ==> items[k] == items[1..][k - 1];
      (if Tokens.Failed(items[0]) then [items[0]] else []) + FailedTokens(items[1..])
  }

  /** Filtering keeps token order: the failed tokens of a concatenation are
    * those of its first part followed by those of its second. With `FailedTokensSingle`
    * this fixes the list completely. */
  lemma {:induction false} FailedTokensAppend(a: seq<Tokens.TokenizeItem>, b: seq<Tokens.TokenizeItem>)
    ensures FailedTokens(a + b) == FailedTokens(a) + FailedTokens(b)
  {
    if a == [] {
      assert a + b == b;
    } else {
      FailedTokensAppendStep(a, b);
      FailedTokensAppend(a[1..], b);
      AppendAssociative(if Tokens.Failed(a[0]) then [a[0]] else [], FailedTokens(a[1..]), FailedTokens(b));
    }
  }

  /** One step of `FailedTokensAppend`: the first token of `a` is kept or
    * dropped in front of the rest. */
  lemma FailedTokensAppendStep(a: seq<Tokens.TokenizeItem>, b: seq<Tokens.TokenizeItem>)
    requires a != []
    ensures var head := if Tokens.Failed(a[0]) then [a[0]] else [];
            FailedTokens(a + b) == head + FailedTokens(a[1..] + b)
            && FailedTokens(a) == head + FailedTokens(a[1..])
  {
    TailOfAppend(a, b);
  }

  /** A single token is kept exactly when it failed. */
  lemma FailedTokensSingle(x: Tokens.TokenizeItem)
    ensures FailedTokens([x]) == (if Tokens.Failed(x) then [x] else [])
  {
    assert [x][1..] == [];
  }

  /** The errors built, one per failed token, as `AddErrors` asks for them. */
  function FailedTokenErrors(items: seq<Tokens.TokenizeItem>): seq<Result<ParseError, Exceptions.Exception>>
  {
    var ft := FailedTokens(items);
    seq(|ft|, i requires 0 <= i < |ft| =>
      NewParseError(InvalidCommandArgsFormat, ft[i].name, ft[i].value, Some(ft[i].errorMessage)))
  }

  /** `CheckRequiredProperties`: one `RequiredOptionValue` error per name. */
  function RequiredErrors(names: seq<string>): seq<Result<ParseError, Exceptions.Exception>>
  {
    seq(|names|, i requires 0 <= i < |names| =>
      NewParseError(RequiredOptionValue, names[i], Some(Resources.NotApplicableValue),
                    Some(Resources.OptionIsMissingRequiredValue(names[i]))))
  }

  /** The error the two `catch` clauses add for an exception; building it
    * throws in turn when a format exception carries a blank item name. */
  function Caught(e: Exceptions.Exception): (r: Result<ParseError, Exceptions.Exception>)
    ensures !e.InvalidCommandArgsFormat? ==>
              r == Ok(ParseError(UnknownError, Resources.NotAvailableShortName, None, Exceptions.Message(e)))
    ensures e.InvalidCommandArgsFormat? ==>
              (r.Ok? <==> !Text.IsBlank(e.itemName))
              && (r.Ok? ==> r.value == ParseError(InvalidCommandArgsFormat, e.itemName, None, Exceptions.Message(e)))
  {
    if e.InvalidCommandArgsFormat? then
      NewParseError(InvalidCommandArgsFormat, e.itemName, None, Some(Exceptions.Message(e)))
    else
      assert !Text.IsBlank(Resources.NotAvailableShortName) by {
        assert Resources.NotAvailableShortName[0] !in Text.WhiteSpace;
      }
      NewParseError(UnknownError, Resources.NotAvailableShortName, None, Some(Exceptions.Message(e)))
  }

  // ---------------------------------------------------------------------
  // The binding pass

  /** What one turn of the loop does: move on by `advance` tokens with the
    * next parameter ordinal, possibly reporting an error, or throw. */
  datatype Step =
    | Next(advance: Advance, ordinal: nat, error: Option<ParseError>, fields: DS.Fields)
    | Throw(e: Exceptions.Exception)

  /** A turn consumes its own token, and at most the one after it. */
  type Advance = n: nat | 1 <= n <= 2 witness 1

  /** Going from `f` to `f2` changed no field outside the current scope and
    * only added to the assigned options. */
  ghost predicate Preserves(c: DS.Context, f: DS.Fields, f2: DS.Fields)
  {
    && (forall k: FieldKey :: k.scope != c.scope ==> Values.Read(f2.values, k) == Values.Read(f.values, k))
    && |f.recorded| <= |f2.recorded| && f2.recorded[..|f.recorded|] == f.recorded
  }

  lemma SetPreserves(c: DS.Context, f: DS.Fields, prop: Property, value: Option<string>)
    requires DS.Set(c, f, prop, value).Ok?
    ensures Preserves(c, f, DS.Set(c, f, prop, value).value)
  {
    var v := Values.Assign(c.platform, c.culture, c.handler, prop, value).value;
    if v.Some? {
      forall k: FieldKey | k.scope != c.scope {
        Values.StoreThenRead(f.values, FieldKey(c.scope, prop.name), v.value, k);
      }
    }
  }

  /** What a turn decides to do with its token before moving on by
    * `advance` tokens: set a property to a value, then carry on with
    * parameter ordinal `ordinal`; or add an error, which throws when it
    * cannot be built. The decision reads the declared properties and the
    * validity of values, never the fields already set. */
  datatype Action =
    | SetValue(prop: Property, value: Option<string>, advance: Advance, ordinal: nat)
    | AddError(error: Result<ParseError, Exceptions.Exception>, advance: Advance)

  /** Carrying out `a` on fields `f` with parameter ordinal `ordinal`: the
    * service's `SetPropertyValue`, or the result's `AddError`. */
  function Perform(c: DS.Context, f: DS.Fields, a: Action, ordinal: nat): (r: Step)
    ensures a.SetValue? ==>
              && (r.Throw? <==> DS.Set(c, f, a.prop, a.value).Err?)
              && (r.Next? ==> r.ordinal == a.ordinal && r.error.None?
                              && r.fields == DS.Set(c, f, a.prop, a.value).value)
    ensures a.AddError? ==>
              && (r.Throw? <==> a.error.Err?)
              && (r.Next? ==> r.ordinal == ordinal && r.error == Some(a.error.value) && r.fields == f)
    ensures r.Next? ==> r.advance == a.advance && Preserves(c, f, r.fields)
  {
    match a
    case SetValue(p, v, advance, next) =>
      (match DS.Set(c, f, p, v)
       case Err(e) => Throw(e)
       case Ok(f2) =>
         SetPreserves(c, f, p, v);
         Next(advance, next, None, f2))
    case AddError(error, advance) =>
      (match error
       case Err(e) => Throw(e)
       case Ok(err) => Next(advance, ordinal, Some(err), f))
  }

  /** The decision for a token naming option property `p`: with an inline
    * value, that value; without, the next token for a Boolean only when it
    * is a valid Boolean text, and for any other type always. */
  function OptionAction(c: DS.Context, indicators: seq<string>, item: Tokens.TokenizeItem, next: Option<string>,
                        p: Property, ordinal: nat): (a: Action)
    ensures a.SetValue? ==> a.prop == p && a.ordinal == ordinal
    ensures a.AddError? ==> a.error.Ok? ==> WellFormed(a.error.value)
  {
    if Text.IsNullOrEmpty(item.value) then
      if p.typ == TBoolean then
        if DS.Accepts(c, p, next) then SetValue(p, next, 2, ordinal)
        else SetValue(p, Some("true"), 1, ordinal)
      else if DS.Accepts(c, p, next) then SetValue(p, next, 2, ordinal)
      else AddError(InvalidOptionValueError(indicators, item.name, next), 2)
    else if DS.Accepts(c, p, item.value) then SetValue(p, item.value, 1, ordinal)
    else AddError(InvalidOptionValueError(indicators, item.name, item.value), 1)
  }

  /** The decision for a token that names no option: it is the value of the
    * parameter with the current ordinal, which moves on only when the value
    * is valid. */
  function ParameterAction(c: DS.Context, item: Tokens.TokenizeItem, ordinal: nat): (a: Action)
    ensures a.advance == 1
    ensures a.SetValue? ==> a.ordinal == ordinal + 1
    ensures a.AddError? ==> a.error.Ok? ==> WellFormed(a.error.value)
  {
    match DetermineParameterProperty(c.properties, ordinal)
    case None =>
      AddError(NewParseError(InvalidCommandArgsFormat, item.name, item.value, Some(NoOptionOrParameter)), 1)
    case Some(p) =>
      if DS.Accepts(c, p, Some(item.name)) then SetValue(p, Some(item.name), 1, ordinal + 1)
      else AddError(NewParseError(InvalidParameterValue, p.name, Some(item.name), None), 1)
  }

  /** The decision for token `item`, the token after it being named `next`,
    * with parameter ordinal `ordinal`. A blank name is reported through the
    * `ParseError` constructor, which refuses it. */
  function Decide(c: DS.Context, indicators: seq<string>, item: Tokens.TokenizeItem, next: Option<string>,
                  ordinal: nat): (a: Action)
    ensures Text.IsBlank(item.name) ==> a.AddError? && a.error.Err?
    ensures a.SetValue? ==> ordinal <= a.ordinal <= ordinal + 1
    ensures a.AddError? ==> a.error.Ok? ==> WellFormed(a.error.value)
  {
    if Text.IsBlank(item.name) then
      AddError(NewParseError(InvalidCommandArgsFormat, item.name, item.value, Some(RequiredNameMissing)), 1)
    else
      match DetermineOptionProperty(c.properties, item)
      case Some(p) => OptionAction(c, indicators, item, next, p, ordinal)
      case None => ParameterAction(c, item, ordinal)
  }

  /** The turn of the loop for token `item`. */
  function StepAt(c: DS.Context, indicators: seq<string>, item: Tokens.TokenizeItem, next: Option<string>,
                  ordinal: nat, f: DS.Fields): (r: Step)
    ensures r.Next? ==> ordinal <= r.ordinal <= ordinal + 1 && Preserves(c, f, r.fields)
                        && (r.error.Some? ==> WellFormed(r.error.value))
  {
    Perform(c, f, Decide(c, indicators, item, next, ordinal), ordinal)
  }

  /** The state of the pass when it stops: the errors reported, the service's
    * fields, and the exception that stopped it, if any. */
  datatype Pass = Pass(errors: seq<ParseError>, fields: DS.Fields, thrown: Option<Exceptions.Exception>)

  function Reported(error: Option<ParseError>): seq<ParseError>
  {
    if error.Some? then [error.value] else []
  }

  /** A way to take one turn of the loop. */
  type Turn = (Tokens.TokenizeItem, Option<string>, nat, DS.Fields) -> Step

  /** `nextItem?.Name`. */
  function NextName(items: seq<Tokens.TokenizeItem>, i: nat): Option<string>
  {
    if i + 1 < |items| then Some(items[i + 1].name) else None
  }

  /** The loop of `ParseItems` from token `i` on, taking turns with `turn`. */
  function Run(turn: Turn, items: seq<Tokens.TokenizeItem>, i: nat, ordinal: nat, errors: seq<ParseError>,
               f: DS.Fields): Pass
    decreases |items| - i
  {
    if i >= |items| then Pass(errors, f, None)
    else
      match turn(items[i], NextName(items, i), ordinal, f)
      case Throw(e) => Pass(errors, f, Some(e))
      case Next(advance, ord, error, f2) => Run(turn, items, i + advance, ord, errors + Reported(error), f2)
  }

  /** The parser's own turn. */
  function ParserTurn(c: DS.Context, indicators: seq<string>): Turn
  {
    (item: Tokens.TokenizeItem, next: Option<string>, ordinal: nat, f: DS.Fields) =>
      StepAt(c, indicators, item, next, ordinal, f)
  }

  /** The loop of `ParseItems` from token `i` on. */
  function BindFrom(c: DS.Context, indicators: seq<string>, items: seq<Tokens.TokenizeItem>, i: nat, ordinal: nat,
                    errors: seq<ParseError>, f: DS.Fields): Pass
  {
    Run(ParserTurn(c, indicators), items, i, ordinal, errors, f)
  }

  /** A turn that moves on continues the pass from where it leads. */
  lemma RunNext(turn: Turn, items: seq<Tokens.TokenizeItem>, i: nat, ordinal: nat, errors: seq<ParseError>,
                f: DS.Fields)
    requires i < |items| && turn(items[i], NextName(items, i), ordinal, f).Next?
    ensures var s := turn(items[i], NextName(items, i), ordinal, f);
            Run(turn, items, i, ordinal, errors, f) == Run(turn, items, i + s.advance, s.ordinal, errors + Reported(s.error), s.fields)
  {
  }

  /** A turn that throws ends the pass with what it had. */
  lemma RunThrow(turn: Turn, items: seq<Tokens.TokenizeItem>, i: nat, ordinal: nat, errors: seq<ParseError>,
                 f: DS.Fields)
    requires i < |items| && turn(items[i], NextName(items, i), ordinal, f).Throw?
    ensures Run(turn, items, i, ordinal, errors, f)
            == Pass(errors, f, Some(turn(items[i], NextName(items, i), ordinal, f).e))
  {
  }

  /** A turn of the parser that moves on continues the pass from where it
    * leads. */
  lemma BindFromNext(c: DS.Context, indicators: seq<string>, items: seq<Tokens.TokenizeItem>, i: nat, ordinal: nat,
                     errors: seq<ParseError>, f: DS.Fields)
    requires i < |items| && StepAt(c, indicators, items[i], NextName(items, i), ordinal, f).Next?
    ensures var s := StepAt(c, indicators, items[i], NextName(items, i), ordinal, f);
            BindFrom(c, indicators, items, i, ordinal, errors, f)
            == BindFrom(c, indicators, items, i + s.advance, s.ordinal, errors + Reported(s.error), s.fields)
  {
    var turn := ParserTurn(c, indicators);
    assert turn(items[i], NextName(items, i), ordinal, f) == StepAt(c, indicators, items[i], NextName(items, i), ordinal, f);
    RunNext(turn, items, i, ordinal, errors, f);
  }

  /** The loop of `ParseItems` keeps to the pass it started: a turn that
    * moves on leads to a state from which the same pass follows. */
  lemma BindFromAdvance(c: DS.Context, indicators: seq<string>, items: seq<Tokens.TokenizeItem>, i: nat, ordinal: nat,
                        errors: seq<ParseError>, f: DS.Fields, goal: Pass,
                        i2: nat, ordinal2: nat, errors2: seq<ParseError>, f2: DS.Fields)
    requires i < |items| && BindFrom(c, indicators, items, i, ordinal, errors, f) == goal
    requires var s := StepAt(c, indicators, items[i], NextName(items, i), ordinal, f);
             s.Next? && i2 == i + s.advance && ordinal2 == s.ordinal
             && errors2 == errors + Reported(s.error) && f2 == s.fields
    ensures BindFrom(c, indicators, items, i2, ordinal2, errors2, f2) == goal
  {
    var turn := ParserTurn(c, indicators);
    assert turn(items[i], NextName(items, i), ordinal, f) == StepAt(c, indicators, items[i], NextName(items, i), ordinal, f);
    RunNext(turn, items, i, ordinal, errors, f);
  }

  /** A turn of the parser that throws ends the pass with what it had. */
  lemma BindFromThrow(c: DS.Context, indicators: seq<string>, items: seq<Tokens.TokenizeItem>, i: nat, ordinal: nat,
                      errors: seq<ParseError>, f: DS.Fields)
    requires i < |items| && StepAt(c, indicators, items[i], NextName(items, i), ordinal, f).Throw?
    ensures BindFrom(c, indicators, items, i, ordinal, errors, f)
            == Pass(errors, f, Some(StepAt(c, indicators, items[i], NextName(items, i), ordinal, f).e))
  {
    var turn := ParserTurn(c, indicators);
    assert turn(items[i], NextName(items, i), ordinal, f) == StepAt(c, indicators, items[i], NextName(items, i), ordinal, f);
    RunThrow(turn, items, i, ordinal, errors, f);
  }

  /** The loop followed by `CheckRequiredProperties` and the `AddErrors` of
    * its errors. */
  function BindAndCheck(c: DS.Context, indicators: seq<string>, items: seq<Tokens.TokenizeItem>, f: DS.Fields): Pass
  {
    var p := BindFrom(c, indicators, items, 0, 1, [], f);
    if p.thrown.Some? then p
    else
      var e := Results.Enumerate(RequiredErrors(DS.UnassignedRequiredNames(c.properties, p.fields.recorded)));
      if e.1.Some? then Pass(p.errors, p.fields, e.1)
      else Pass(p.errors + e.0, p.fields, None)
  }

  /** What `ParseItems` leaves behind: the errors of its result, the
    * service's fields, and an exception that escapes it. */
  datatype Outcome = Outcome(errors: seq<ParseError>, fields: DS.Fields, escaped: Option<Exceptions.Exception>)

  /** The `catch` clauses: an exception adds one error, unless building that
    * error throws, which escapes. */
  function Conclude(p: Pass): Outcome
  {
    if p.thrown.None? then Outcome(p.errors, p.fields, None)
    else
      match Caught(p.thrown.value)
      case Err(e) => Outcome(p.errors, p.fields, Some(e))
      case Ok(err) => Outcome(p.errors + [err], p.fields, None)
  }

  predicate AnyFailed(items: seq<Tokens.TokenizeItem>)
  {
    exists k :: 0 <= k < |items| && Tokens.Failed(items[k])
  }

  /** `ParseItems` on a list of tokens: failed tokens are reported and
    * nothing is bound; otherwise the tokens are bound left to right and the
    * required options never assigned are reported. */
  function ParseOutcome(c: DS.Context, indicators: seq<string>, items: seq<Tokens.TokenizeItem>, f: DS.Fields): Outcome
  {
    Conclude(Attempt(c, indicators, items, f))
  }

  /** The pass of `ParseItems` before an exception it threw is caught. */
  function Attempt(c: DS.Context, indicators: seq<string>, items: seq<Tokens.TokenizeItem>, f: DS.Fields): Pass
  {
    if AnyFailed(items) then
      var e := Results.Enumerate(FailedTokenErrors(items));
      Pass(e.0, f, e.1)
    else
      BindAndCheck(c, indicators, items, f)
  }

  // ---------------------------------------------------------------------
  // Properties of the pass

  /** When any token failed tokenizing, no field is set and the required
    * options are not checked; if every failed token has a name, the errors
    * are exactly one `InvalidCommandArgsFormat` per failed token, in order. */
  lemma FailedTokensOnlyReported(c: DS.Context, indicators: seq<string>, items: seq<Tokens.TokenizeItem>, f: DS.Fields)
    requires AnyFailed(items)
    requires forall k :: 0 <= k < |items| && Tokens.Failed(items[k]) ==> !Text.IsBlank(items[k].name)
    ensures var o := ParseOutcome(c, indicators, items, f);
            var ft := FailedTokens(items);
            && o.fields == f && o.escaped.None?
            && |o.errors| == |ft|
            && forall i :: 0 <= i < |ft| ==>
                 o.errors[i] == ParseError(InvalidCommandArgsFormat, ft[i].name, ft[i].value, ft[i].errorMessage)
  {
    FailedTokensNamed(items);
  }

  /** Failed tokens that all have names give failed tokens with names. */
  lemma {:induction false} FailedTokensNamed(items: seq<Tokens.TokenizeItem>)
    requires forall k :: 0 <= k < |items| && Tokens.Failed(items[k]) ==> !Text.IsBlank(items[k].name)
    ensures forall j :: 0 <= j < |FailedTokens(items)| ==> !Text.IsBlank(FailedTokens(items)[j].name)
  {
    if items != [] {
      assert forall k :: 1 <= k < |items| ==> items[k] == items[1..][k - 1];
      FailedTokensNamed(items[1..]);
    }
  }

  /** A token with a blank name stops the pass: the `ParseError` constructor
    * throws, and the result ends with one `UnknownError`. */
  lemma BlankNameStopsPass(c: DS.Context, indicators: seq<string>, items: seq<Tokens.TokenizeItem>, i: nat,
                           ordinal: nat, errors: seq<ParseError>, f: DS.Fields)
    requires i < |items| && Text.IsBlank(items[i].name)
    ensures BindFrom(c, indicators, items, i, ordinal, errors, f)
            == Pass(errors, f, Some(Exceptions.Argument(Resources.MissingRequiredParameterValue, "itemName")))
    ensures Caught(Exceptions.Argument(Resources.MissingRequiredParameterValue, "itemName")).Ok?
    ensures Caught(Exceptions.Argument(Resources.MissingRequiredParameterValue, "itemName")).value.errorType == UnknownError
  {
  }

  /** The parameter ordinal moves on only when a token was bound to the
    * parameter with the current ordinal. */
  lemma OrdinalAdvancesOnBoundParameter(c: DS.Context, item: Tokens.TokenizeItem, ordinal: nat, f: DS.Fields)
    requires Perform(c, f, ParameterAction(c, item, ordinal), ordinal).Next?
    ensures var s := Perform(c, f, ParameterAction(c, item, ordinal), ordinal);
            var q := DetermineParameterProperty(c.properties, ordinal);
            && (s.ordinal == ordinal + 1 <==> q.Some? && DS.Accepts(c, q.value, Some(item.name)))
            && (s.ordinal == ordinal + 1 ==> s.error.None? && s.fields == DS.Set(c, f, q.value, Some(item.name)).value)
            && (s.ordinal == ordinal ==> s.error.Some? && s.fields == f)
  {
  }

  /** An option token without an inline value whose property is not a
    * Boolean always takes the next token as its value; an invalid one is
    * reported as an `InvalidOptionValue` carrying that token. */
  lemma NonBooleanOptionTakesNextToken(c: DS.Context, indicators: seq<string>, item: Tokens.TokenizeItem,
                                       next: Option<string>, p: Property, ordinal: nat, f: DS.Fields)
    requires Text.IsNullOrEmpty(item.value) && p.typ != TBoolean
    requires Perform(c, f, OptionAction(c, indicators, item, next, p, ordinal), ordinal).Next?
    ensures var s := Perform(c, f, OptionAction(c, indicators, item, next, p, ordinal), ordinal);
            && s.advance == 2
            && (s.error.Some? <==> !DS.Accepts(c, p, next))
            && (s.error.Some? ==> s.error.value.errorType == InvalidOptionValue && s.error.value.itemValue == next
                                  && s.fields == f)
  {
  }

  /** A Boolean option token without an inline value takes the next token
    * only when that is valid for a Boolean (a literal, or no token at all);
    * otherwise the option becomes true and the next token is read on its
    * own. Either way nothing is reported. */
  lemma BooleanOptionTakesValidNextOnly(c: DS.Context, indicators: seq<string>, item: Tokens.TokenizeItem,
                                        next: Option<string>, p: Property, ordinal: nat, f: DS.Fields)
    requires Text.IsNullOrEmpty(item.value) && p.typ == TBoolean
    ensures var s := Perform(c, f, OptionAction(c, indicators, item, next, p, ordinal), ordinal);
            && s.Next? && s.error.None?
            && (s.advance == 2 <==> DS.Accepts(c, p, next))
            && (s.advance == 1 ==> Values.Read(s.fields.values, FieldKey(c.scope, p.name)) == BoolValue(true))
  {
    if !DS.Accepts(c, p, next) {
      assert !Text.IsBlank("true") by {
        assert "true"[0] !in Text.WhiteSpace;
      }
      Values.BooleanAssignment(c.platform, c.culture, c.handler, p, "true");
      assert Values.IsBooleanTrueValue(Some("true")) by {
        assert Values.TrueLiterals[2] == "true";
      }
      Values.StoreThenRead(f.values, FieldKey(c.scope, p.name), BoolValue(true), FieldKey(c.scope, p.name));
    } else {
      if Text.IsNullOrWhiteSpace(next) {
        assert DS.Set(c, f, p, next).Ok?;
      } else {
        Values.BooleanAssignment(c.platform, c.culture, c.handler, p, next.value);
      }
    }
  }

  /** Every error `turn` reports has a name. */
  ghost predicate NamesErrors(turn: Turn)
  {
    forall item, next, ordinal, f :: turn(item, next, ordinal, f).Next? && turn(item, next, ordinal, f).error.Some?
      ==> WellFormed(turn(item, next, ordinal, f).error.value)
  }

  /** Every turn `turn` takes keeps to scope `c.scope`. */
  ghost predicate KeepsScope(turn: Turn, c: DS.Context)
  {
    forall item, next, ordinal, f :: turn(item, next, ordinal, f).Next? ==> Preserves(c, f, turn(item, next, ordinal, f).fields)
  }

  lemma {:induction false} RunErrorsNamed(turn: Turn, items: seq<Tokens.TokenizeItem>, i: nat, ordinal: nat,
                                          errors: seq<ParseError>, f: DS.Fields)
    requires NamesErrors(turn)
    requires forall e :: e in errors ==> WellFormed(e)
    ensures forall e :: e in Run(turn, items, i, ordinal, errors, f).errors ==> WellFormed(e)
    decreases |items| - i
  {
    if i < |items| {
      var s := turn(items[i], NextName(items, i), ordinal, f);
      if s.Next? {
        RunErrorsNamed(turn, items, i + s.advance, s.ordinal, errors + Reported(s.error), s.fields);
      }
    }
  }

  lemma {:induction false} RunKeepsScope(turn: Turn, c: DS.Context, items: seq<Tokens.TokenizeItem>, i: nat,
                                         ordinal: nat, errors: seq<ParseError>, f: DS.Fields)
    requires KeepsScope(turn, c)
    ensures Preserves(c, f, Run(turn, items, i, ordinal, errors, f).fields)
    decreases |items| - i
  {
    if i < |items| {
      var s := turn(items[i], NextName(items, i), ordinal, f);
      if s.Next? {
        RunKeepsScope(turn, c, items, i + s.advance, s.ordinal, errors + Reported(s.error), s.fields);
        var f3 := Run(turn, items, i + s.advance, s.ordinal, errors + Reported(s.error), s.fields).fields;
        assert f3.recorded[..|f.recorded|] == f3.recorded[..|s.fields.recorded|][..|f.recorded|];
      }
    }
  }

  /** Every error a pass reports has a name: errors are only ever built by
    * the `ParseError` constructor, which refuses blank names. */
  lemma PassErrorsNamed(c: DS.Context, indicators: seq<string>, items: seq<Tokens.TokenizeItem>, f: DS.Fields)
    ensures forall e :: e in BindFrom(c, indicators, items, 0, 1, [], f).errors ==> WellFormed(e)
  {
    RunErrorsNamed(ParserTurn(c, indicators), items, 0, 1, [], f);
  }

  /** The pass writes only fields of the current scope, and the list of
    * assigned options only grows. */
  lemma PassStaysInScope(c: DS.Context, indicators: seq<string>, items: seq<Tokens.TokenizeItem>, f: DS.Fields)
    ensures Preserves(c, f, BindFrom(c, indicators, items, 0, 1, [], f).fields)
  {
    RunKeepsScope(ParserTurn(c, indicators), c, items, 0, 1, [], f);
  }

  /** A parse that reports no error has assigned every required option of
    * the scope. */
  lemma NoErrorsMeansRequiredAssigned(c: DS.Context, indicators: seq<string>, items: seq<Tokens.TokenizeItem>,
                                      f: DS.Fields, k: nat)
    requires k < |c.properties| && IsRequired(c.properties[k])
    requires ParseOutcome(c, indicators, items, f).escaped.None? && ParseOutcome(c, indicators, items, f).errors == []
    ensures c.properties[k].option.value in ParseOutcome(c, indicators, items, f).fields.recorded
  {
    RequiredReportedUnlessAssigned(c, indicators, items, f, k);
  }

  /** Each required option of the scope that the tokens did not assign is
    * reported, by name, unless the pass stopped on an exception first. */
  lemma RequiredReportedUnlessAssigned(c: DS.Context, indicators: seq<string>, items: seq<Tokens.TokenizeItem>,
                                       f: DS.Fields, k: nat)
    requires k < |c.properties| && IsRequired(c.properties[k])
    ensures var o := ParseOutcome(c, indicators, items, f);
            var ov := c.properties[k].option.value;
            ov !in o.fields.recorded ==>
              || o.escaped.Some?
              || (exists e :: e in o.errors && (e.errorType == UnknownError || e.errorType == InvalidCommandArgsFormat))
              || ParseError(RequiredOptionValue, DS.NameOrNotApplicable(ov), Some(Resources.NotApplicableValue),
                            Resources.OptionIsMissingRequiredValue(DS.NameOrNotApplicable(ov))) in o.errors
  {
    if AnyFailed(items) {
      RequiredReportedAfterFailedTokens(c, indicators, items, f, k);
    } else {
      RequiredReportedAfterBinding(c, indicators, items, f, k);
    }
  }

  /** `RequiredReportedUnlessAssigned` for tokens of which one failed: the
    * first error, if building it does not throw, is an
    * `InvalidCommandArgsFormat` one. */
  lemma RequiredReportedAfterFailedTokens(c: DS.Context, indicators: seq<string>, items: seq<Tokens.TokenizeItem>,
                                          f: DS.Fields, k: nat)
    requires k < |c.properties| && IsRequired(c.properties[k]) && AnyFailed(items)
    ensures var o := ParseOutcome(c, indicators, items, f);
            var ov := c.properties[k].option.value;
            ov !in o.fields.recorded ==>
              || o.escaped.Some?
              || (exists e :: e in o.errors && (e.errorType == UnknownError || e.errorType == InvalidCommandArgsFormat))
  {
    var j :| 0 <= j < |items| && Tokens.Failed(items[j]);
    assert FailedTokens(items) != [];
  }

  /** `RequiredReportedUnlessAssigned` for tokens that all tokenized. */
  lemma RequiredReportedAfterBinding(c: DS.Context, indicators: seq<string>, items: seq<Tokens.TokenizeItem>,
                                     f: DS.Fields, k: nat)
    requires k < |c.properties| && IsRequired(c.properties[k]) && !AnyFailed(items)
    ensures var o := ParseOutcome(c, indicators, items, f);
            var ov := c.properties[k].option.value;
            ov !in o.fields.recorded ==>
              || o.escaped.Some?
              || (exists e :: e in o.errors && (e.errorType == UnknownError || e.errorType == InvalidCommandArgsFormat))
              || ParseError(RequiredOptionValue, DS.NameOrNotApplicable(ov), Some(Resources.NotApplicableValue),
                            Resources.OptionIsMissingRequiredValue(DS.NameOrNotApplicable(ov))) in o.errors
  {
    var p := BindFrom(c, indicators, items, 0, 1, [], f);
    if p.thrown.Some? {
      var o := ParseOutcome(c, indicators, items, f);
      assert Attempt(c, indicators, items, f) == p;
      var r := Caught(p.thrown.value);
      if r.Ok? {
        assert r.value in o.errors;
      }
    } else {
      RequiredReportedWhenBound(c, indicators, items, f, k);
    }
  }

  /** A binding pass that throws nothing reports each required option it
    * left unassigned, unless building those errors throws. */
  lemma RequiredReportedWhenBound(c: DS.Context, indicators: seq<string>, items: seq<Tokens.TokenizeItem>,
                                  f: DS.Fields, k: nat)
    requires k < |c.properties| && IsRequired(c.properties[k]) && !AnyFailed(items)
    requires BindFrom(c, indicators, items, 0, 1, [], f).thrown.None?
    ensures var o := ParseOutcome(c, indicators, items, f);
            var ov := c.properties[k].option.value;
            ov !in o.fields.recorded ==>
              || o.escaped.Some?
              || (exists e :: e in o.errors && e.errorType == UnknownError)
              || ParseError(RequiredOptionValue, DS.NameOrNotApplicable(ov), Some(Resources.NotApplicableValue),
                            Resources.OptionIsMissingRequiredValue(DS.NameOrNotApplicable(ov))) in o.errors
  {
    var ov := c.properties[k].option.value;
    var p := BindFrom(c, indicators, items, 0, 1, [], f);
    var names := DS.UnassignedRequiredNames(c.properties, p.fields.recorded);
    var e := Results.Enumerate(RequiredErrors(names));
    assert Attempt(c, indicators, items, f) == BindAndCheck(c, indicators, items, f);
    if e.1.None? {
      assert ParseOutcome(c, indicators, items, f) == Outcome(p.errors + e.0, p.fields, None);
      if ov !in p.fields.recorded {
        var u := DS.UnassignedRequired(c.properties, p.fields.recorded);
        assert ov in u;
        var m :| 0 <= m < |u| && u[m] == ov;
        assert names[m] == DS.NameOrNotApplicable(ov);
        assert RequiredErrors(names)[m] == Ok(e.0[m]);
        assert e.0[m] in p.errors + e.0;
      }
    } else {
      var o := ParseOutcome(c, indicators, items, f);
      assert Attempt(c, indicators, items, f) == Pass(p.errors, p.fields, e.1);
      var r := Caught(e.1.value);
      if r.Ok? {
        assert r.value in o.errors;
      }
    }
  }

  /** A required Boolean option given as the last token, without a value, is
    * set to true, yet reported as missing: a blank value does not count as
    * an assignment. */
  lemma RequiredBooleanLastIsReportedMissing(c: DS.Context, indicators: seq<string>, f: DS.Fields)
    requires c.scope.None? && f.recorded == []
    requires c.properties == [Verbose]
    ensures var o := ParseOutcome(c, indicators, [Tokens.NewItem("v", None)], f);
            && o.escaped.None?
            && Values.Read(o.fields.values, FieldKey(None, "Verbose")) == BoolValue(true)
            && o.errors == [ParseError(RequiredOptionValue, "v", Some(Resources.NotApplicableValue),
                                       Resources.OptionIsMissingRequiredValue("v"))]
  {
    var f2 := VerboseLastOutcome(c, indicators, f);
  }

  /** The error reporting `Verbose` as missing. */
  const VerboseMissing := ParseError(RequiredOptionValue, "v", Some(Resources.NotApplicableValue),
                                     Resources.OptionIsMissingRequiredValue("v"))

  lemma VerboseLastOutcome(c: DS.Context, indicators: seq<string>, f: DS.Fields) returns (f2: DS.Fields)
    requires c.scope.None? && f.recorded == []
    requires c.properties == [Verbose]
    ensures ParseOutcome(c, indicators, [Tokens.NewItem("v", None)], f) == Outcome([VerboseMissing], f2, None)
    ensures Values.Read(f2.values, FieldKey(None, "Verbose")) == BoolValue(true)
  {
    var items := [Tokens.NewItem("v", None)];
    f2 := VerboseLastPass(c, indicators, f);
    assert !Tokens.Failed(items[0]);
    VerboseCheck(c, indicators, f, f2);
  }

  /** The required check after that pass reports `Verbose`. */
  lemma VerboseCheck(c: DS.Context, indicators: seq<string>, f: DS.Fields, f2: DS.Fields)
    requires c.properties == [Verbose]
    requires BindFrom(c, indicators, [Tokens.NewItem("v", None)], 0, 1, [], f) == Pass([], f2, None)
    requires Verbose.option.value in DS.UnassignedRequired(c.properties, f2.recorded)
    ensures BindAndCheck(c, indicators, [Tokens.NewItem("v", None)], f) == Pass([VerboseMissing], f2, None)
  {
    VerboseReportedMissing(c.properties, f2.recorded);
  }

  /** The pass over the single token `v`: `Verbose` is set to true and stays
    * unassigned, and nothing is reported. */
  lemma VerboseLastPass(c: DS.Context, indicators: seq<string>, f: DS.Fields) returns (f2: DS.Fields)
    requires c.scope.None? && f.recorded == []
    requires c.properties == [Verbose]
    ensures BindFrom(c, indicators, [Tokens.NewItem("v", None)], 0, 1, [], f) == Pass([], f2, None)
    ensures Values.Read(f2.values, FieldKey(None, "Verbose")) == BoolValue(true)
    ensures Verbose.option.value in DS.UnassignedRequired(c.properties, f2.recorded)
  {
    var items := [Tokens.NewItem("v", None)];
    f2 := VerboseStep(c, indicators, f);
    assert NextName(items, 0) == None;
    BindFromNext(c, indicators, items, 0, 1, [], f);
  }

  /** The turn for token `v` with nothing after it. */
  lemma VerboseStep(c: DS.Context, indicators: seq<string>, f: DS.Fields) returns (f2: DS.Fields)
    requires c.scope.None? && f.recorded == []
    requires c.properties == [Verbose]
    ensures StepAt(c, indicators, Tokens.NewItem("v", None), None, 1, f) == Next(2, 1, None, f2)
    ensures Values.Read(f2.values, FieldKey(None, "Verbose")) == BoolValue(true)
    ensures Verbose.option.value in DS.UnassignedRequired(c.properties, f2.recorded)
  {
    DS.BlankBooleanStaysUnassigned(c, f, Verbose, None, 0);
    f2 := DS.Set(c, f, Verbose, None).value;
    VerboseTakesNoValue(c, indicators);
  }

  /** A required Boolean option named `v`. */
  const Verbose := Property("Verbose", TBoolean, Some(OptionAttr(Some("v"), None, None, "", "option", true)), None, None, [])

  /** The token `v`, last on the line, sets option `Verbose` to nothing and
    * takes the missing next token along. */
  lemma VerboseTakesNoValue(c: DS.Context, indicators: seq<string>)
    requires c.properties == [Verbose]
    ensures Decide(c, indicators, Tokens.NewItem("v", None), None, 1) == SetValue(Verbose, None, 2, 1)
  {
    assert !Text.IsBlank("v") by {
      assert "v"[0] !in Text.WhiteSpace;
    }
    assert OptionItemName("v") == "v" by {
      assert "v"[..1][0] == 'v';
      assert Text.FirstPrefixFrom("v", OptionIndicators, 0).None?;
    }
    assert Matches(Verbose, OptionNamed("v"));
  }

  /** While `Verbose` is unassigned the required check reports it by name. */
  lemma VerboseReportedMissing(props: seq<Property>, recorded: seq<OptionAttr>)
    requires props == [Verbose] && Verbose.option.value in DS.UnassignedRequired(props, recorded)
    ensures Results.Enumerate(RequiredErrors(DS.UnassignedRequiredNames(props, recorded)))
            == ([ParseError(RequiredOptionValue, "v", Some(Resources.NotApplicableValue),
                            Resources.OptionIsMissingRequiredValue("v"))], None)
  {
    var u := DS.UnassignedRequired(props, recorded);
    assert u == [Verbose.option.value];
    assert DS.UnassignedRequiredNames(props, recorded) == ["v"];
    assert !Text.IsBlank("v") by {
      assert "v"[0] !in Text.WhiteSpace;
    }
    var err := ParseError(RequiredOptionValue, "v", Some(Resources.NotApplicableValue),
                          Resources.OptionIsMissingRequiredValue("v"));
    assert RequiredErrors(["v"]) == [Ok(err)];
    var pending: seq<Result<ParseError, Exceptions.Exception>> := [Ok(err)];
    var e := Results.Enumerate(pending);
    assert e.1.None? && |e.0| == 1 && pending[0] == Ok(e.0[0]);
    assert e.0 == [err];
  }

  /** A lone indicator such as `-` is stripped to the empty name, which the
    * default (empty) alternative name of an option matches. */
  lemma LoneIndicatorMatchesDefaultAlternativeName(props: seq<Property>, o: OptionAttr)
    requires |props| > 0 && props[0].option == Some(o) && o.alternativeName == Some("")
    ensures DetermineOptionProperty(props, Tokens.NewItem("-", None)) == Some(props[0])
  {
    var r := OptionItemName("-");
    assert |r| <= 1;
    if |r| == 1 {
      assert r == "-"[0..];
      assert Text.HasPrefix(r, OptionIndicators[1]);
    }
    assert IsFirstMatch(props, 0, OptionNamed(""));
    FindIsFirst(props, 0, OptionNamed(""));
  }

  // ---------------------------------------------------------------------
  // The parser

  class CommandLineParser {
    /** `Tokenizer.Options.ArgumentOptionNameIndicators`. */
    const indicators: seq<string>
    const service: DS.DefaultPropertyService
    const options: Options.ParseOptions

    constructor (indicators: seq<string>, service: DS.DefaultPropertyService, options: Options.ParseOptions)
      ensures this.indicators == indicators && this.service == service && this.options == options
    {
      this.indicators := indicators;
      this.service := service;
      this.options := options;
    }

    /** The constructor: null tokenizer and property service throw, in that
      * order; the options are the defaults. */
    static method Create(tokenizer: Option<Options.TokenizeOptions>, service: Option<DS.DefaultPropertyService>,
                         currentUICulture: Options.Culture)
      returns (r: Result<CommandLineParser, Exceptions.Exception>)
      ensures tokenizer.None? ==> r == Err(Exceptions.ArgumentNull("tokenizer"))
      ensures tokenizer.Some? && service.None? ==> r == Err(Exceptions.ArgumentNull("propertyService"))
      ensures tokenizer.Some? && service.Some? ==>
                r.Ok? && fresh(r.value) && r.value.indicators == tokenizer.value.nameIndicators
                && r.value.service == service.value && r.value.options == Options.NewParseOptions(currentUICulture)
    {
      if tokenizer.None? {
        return Err(Exceptions.ArgumentNull("tokenizer"));
      }
      if service.None? {
        return Err(Exceptions.ArgumentNull("propertyService"));
      }
      var p := new CommandLineParser(tokenizer.value.nameIndicators, service.value, Options.NewParseOptions(currentUICulture));
      r := Ok(p);
    }

    /** The constructor with options: the two services are checked first. */
    static method CreateWithOptions(tokenizer: Option<Options.TokenizeOptions>, service: Option<DS.DefaultPropertyService>,
                                    options: Option<Options.ParseOptions>, currentUICulture: Options.Culture)
      returns (r: Result<CommandLineParser, Exceptions.Exception>)
      ensures tokenizer.None? ==> r == Err(Exceptions.ArgumentNull("tokenizer"))
      ensures tokenizer.Some? && service.None? ==> r == Err(Exceptions.ArgumentNull("propertyService"))
      ensures tokenizer.Some? && service.Some? && options.None? ==> r == Err(Exceptions.ArgumentNull("options"))
      ensures tokenizer.Some? && service.Some? && options.Some? ==>
                r.Ok? && fresh(r.value) && r.value.indicators == tokenizer.value.nameIndicators
                && r.value.service == service.value && r.value.options == options.value
    {
      r := Create(tokenizer, service, currentUICulture);
      if r.Ok? {
        if options.None? {
          return Err(Exceptions.ArgumentNull("options"));
        }
        var p := new CommandLineParser(tokenizer.value.nameIndicators, service.value, options.value);
        r := Ok(p);
      }
    }

    /** `ParseItems`: a null list throws; otherwise the result holds the
      * errors of `ParseOutcome` and the service holds its fields. */
    method ParseItems(items: Option<seq<Tokens.TokenizeItem>>) returns (r: Result<Results.ParseResult, Exceptions.Exception>)
      requires service.Valid()
      modifies service
      ensures service.Valid() && service.Ctx() == old(service.Ctx())
      ensures items.None? ==> r == Err(Exceptions.ArgumentNull("items")) && service.State() == old(service.State())
      ensures items.Some? ==>
                var o := ParseOutcome(old(service.Ctx()), indicators, items.value, old(service.State()));
                && service.State() == o.fields
                && (o.escaped.Some? ==> r == Err(o.escaped.value))
                && (o.escaped.None? ==> r.Ok? && fresh(r.value) && r.value.errors == o.errors
                                        && (r.value.status == Tokens.Failure <==> o.errors != []))
    {
      if items.None? {
        return Err(Exceptions.ArgumentNull("items"));
      }
      ghost var p := Attempt(service.Ctx(), indicators, items.value, service.State());
      var result := new Results.ParseResult(Tokens.Success);
      var thrown := AttemptItems(items.value, result);
      r := Finish(result, thrown, p.fields);
    }

    /** `ParseItems` up to the catch: failed tokens are reported, or else the
      * tokens are bound and the required options checked. */
    method AttemptItems(ts: seq<Tokens.TokenizeItem>, result: Results.ParseResult)
      returns (thrown: Option<Exceptions.Exception>)
      requires service.Valid() && result.Valid() && result.errors == [] && result.status == Tokens.Success
      modifies service, result
      ensures service.Valid() && service.Ctx() == old(service.Ctx())
      ensures var p := Attempt(old(service.Ctx()), indicators, ts, old(service.State()));
              && result.errors == p.errors && service.State() == p.fields && thrown == p.thrown
              && (thrown.None? ==> (result.status == Tokens.Failure <==> p.errors != []))
    {
      if exists k :: 0 <= k < |ts| && Tokens.Failed(ts[k]) {
        thrown := result.AddErrorsFrom(FailedTokenErrors(ts));
        assert AnyFailed(ts);
      } else {
        thrown := BindAndCheckItems(ts, result);
      }
    }

    /** The binding loop of `ParseItems` and the required check after it. */
    method BindAndCheckItems(items: seq<Tokens.TokenizeItem>, result: Results.ParseResult)
      returns (thrown: Option<Exceptions.Exception>)
      requires service.Valid() && result.errors == [] && result.status == Tokens.Success
      modifies service, result
      ensures service.Valid() && service.Ctx() == old(service.Ctx())
      ensures var p := BindAndCheck(old(service.Ctx()), indicators, items, old(service.State()));
              && result.errors == p.errors && service.State() == p.fields && thrown == p.thrown
              && (thrown.None? ==> (result.status == Tokens.Failure <==> p.errors != []))
    {
      thrown := BindItems(items, result);
      if thrown.None? {
        thrown := AddRequiredErrors(result);
      }
    }

    /** The loop of `ParseItems`, adding to `result` as it goes. */
    method BindItems(items: seq<Tokens.TokenizeItem>, result: Results.ParseResult) returns (thrown: Option<Exceptions.Exception>)
      requires service.Valid() && result.errors == [] && result.status == Tokens.Success
      modifies service, result
      ensures service.Valid() && service.Ctx() == old(service.Ctx())
      ensures var p := BindFrom(old(service.Ctx()), indicators, items, 0, 1, [], old(service.State()));
              && result.errors == p.errors && service.State() == p.fields && thrown == p.thrown
              && (result.status == Tokens.Failure <==> p.errors != [])
    {
      ghost var c := service.Ctx();
      ghost var errors: seq<ParseError> := [];
      ghost var f := service.State();
      ghost var goal := BindFrom(c, indicators, items, 0, 1, errors, f);
      var i: nat := 0;
      var ordinal: nat := 1;
      while i < |items|
        invariant service.Valid() && service.Ctx() == c
        invariant result.errors == errors && service.State() == f
        invariant BindFrom(c, indicators, items, i, ordinal, errors, f) == goal
        invariant result.status == Tokens.Failure <==> result.errors != []
        decreases |items| - i
      {
        i, ordinal, thrown := TakeTurnFrom(items, i, ordinal, result, c, errors, f, goal);
        if thrown.Some? {
          return;
        }
        errors, f := result.errors, service.State();
      }
      thrown := None;
    }

    /** The turn at token `i`, kept to the pass `goal` the loop started. */
    method TakeTurnFrom(items: seq<Tokens.TokenizeItem>, i: nat, ordinal: nat, result: Results.ParseResult,
                        ghost c: DS.Context, ghost errors: seq<ParseError>, ghost f: DS.Fields, ghost goal: Pass)
      returns (i2: nat, ordinal2: nat, thrown: Option<Exceptions.Exception>)
      requires i < |items| && service.Valid() && service.Ctx() == c
      requires result.errors == errors && service.State() == f
      requires BindFrom(c, indicators, items, i, ordinal, errors, f) == goal
      requires result.status == Tokens.Failure <==> result.errors != []
      modifies service, result
      ensures service.Valid() && service.Ctx() == c
      ensures thrown.Some? ==> goal == Pass(result.errors, service.State(), thrown)
      ensures thrown.None? ==> i < i2 && BindFrom(c, indicators, items, i2, ordinal2, result.errors, service.State()) == goal
      ensures result.status == Tokens.Failure <==> result.errors != []
    {
      var advance;
      advance, ordinal2, thrown := TakeTurn(items[i], NextName(items, i), ordinal, result);
      i2 := i + advance;
      if thrown.Some? {
        BindFromThrow(c, indicators, items, i, ordinal, errors, f);
      } else {
        BindFromAdvance(c, indicators, items, i, ordinal, errors, f, goal, i2, ordinal2, result.errors, service.State());
      }
    }

    /** One turn of the loop: a blank name throws; an option name binds the
      * option; anything else binds the next parameter. */
    method TakeTurn(item: Tokens.TokenizeItem, next: Option<string>, ordinal: nat, result: Results.ParseResult)
      returns (advance: nat, nextOrdinal: nat, thrown: Option<Exceptions.Exception>)
      requires service.Valid()
      modifies service, result
      ensures service.Valid() && service.Ctx() == old(service.Ctx())
      ensures var s := StepAt(old(service.Ctx()), indicators, item, next, ordinal, old(service.State()));
              && (s.Throw? ==> thrown == Some(s.e) && service.State() == old(service.State())
                               && result.errors == old(result.errors) && result.status == old(result.status))
              && (s.Next? ==> thrown.None? && advance == s.advance && nextOrdinal == s.ordinal
                              && service.State() == s.fields
                              && result.errors == old(result.errors) + Reported(s.error)
                              && result.status == if s.error.Some? then Tokens.Failure else old(result.status))
    {
      if Text.IsBlank(item.name) {
        return 1, ordinal, Some(NewParseError(InvalidCommandArgsFormat, item.name, item.value, Some(RequiredNameMissing)).error);
      }
      var prop := DetermineOptionProperty(service.Properties(), item);
      if prop.Some? {
        advance, thrown := BindOption(item, next, prop.value, ordinal, result);
        nextOrdinal := ordinal;
      } else {
        nextOrdinal, thrown := BindParameter(item, ordinal, result);
        advance := 1;
      }
    }

    /** One turn of the loop for an option token. */
    method BindOption(item: Tokens.TokenizeItem, next: Option<string>, p: Property, ordinal: nat,
                      result: Results.ParseResult) returns (advance: nat, thrown: Option<Exceptions.Exception>)
      requires service.Valid()
      modifies service, result
      ensures service.Valid() && service.Ctx() == old(service.Ctx())
      ensures var s := Perform(old(service.Ctx()), old(service.State()),
                               OptionAction(old(service.Ctx()), indicators, item, next, p, ordinal), ordinal);
              && (s.Throw? ==> thrown == Some(s.e) && service.State() == old(service.State())
                               && result.errors == old(result.errors) && result.status == old(result.status))
              && (s.Next? ==> thrown.None? && advance == s.advance && service.State() == s.fields
                              && result.errors == old(result.errors) + Reported(s.error)
                              && result.status == if s.error.Some? then Tokens.Failure else old(result.status))
    {
      if Text.IsNullOrEmpty(item.value) {
        advance, thrown := BindOptionToNext(item, next, p, ordinal, result);
      } else {
        thrown := BindOptionInline(item, next, p, ordinal, result);
        advance := 1;
      }
    }

    /** An option token without an inline value: a Boolean takes the next
      * token only when it is a valid Boolean text, any other type always. */
    method BindOptionToNext(item: Tokens.TokenizeItem, next: Option<string>, p: Property, ordinal: nat,
                            result: Results.ParseResult) returns (advance: nat, thrown: Option<Exceptions.Exception>)
      requires service.Valid() && Text.IsNullOrEmpty(item.value)
      modifies service, result
      ensures service.Valid() && service.Ctx() == old(service.Ctx())
      ensures var s := Perform(old(service.Ctx()), old(service.State()),
                               OptionAction(old(service.Ctx()), indicators, item, next, p, ordinal), ordinal);
              && (s.Throw? ==> thrown == Some(s.e) && service.State() == old(service.State())
                               && result.errors == old(result.errors) && result.status == old(result.status))
              && (s.Next? ==> thrown.None? && advance == s.advance && service.State() == s.fields
                              && result.errors == old(result.errors) + Reported(s.error)
                              && result.status == if s.error.Some? then Tokens.Failure else old(result.status))
    {
      ghost var c := service.Ctx();
      var valid := service.IsValidValue(Some(p), next);
      if p.typ == TBoolean {
        if valid.value {
          assert OptionAction(c, indicators, item, next, p, ordinal) == SetValue(p, next, 2, ordinal);
          thrown := service.SetPropertyValue(Some(p), next);
          advance := 2;
        } else {
          assert OptionAction(c, indicators, item, next, p, ordinal) == SetValue(p, Some("true"), 1, ordinal);
          thrown := service.SetPropertyValue(Some(p), Some("true"));
          advance := 1;
        }
      } else {
        if valid.value {
          assert OptionAction(c, indicators, item, next, p, ordinal) == SetValue(p, next, 2, ordinal);
          thrown := service.SetPropertyValue(Some(p), next);
        } else {
          assert OptionAction(c, indicators, item, next, p, ordinal)
                 == AddError(InvalidOptionValueError(indicators, item.name, next), 2);
          thrown := Report(result, InvalidOptionValueError(indicators, item.name, next));
        }
        advance := 2;
      }
    }

    /** An option token with an inline value: that value, or an error. */
    method BindOptionInline(item: Tokens.TokenizeItem, next: Option<string>, p: Property, ordinal: nat,
                            result: Results.ParseResult) returns (thrown: Option<Exceptions.Exception>)
      requires service.Valid() && !Text.IsNullOrEmpty(item.value)
      modifies service, result
      ensures service.Valid() && service.Ctx() == old(service.Ctx())
      ensures var s := Perform(old(service.Ctx()), old(service.State()),
                               OptionAction(old(service.Ctx()), indicators, item, next, p, ordinal), ordinal);
              && (s.Throw? ==> thrown == Some(s.e) && service.State() == old(service.State())
                               && result.errors == old(result.errors) && result.status == old(result.status))
              && (s.Next? ==> thrown.None? && s.advance == 1 && service.State() == s.fields
                              && result.errors == old(result.errors) + Reported(s.error)
                              && result.status == if s.error.Some? then Tokens.Failure else old(result.status))
    {
      ghost var c := service.Ctx();
      var valid := service.IsValidValue(Some(p), item.value);
      if valid.value {
        assert OptionAction(c, indicators, item, next, p, ordinal) == SetValue(p, item.value, 1, ordinal);
        thrown := service.SetPropertyValue(Some(p), item.value);
      } else {
        assert OptionAction(c, indicators, item, next, p, ordinal)
               == AddError(InvalidOptionValueError(indicators, item.name, item.value), 1);
        thrown := Report(result, InvalidOptionValueError(indicators, item.name, item.value));
      }
    }

    /** One turn of the loop for a token that names no option. */
    method BindParameter(item: Tokens.TokenizeItem, ordinal: nat, result: Results.ParseResult)
      returns (nextOrdinal: nat, thrown: Option<Exceptions.Exception>)
      requires service.Valid()
      modifies service, result
      ensures service.Valid() && service.Ctx() == old(service.Ctx())
      ensures var s := Perform(old(service.Ctx()), old(service.State()),
                               ParameterAction(old(service.Ctx()), item, ordinal), ordinal);
              && (s.Throw? ==> thrown == Some(s.e) && service.State() == old(service.State())
                               && result.errors == old(result.errors) && result.status == old(result.status))
              && (s.Next? ==> thrown.None? && nextOrdinal == s.ordinal && service.State() == s.fields
                              && result.errors == old(result.errors) + Reported(s.error)
                              && result.status == if s.error.Some? then Tokens.Failure else old(result.status))
    {
      nextOrdinal := ordinal;
      var param := DetermineParameterProperty(service.Properties(), ordinal);
      if param.None? {
        thrown := Report(result, NewParseError(InvalidCommandArgsFormat, item.name, item.value, Some(NoOptionOrParameter)));
      } else {
        var valid := service.IsValidValue(param, Some(item.name));
        if valid.value {
          thrown := service.SetPropertyValue(param, Some(item.name));
          nextOrdinal := ordinal + 1;
        } else {
          thrown := Report(result, NewParseError(InvalidParameterValue, param.value.name, Some(item.name), None));
        }
      }
    }

    /** `result.AddError(new ParseError(...))`: the construction may throw. */
    static method Report(result: Results.ParseResult, error: Result<ParseError, Exceptions.Exception>)
      returns (thrown: Option<Exceptions.Exception>)
      modifies result
      ensures error.Err? ==> thrown == Some(error.error) && result.errors == old(result.errors)
                             && result.status == old(result.status)
      ensures error.Ok? ==> thrown.None? && result.errors == old(result.errors) + [error.value]
                            && result.status == Tokens.Failure
    {
      if error.Err? {
        return Some(error.error);
      }
      thrown := result.AddError(Some(error.value));
    }

    /** `CheckRequiredProperties`: a new result with one error per required
      * option not assigned; building an error may throw. */
    method CheckRequiredProperties() returns (r: Result<Results.ParseResult, Exceptions.Exception>)
      ensures var e := Results.Enumerate(RequiredErrors(service.GetUnassignedRequiredOptionNames()));
              && (e.1.Some? ==> r == Err(e.1.value))
              && (e.1.None? ==> r.Ok? && fresh(r.value) && r.value.errors == e.0
                                && (r.value.status == Tokens.Failure <==> e.0 != []))
    {
      var result := new Results.ParseResult(Tokens.Success);
      var thrown := result.AddErrorsFrom(RequiredErrors(service.GetUnassignedRequiredOptionNames()));
      if thrown.Some? {
        return Err(thrown.value);
      }
      r := Ok(result);
    }

    /** The required check of `ParseItems`: when it reports errors they go
      * to `result`; an exception it throws is passed on. */
    method AddRequiredErrors(result: Results.ParseResult) returns (thrown: Option<Exceptions.Exception>)
      requires result.status == Tokens.Failure <==> result.errors != []
      modifies result
      ensures var e := Results.Enumerate(RequiredErrors(
                         DS.UnassignedRequiredNames(service.Ctx().properties, service.State().recorded)));
              && thrown == e.1
              && result.errors == old(result.errors) + (if e.1.None? then e.0 else [])
              && (result.status == Tokens.Failure <==> result.errors != [])
    {
      assert service.GetUnassignedRequiredOptionNames()
          == DS.UnassignedRequiredNames(service.Ctx().properties, service.State().recorded);
      var check := CheckRequiredProperties();
      if check.Err? {
        return Some(check.error);
      }
      if check.value.status == Tokens.Failure {
        var _ := result.AddErrors(Some(check.value.errors));
      }
      thrown := None;
    }

    /** The two `catch` clauses of `ParseItems`. */
    static method Finish(result: Results.ParseResult, thrown: Option<Exceptions.Exception>, ghost fields: DS.Fields)
      returns (r: Result<Results.ParseResult, Exceptions.Exception>)
      requires thrown.None? ==> (result.status == Tokens.Failure <==> result.errors != [])
      modifies result
      ensures var o := Conclude(Pass(old(result.errors), fields, thrown));
              && (o.escaped.Some? ==> r == Err(o.escaped.value))
              && (o.escaped.None? ==> r == Ok(result) && result.errors == o.errors
                                      && (result.status == Tokens.Failure <==> o.errors != []))
    {
      if thrown.Some? {
        var caught := Caught(thrown.value);
        if caught.Err? {
          return Err(caught.error);
        }
        var _ := result.AddError(Some(caught.value));
      }
      r := Ok(result);
    }
  }
}
