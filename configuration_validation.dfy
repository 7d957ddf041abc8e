/** The construction-time check of `DefaultPropertyService`
  * (`ValidateConfiguration` and its `Validate*` helpers). Properties are
  * visited in declaration order; a property counts as an option if it has an
  * option attribute, else as a parameter if it has a parameter attribute,
  * else as a command if it has a command attribute. One list of upper-case
  * option names is shared by the configuration and all its commands; the
  * parameter names and ordinals are collected per scope. The first violation
  * throws `InvalidConfigurationException`. */
module ConfigurationValidation {
  import opened Wrappers
  import Text
  import Resources
  import Exceptions
  import opened Schema

  predicate IsOptionProperty(p: Property)
  {
    p.option.Some?
  }

  predicate IsParameterProperty(p: Property)
  {
    p.option.None? && p.parameter.Some?
  }

  predicate IsCommandProperty(p: Property)
  {
    p.option.None? && p.parameter.None? && p.command.Some?
  }

  // ---------------------------------------------------------------------
  // What a well-formed configuration is

  /** The keys an option claims: its upper-case name and, when they are not
    * blank, its upper-case alternative and long names. */
  function OptionKeys(o: OptionAttr): seq<string>
  {
    [Text.Upper(o.name.OrElse(""))]
    + (if Text.IsNullOrWhiteSpace(o.alternativeName) then [] else [Text.Upper(o.alternativeName.value)])
    + (if Text.IsNullOrWhiteSpace(o.longName) then [] else [Text.Upper(o.longName.value)])
  }

  /** The option keys of a scope, those of its commands' options included,
    * in declaration order. */
  function Keys(props: seq<Property>): seq<string>
    decreases props
  {
    if props == [] then []
    else
      var p := props[0];
      assert p in props;
      (if IsOptionProperty(p) then OptionKeys(p.option.value)
       else if IsCommandProperty(p) then Keys(p.members)
       else [])
      + Keys(props[1..])
  }

  /** The key a parameter claims: its upper-case name unless that is blank. */
  function ParameterKey(a: ParameterAttr): seq<string>
  {
    if Text.IsNullOrWhiteSpace(a.name) then [] else [Text.Upper(a.name.value)]
  }

  function ParameterKeys(props: seq<Property>): seq<string>
  {
    if props == [] then []
    else
      (if IsParameterProperty(props[0]) then ParameterKey(props[0].parameter.value) else [])
      + ParameterKeys(props[1..])
  }

  function Ordinals(props: seq<Property>): seq<nat>
  {
    if props == [] then []
    else
      (if IsParameterProperty(props[0]) then [props[0].parameter.value.ordinalNumber] else [])
      + Ordinals(props[1..])
  }

  predicate OptionsNamed(props: seq<Property>)
  {
    forall i :: 0 <= i < |props| && IsOptionProperty(props[i]) ==> !Text.IsNullOrWhiteSpace(props[i].option.value.name)
  }

  predicate NoParameters(props: seq<Property>)
  {
    forall i :: 0 <= i < |props| ==> !IsParameterProperty(props[i])
  }

  predicate NoCommands(props: seq<Property>)
  {
    forall i :: 0 <= i < |props| ==> !IsCommandProperty(props[i])
  }

  /** The ordinal numbers are exactly 1, 2, ..., n. */
  ghost predicate InSequence(ords: seq<nat>)
  {
    forall x: nat :: x in ords <==> 1 <= x <= |ords|
  }

  ghost predicate ParametersWellFormed(props: seq<Property>)
  {
    Distinct(ParameterKeys(props)) && Distinct(Ordinals(props)) && InSequence(Ordinals(props))
  }

  /** A command's own properties: named options, well-formed parameters and
    * no nested command. */
  ghost predicate CommandWellFormed(members: seq<Property>)
  {
    OptionsNamed(members) && NoCommands(members) && ParametersWellFormed(members)
  }

  ghost predicate CommandsWellFormed(props: seq<Property>)
  {
    forall i :: 0 <= i < |props| && IsCommandProperty(props[i]) ==> CommandWellFormed(props[i].members)
  }

  /** A configuration the constructor accepts: every option is named, no
    * option key is claimed twice anywhere (ignoring case), the parameters of
    * every scope are well formed, commands do not nest, and a configuration
    * with commands has no parameters of its own. */
  ghost predicate WellFormedConfiguration(cfg: seq<Property>)
  {
    && OptionsNamed(cfg)
    && Distinct(Keys(cfg))
    && ParametersWellFormed(cfg)
    && (HasCommands(cfg) ==> NoParameters(cfg))
    && CommandsWellFormed(cfg)
  }

  // ---------------------------------------------------------------------
  // The checks, in the order the constructor performs them

  function Invalid(message: string): Exceptions.Exception
  {
    Exceptions.NewInvalidConfigurationWith(Some(message))
  }

  datatype NameKind = Name | AlternativeName | LongName

  function AlreadyUsed(kind: NameKind, n: string): string
  {
    match kind
    case Name => Resources.OptionNameAlreadyUsed(n)
    case AlternativeName => Resources.OptionAlternativeNameAlreadyUsed(n)
    case LongName => Resources.OptionLongNameAlreadyUsed(n)
  }

  /** Claim the upper-case form of an option name. */
  function ClaimKey(kind: NameKind, n: string, keys: seq<string>): Result<seq<string>, Exceptions.Exception>
  {
    if Text.Upper(n) in keys then Err(Invalid(AlreadyUsed(kind, n))) else Ok(keys + [Text.Upper(n)])
  }

  /** A name that is not blank is claimed; a blank one is skipped. */
  function ClaimIfPresent(kind: NameKind, n: Option<string>, keys: seq<string>): Result<seq<string>, Exceptions.Exception>
  {
    if Text.IsNullOrWhiteSpace(n) then Ok(keys) else ClaimKey(kind, n.value, keys)
  }

  /** `ValidateOptionName`, `ValidateOptionAlternativeName` and
    * `ValidateOptionLongName`: the name is required, and each name present
    * must be new. */
  function CheckOption(propertyName: string, o: OptionAttr, keys: seq<string>): Result<seq<string>, Exceptions.Exception>
  {
    if Text.IsNullOrWhiteSpace(o.name) then Err(Invalid(Resources.OptionIsMissingRequiredName(propertyName)))
    else
      match ClaimKey(Name, o.name.value, keys)
      case Err(e) => Err(e)
      case Ok(k1) =>
        match ClaimIfPresent(AlternativeName, o.alternativeName, k1)
        case Err(e) => Err(e)
        case Ok(k2) => ClaimIfPresent(LongName, o.longName, k2)
  }

  /** `ValidateParameter` and `ValidateParameterName`: no parameter beside
    * commands, and the name (when not blank) and the ordinal must be new in
    * their scope. */
  function CheckParameter(hasCommands: bool, a: ParameterAttr, names: seq<string>, ords: seq<nat>)
    : Result<(seq<string>, seq<nat>), Exceptions.Exception>
  {
    if hasCommands then Err(Invalid(Resources.ParametersNotAllowedToCombineWithCommands))
    else if !Text.IsNullOrWhiteSpace(a.name) && Text.Upper(a.name.value) in names then
      Err(Invalid(Resources.ParameterNameAlreadyUsed(a.name.value)))
    else if a.ordinalNumber in ords then Err(Invalid(Resources.ParameterOrdinalAlreadyUsed(a.ordinalNumber)))
    else Ok((names + ParameterKey(a), ords + [a.ordinalNumber]))
  }

  function Min(s: seq<nat>): (m: nat)
    requires s != []
    ensures m in s && forall x :: x in s ==> m <= x
  {
    if |s| == 1 then s[0]
    else
      var m := Min(s[1..]);
      assert forall x :: x in s ==> x == s[0] || x in s[1..];
      if s[0] <= m then s[0] else m
  }

  function Max(s: seq<nat>): (m: nat)
    requires s != []
    ensures m in s && forall x :: x in s ==> x <= m
  {
    if |s| == 1 then s[0]
    else
      var m := Max(s[1..]);
      assert forall x :: x in s ==> x == s[0] || x in s[1..];
      if s[0] >= m then s[0] else m
  }

  /** `ValidateParameterOrdinals`: once sorted, the ordinals must start at 1
    * and end at their count. */
  function CheckOrdinals(ords: seq<nat>): Option<Exceptions.Exception>
  {
    if ords != [] && (Min(ords) != 1 || Max(ords) != |ords|) then
      Some(Invalid(Resources.ParameterOrdinalNotUsedInSequence))
    else None
  }

  /** The check of the remaining properties `rest` of a scope, given the keys,
    * parameter names and ordinals claimed so far: the claimed option keys
    * after the scope, or the first violation. A command's properties form a
    * scope of their own (in which `HasCommands` is false); a command inside a
    * command is refused. */
  function CheckScope(inCommand: bool, hasCommands: bool, rest: seq<Property>, keys: seq<string>,
                      names: seq<string>, ords: seq<nat>): Result<seq<string>, Exceptions.Exception>
    decreases rest
  {
    if rest == [] then
      match CheckOrdinals(ords)
      case Some(e) => Err(e)
      case None => Ok(keys)
    else
      var p := rest[0];
      assert p in rest;
      if IsOptionProperty(p) then
        match CheckOption(p.name, p.option.value, keys)
        case Err(e) => Err(e)
        case Ok(k) => CheckScope(inCommand, hasCommands, rest[1..], k, names, ords)
      else if IsParameterProperty(p) then
        match CheckParameter(hasCommands, p.parameter.value, names, ords)
        case Err(e) => Err(e)
        case Ok(s) => CheckScope(inCommand, hasCommands, rest[1..], keys, s.0, s.1)
      else if IsCommandProperty(p) then
        if inCommand then Err(Invalid(Resources.NestedCommandsAreNotAllowed))
        else
          match CheckScope(true, false, p.members, keys, [], [])
          case Err(e) => Err(e)
          case Ok(k) => CheckScope(inCommand, hasCommands, rest[1..], k, names, ords)
      else CheckScope(inCommand, hasCommands, rest[1..], keys, names, ords)
  }

  /** The exception the constructor throws for a configuration, if any. */
  function ValidationError(cfg: seq<Property>): Option<Exceptions.Exception>
  {
    match CheckScope(false, HasCommands(cfg), cfg, [], [], [])
    case Err(e) => Some(e)
    case Ok(_) => None
  }

  // ---------------------------------------------------------------------
  // The checks accept exactly the well-formed configurations

  lemma CheckOptionIff(propertyName: string, o: OptionAttr, keys: seq<string>)
    requires Distinct(keys)
    ensures CheckOption(propertyName, o, keys).Ok?
            <==> !Text.IsNullOrWhiteSpace(o.name) && Distinct(keys + OptionKeys(o))
    ensures CheckOption(propertyName, o, keys).Ok? ==> CheckOption(propertyName, o, keys).value == keys + OptionKeys(o)
  {
    if !Text.IsNullOrWhiteSpace(o.name) {
      var k1 := keys + [Text.Upper(o.name.value)];
      var a := if Text.IsNullOrWhiteSpace(o.alternativeName) then [] else [Text.Upper(o.alternativeName.value)];
      var l := if Text.IsNullOrWhiteSpace(o.longName) then [] else [Text.Upper(o.longName.value)];
      assert keys + OptionKeys(o) == k1 + a + l;
      DistinctSnoc(keys, Text.Upper(o.name.value));
      if Distinct(k1 + a + l) {
        DistinctPrefix(k1 + a, l);
        DistinctPrefix(k1, a);
      }
      if Distinct(k1) {
        if a != [] {
          DistinctSnoc(k1, a[0]);
        }
        if Distinct(k1 + a) && l != [] {
          DistinctSnoc(k1 + a, l[0]);
        }
      }
    }
  }

  lemma CheckParameterIff(hasCommands: bool, a: ParameterAttr, names: seq<string>, ords: seq<nat>)
    requires Distinct(names) && Distinct(ords)
    ensures CheckParameter(hasCommands, a, names, ords).Ok?
            <==> !hasCommands && Distinct(names + ParameterKey(a)) && Distinct(ords + [a.ordinalNumber])
    ensures CheckParameter(hasCommands, a, names, ords).Ok? ==>
              CheckParameter(hasCommands, a, names, ords).value == (names + ParameterKey(a), ords + [a.ordinalNumber])
  {
    if !Text.IsNullOrWhiteSpace(a.name) {
      DistinctSnoc(names, Text.Upper(a.name.value));
    } else {
      assert names + ParameterKey(a) == names;
    }
    DistinctSnoc(ords, a.ordinalNumber);
  }

  function Elements(s: seq<nat>): set<nat>
  {
    set x | x in s
  }

  lemma {:induction false} DistinctCardinality(s: seq<nat>)
    requires Distinct(s)
    ensures |Elements(s)| == |s|
  {
    if s != [] {
      var t := s[..|s| - 1];
      var y := s[|s| - 1];
      assert Distinct(t);
      DistinctCardinality(t);
      assert s == t + [y];
      assert y !in t;
      assert y !in Elements(t);
      assert Elements(s) == Elements(t) + {y};
    }
  }

  /** The numbers 1 to n. */
  function Range(n: nat): (r: set<nat>)
    ensures forall x :: x in r <==> 1 <= x <= n
    ensures |r| == n
  {
    if n == 0 then {} else Range(n - 1) + {n}
  }

  lemma SubsetOfSameSize(a: set<nat>, b: set<nat>)
    requires a <= b && |a| == |b|
    ensures a == b
  {
    if a != b {
      var y :| y in b && y !in a;
      assert a <= b - {y};
      assert |b - {y}| == |b| - 1;
      SubsetCardinality(a, b - {y});
    }
  }

  lemma {:induction false} SubsetCardinality(a: set<nat>, b: set<nat>)
    requires a <= b
    ensures |a| <= |b|
    decreases a
  {
    if a != {} {
      var y :| y in a;
      SubsetCardinality(a - {y}, b - {y});
    }
  }

  /** For ordinals without repetitions, the check passes exactly when they
    * are 1, 2, ..., n. */
  lemma OrdinalsIff(ords: seq<nat>)
    requires Distinct(ords)
    ensures CheckOrdinals(ords).None? <==> InSequence(ords)
  {
    if ords != [] {
      var n := |ords|;
      if InSequence(ords) {
        assert 1 in ords && n in ords;
      }
      if Min(ords) == 1 && Max(ords) == n {
        var a := Elements(ords);
        var b := Range(n);
        DistinctCardinality(ords);
        assert a <= b by {
          forall x | x in a ensures x in b {
            assert Min(ords) <= x <= Max(ords);
          }
        }
        SubsetOfSameSize(a, b);
        forall x: nat ensures x in ords <==> 1 <= x <= n {
          assert x in b <==> 1 <= x <= n;
        }
      }
    }
  }

  /** The conditions on a scope's remaining properties under which its check
    * passes, given what has been claimed already. */
  ghost predicate ScopeOkFrom(inCommand: bool, hasCommands: bool, rest: seq<Property>, keys: seq<string>,
                        names: seq<string>, ords: seq<nat>)
  {
    && OptionsNamed(rest)
    && (hasCommands ==> NoParameters(rest))
    && (inCommand ==> NoCommands(rest))
    && (!inCommand ==> CommandsWellFormed(rest))
    && Distinct(keys + Keys(rest))
    && Distinct(names + ParameterKeys(rest))
    && Distinct(ords + Ordinals(rest))
    && InSequence(ords + Ordinals(rest))
  }

  /** The per-property conditions split into the first property and the rest. */
  lemma SplitFirst(rest: seq<Property>)
    requires rest != []
    ensures OptionsNamed(rest) <==>
              (IsOptionProperty(rest[0]) ==> !Text.IsNullOrWhiteSpace(rest[0].option.value.name))
              && OptionsNamed(rest[1..])
    ensures NoParameters(rest) <==> !IsParameterProperty(rest[0]) && NoParameters(rest[1..])
    ensures NoCommands(rest) <==> !IsCommandProperty(rest[0]) && NoCommands(rest[1..])
    ensures CommandsWellFormed(rest) <==>
              (IsCommandProperty(rest[0]) ==> CommandWellFormed(rest[0].members))
              && CommandsWellFormed(rest[1..])
  {
    assert forall i :: 0 < i < |rest| ==> rest[i] == rest[1..][i - 1];
  }

  lemma {:induction false} ScopeIff(inCommand: bool, hasCommands: bool, rest: seq<Property>, keys: seq<string>,
                                    names: seq<string>, ords: seq<nat>)
    requires Distinct(keys) && Distinct(names) && Distinct(ords)
    ensures CheckScope(inCommand, hasCommands, rest, keys, names, ords).Ok?
            <==> ScopeOkFrom(inCommand, hasCommands, rest, keys, names, ords)
    ensures CheckScope(inCommand, hasCommands, rest, keys, names, ords).Ok? ==>
              CheckScope(inCommand, hasCommands, rest, keys, names, ords).value == keys + Keys(rest)
    decreases rest, 1
  {
    if rest == [] {
      OrdinalsIff(ords);
      assert keys + Keys(rest) == keys && names + ParameterKeys(rest) == names && ords + Ordinals(rest) == ords;
    } else {
      var p := rest[0];
      var tail := rest[1..];
      assert p in rest;
      SplitFirst(rest);
      if IsOptionProperty(p) {
        OptionStep(inCommand, hasCommands, rest, keys, names, ords);
      } else if IsParameterProperty(p) {
        ParameterStep(inCommand, hasCommands, rest, keys, names, ords);
      } else if IsCommandProperty(p) {
        if !inCommand {
          CommandStep(hasCommands, rest, keys, names, ords);
        }
      } else {
        assert Keys(rest) == Keys(tail) && ParameterKeys(rest) == ParameterKeys(tail) && Ordinals(rest) == Ordinals(tail);
        ScopeIff(inCommand, hasCommands, tail, keys, names, ords);
      }
    }
  }

  lemma {:induction false} OptionStep(inCommand: bool, hasCommands: bool, rest: seq<Property>, keys: seq<string>,
                                      names: seq<string>, ords: seq<nat>)
    requires Distinct(keys) && Distinct(names) && Distinct(ords)
    requires rest != [] && IsOptionProperty(rest[0])
    ensures CheckScope(inCommand, hasCommands, rest, keys, names, ords).Ok?
            <==> ScopeOkFrom(inCommand, hasCommands, rest, keys, names, ords)
    ensures CheckScope(inCommand, hasCommands, rest, keys, names, ords).Ok? ==>
              CheckScope(inCommand, hasCommands, rest, keys, names, ords).value == keys + Keys(rest)
    decreases rest, 0
  {
    var p := rest[0];
    var tail := rest[1..];
    var o := p.option.value;
    SplitFirst(rest);
    CheckOptionIff(p.name, o, keys);
    assert Keys(rest) == OptionKeys(o) + Keys(tail);
    assert keys + Keys(rest) == (keys + OptionKeys(o)) + Keys(tail);
    assert ParameterKeys(rest) == ParameterKeys(tail) && Ordinals(rest) == Ordinals(tail);
    if Distinct(keys + Keys(rest)) {
      DistinctPrefix(keys + OptionKeys(o), Keys(tail));
    }
    if CheckOption(p.name, o, keys).Ok? {
      ScopeIff(inCommand, hasCommands, tail, keys + OptionKeys(o), names, ords);
    }
  }

  lemma {:induction false} ParameterStep(inCommand: bool, hasCommands: bool, rest: seq<Property>, keys: seq<string>,
                                         names: seq<string>, ords: seq<nat>)
    requires Distinct(keys) && Distinct(names) && Distinct(ords)
    requires rest != [] && IsParameterProperty(rest[0])
    ensures CheckScope(inCommand, hasCommands, rest, keys, names, ords).Ok?
            <==> ScopeOkFrom(inCommand, hasCommands, rest, keys, names, ords)
    ensures CheckScope(inCommand, hasCommands, rest, keys, names, ords).Ok? ==>
              CheckScope(inCommand, hasCommands, rest, keys, names, ords).value == keys + Keys(rest)
    decreases rest, 0
  {
    var a := rest[0].parameter.value;
    ParameterSplit(inCommand, hasCommands, rest, keys, names, ords);
    CheckParameterIff(hasCommands, a, names, ords);
    if CheckParameter(hasCommands, a, names, ords).Ok? {
      ScopeIff(inCommand, hasCommands, rest[1..], keys, names + ParameterKey(a), ords + [a.ordinalNumber]);
      assert Keys(rest) == Keys(rest[1..]);
    }
  }

  lemma ParameterSplit(inCommand: bool, hasCommands: bool, rest: seq<Property>, keys: seq<string>,
                       names: seq<string>, ords: seq<nat>)
    requires rest != [] && IsParameterProperty(rest[0])
    ensures var a := rest[0].parameter.value;
            ScopeOkFrom(inCommand, hasCommands, rest, keys, names, ords)
            <==> && !hasCommands
                 && Distinct(names + ParameterKey(a))
                 && Distinct(ords + [a.ordinalNumber])
                 && ScopeOkFrom(inCommand, hasCommands, rest[1..], keys, names + ParameterKey(a), ords + [a.ordinalNumber])
  {
    var tail := rest[1..];
    var a := rest[0].parameter.value;
    SplitFirst(rest);
    assert Keys(rest) == Keys(tail);
    assert names + ParameterKeys(rest) == (names + ParameterKey(a)) + ParameterKeys(tail);
    assert ords + Ordinals(rest) == (ords + [a.ordinalNumber]) + Ordinals(tail);
    if Distinct(names + ParameterKeys(rest)) {
      DistinctPrefix(names + ParameterKey(a), ParameterKeys(tail));
    }
    if Distinct(ords + Ordinals(rest)) {
      DistinctPrefix(ords + [a.ordinalNumber], Ordinals(tail));
    }
  }

  lemma {:induction false} CommandStep(hasCommands: bool, rest: seq<Property>, keys: seq<string>,
                                       names: seq<string>, ords: seq<nat>)
    requires Distinct(keys) && Distinct(names) && Distinct(ords)
    requires rest != [] && IsCommandProperty(rest[0])
    ensures CheckScope(false, hasCommands, rest, keys, names, ords).Ok?
            <==> ScopeOkFrom(false, hasCommands, rest, keys, names, ords)
    ensures CheckScope(false, hasCommands, rest, keys, names, ords).Ok? ==>
              CheckScope(false, hasCommands, rest, keys, names, ords).value == keys + Keys(rest)
    decreases rest, 0
  {
    var p := rest[0];
    assert p in rest;
    CommandSplit(hasCommands, rest, keys, names, ords);
    ScopeIff(true, false, p.members, keys, [], []);
    if CheckScope(true, false, p.members, keys, [], []).Ok? {
      ScopeIff(false, hasCommands, rest[1..], keys + Keys(p.members), names, ords);
    }
  }

  /** Outside a command, the conditions on a scope starting with a command
    * are those on the command's own scope and those on the rest, which
    * starts from the keys the command claimed. */
  lemma CommandSplit(hasCommands: bool, rest: seq<Property>, keys: seq<string>,
                     names: seq<string>, ords: seq<nat>)
    requires rest != [] && IsCommandProperty(rest[0])
    ensures keys + Keys(rest) == (keys + Keys(rest[0].members)) + Keys(rest[1..])
    ensures var m := rest[0].members;
            ScopeOkFrom(false, hasCommands, rest, keys, names, ords)
            <==> && ScopeOkFrom(true, false, m, keys, [], [])
                 && ScopeOkFrom(false, hasCommands, rest[1..], keys + Keys(m), names, ords)
  {
    var m := rest[0].members;
    SplitFirst(rest);
    CommandClaims(rest, keys);
    assert [] + ParameterKeys(m) == ParameterKeys(m) && [] + Ordinals(m) == Ordinals(m);
    if Distinct(keys + Keys(rest)) {
      DistinctPrefix(keys + Keys(m), Keys(rest[1..]));
    }
  }

  /** A command claims its members' option keys and none of the scope's
    * parameter keys or ordinals. */
  lemma CommandClaims(rest: seq<Property>, keys: seq<string>)
    requires rest != [] && IsCommandProperty(rest[0])
    ensures keys + Keys(rest) == (keys + Keys(rest[0].members)) + Keys(rest[1..])
    ensures ParameterKeys(rest) == ParameterKeys(rest[1..]) && Ordinals(rest) == Ordinals(rest[1..])
  {
    assert Keys(rest) == Keys(rest[0].members) + Keys(rest[1..]);
  }

  /** The constructor throws exactly for configurations that are not well
    * formed. */
  lemma ValidationIff(cfg: seq<Property>)
    ensures ValidationError(cfg).None? <==> WellFormedConfiguration(cfg)
  {
    ScopeIff(false, HasCommands(cfg), cfg, [], [], []);
    assert [] + Keys(cfg) == Keys(cfg);
    assert [] + ParameterKeys(cfg) == ParameterKeys(cfg);
    assert [] + Ordinals(cfg) == Ordinals(cfg);
  }

  // ---------------------------------------------------------------------
  // The imperative check

  /** `ValidateParameterOrdinals`. Instead of sorting the list in place, the
    * loop finds its smallest and largest element: what the sorted list holds
    * first and last. */
  method ValidateParameterOrdinals(ords: seq<nat>) returns (error: Option<Exceptions.Exception>)
    ensures error == CheckOrdinals(ords)
  {
    if ords == [] {
      return None;
    }
    var lo, hi := ords[0], ords[0];
    var i := 1;
    while i < |ords|
      invariant 1 <= i <= |ords|
      invariant lo == Min(ords[..i]) && hi == Max(ords[..i])
    {
      assert ords[..i + 1] == ords[..i] + [ords[i]];
      MinMaxSnoc(ords[..i], ords[i]);
      if ords[i] < lo {
        lo := ords[i];
      }
      if ords[i] > hi {
        hi := ords[i];
      }
      i := i + 1;
    }
    assert ords[..i] == ords;
    if lo != 1 || hi != |ords| {
      error := Some(Invalid(Resources.ParameterOrdinalNotUsedInSequence));
    } else {
      error := None;
    }
  }

  lemma MinMaxSnoc(s: seq<nat>, x: nat)
    requires s != []
    ensures Min(s + [x]) == if x < Min(s) then x else Min(s)
    ensures Max(s + [x]) == if x > Max(s) then x else Max(s)
  {
    var t := s + [x];
    assert forall y :: y in t <==> y in s || y == x;
    var lo := if x < Min(s) then x else Min(s);
    assert lo in t;
    assert Min(t) <= lo;
    assert Min(t) in s || Min(t) == x;
    var hi := if x > Max(s) then x else Max(s);
    assert hi in t;
    assert hi <= Max(t);
    assert Max(t) in s || Max(t) == x;
  }

  /** The properties of one command, checked with their own parameter lists
    * and the shared option keys. */
  method ValidateCommand(members: seq<Property>, keys: seq<string>) returns (r: Result<seq<string>, Exceptions.Exception>)
    ensures r == CheckScope(true, false, members, keys, [], [])
  {
    var claimed, names, ords := keys, [], [];
    var j := 0;
    while j < |members|
      invariant 0 <= j <= |members|
      invariant CheckScope(true, false, members[j..], claimed, names, ords) == CheckScope(true, false, members, keys, [], [])
    {
      var p := members[j];
      assert members[j..][0] == p && members[j..][1..] == members[j + 1..];
      if IsOptionProperty(p) {
        var c := CheckOption(p.name, p.option.value, claimed);
        if c.Err? {
          return Err(c.error);
        }
        claimed := c.value;
      } else if IsParameterProperty(p) {
        var c := CheckParameter(false, p.parameter.value, names, ords);
        if c.Err? {
          return Err(c.error);
        }
        names, ords := c.value.0, c.value.1;
      } else if IsCommandProperty(p) {
        return Err(Invalid(Resources.NestedCommandsAreNotAllowed));
      }
      j := j + 1;
    }
    var e := ValidateParameterOrdinals(ords);
    if e.Some? {
      r := Err(e.value);
    } else {
      r := Ok(claimed);
    }
  }

  /** `ValidateConfiguration`: the exception the constructor throws, or None. */
  method ValidateConfiguration(cfg: seq<Property>) returns (error: Option<Exceptions.Exception>)
    ensures error == ValidationError(cfg)
  {
    var hasCommands := exists k :: 0 <= k < |cfg| && cfg[k].command.Some?;
    var keys, names, ords := [], [], [];
    var k := 0;
    while k < |cfg|
      invariant 0 <= k <= |cfg|
      invariant CheckScope(false, hasCommands, cfg[k..], keys, names, ords)
                == CheckScope(false, HasCommands(cfg), cfg, [], [], [])
    {
      var p := cfg[k];
      assert cfg[k..][0] == p && cfg[k..][1..] == cfg[k + 1..];
      if IsOptionProperty(p) {
        var c := CheckOption(p.name, p.option.value, keys);
        if c.Err? {
          return Some(c.error);
        }
        keys := c.value;
      } else if IsParameterProperty(p) {
        var c := CheckParameter(hasCommands, p.parameter.value, names, ords);
        if c.Err? {
          return Some(c.error);
        }
        names, ords := c.value.0, c.value.1;
      } else if IsCommandProperty(p) {
        var c := ValidateCommand(p.members, keys);
        if c.Err? {
          return Some(c.error);
        }
        keys := c.value;
      }
      k := k + 1;
    }
    error := ValidateParameterOrdinals(ords);
  }

  // ---------------------------------------------------------------------
  // Consequences

  /** Option keys are compared ignoring case: an alternative name that
    * differs from another option's name only in case is refused. */
  lemma CaseInsensitiveClash(p: Property, q: Property)
    requires IsOptionProperty(p) && IsOptionProperty(q)
    requires p.option.value.name == Some("v") && q.option.value.name == Some("x")
    requires q.option.value.alternativeName == Some("V")
    ensures !WellFormedConfiguration([p, q])
  {
    var kp := OptionKeys(p.option.value);
    var kq := OptionKeys(q.option.value);
    assert [p, q][1..] == [q] && [q][1..] == [];
    assert Keys([q]) == kq + Keys([]);
    assert Keys([p, q]) == kp + kq;
    assert Text.Upper("v") == "V" && Text.Upper("V") == "V" && Text.Upper("x") == "X";
    assert !Text.IsBlank("V") by {
      assert "V"[0] == 'V' && !Text.IsWhiteSpace('V');
    }
    assert kp[0] == "V";
    assert kq == ["X", "V"] + (if Text.IsNullOrWhiteSpace(q.option.value.longName) then [] else [Text.Upper(q.option.value.longName.value)]);
    assert kq[1] == "V";
    assert (kp + kq)[0] == (kp + kq)[|kp| + 1];
  }
}
