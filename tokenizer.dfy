/** `ConsoleArgumentTokenizer`: turns the argument array into command-argument
  * items. The loop carries the previous argument; an option without an
  * inline value takes the following argument as its value when that one is
  * not an option itself. */
module Tokenizer {
  import opened Wrappers
  import Text
  import Options
  import Exceptions

  datatype CommandArgsItemType = NotSet | Parameter | Option | OptionLongName

  datatype CommandArgsItem = CommandArgsItem(itemType: CommandArgsItemType, name: string, value: string)

  /** An argument that names an option: not blank, and starting with one of
    * the name indicators, compared case-insensitively. */
  predicate IsOptionArgument(o: Options.ParseOptions, arg: string)
  {
    !Text.IsBlank(arg) && Text.StartsWithAny(arg, Options.NameIndicators(o), true)
  }

  /** An argument that can serve as the value of the option before it. */
  predicate IsValueArgument(o: Options.ParseOptions, arg: string)
  {
    !Text.IsBlank(arg) && !Text.StartsWithAny(arg, Options.NameIndicators(o), true)
  }

  /** The type and name of an item whose trimmed name is `n`: the long-name
    * indicator is checked first and stripped alone; any other indicator makes
    * an option and all leading indicators are stripped; otherwise it is a
    * parameter that keeps its name. */
  function Classify(o: Options.ParseOptions, n: string): (r: (CommandArgsItemType, string))
    ensures r.0 != NotSet
    ensures r.0 == OptionLongName <==> Text.HasPrefix(n, o.longNameIndicator)
    ensures r.0 == Option <==>
              !Text.HasPrefix(n, o.longNameIndicator) && Text.StartsWithAny(n, Options.NameIndicators(o), false)
    ensures r.0 == Parameter ==> r.1 == n
    ensures r.0 != Parameter ==> |r.1| <= |n| && n[|n| - |r.1|..] == r.1
    ensures r.0 == OptionLongName && o.longNameIndicator != "" ==> !Text.HasPrefix(r.1, o.longNameIndicator)
    ensures r.0 == Option ==>
              forall p :: p in Options.NameIndicators(o) && p != "" ==> !Text.HasPrefix(r.1, p)
  {
    if Text.HasPrefix(n, o.longNameIndicator) then
      var r := Text.TrimStartAny(n, [o.longNameIndicator]);
      assert o.longNameIndicator != "" ==> !Text.HasPrefix(r, [o.longNameIndicator][0]);
      (OptionLongName, r)
    else if Text.StartsWithAny(n, Options.NameIndicators(o), false) then
      var ps := Options.NameIndicators(o);
      var r := Text.TrimStartAny(n, ps);
      assert forall p :: p in ps && p != "" ==> !Text.HasPrefix(r, p) by {
        forall p | p in ps && p != "" ensures !Text.HasPrefix(r, p) {
          var j :| 0 <= j < |ps| && ps[j] == p;
        }
      }
      (Option, r)
    else
      (Parameter, n)
  }

  /** `CreateCommandArgsItem`: a blank name throws; otherwise the name loses
    * its quotation characters and surrounding white space and is classified,
    * and a value that is not blank loses them too. */
  function CreateItem(o: Options.ParseOptions, name: string, value: string): (r: Result<CommandArgsItem, Exceptions.Exception>)
    ensures r.Err? <==> Text.IsBlank(name)
    ensures r.Err? ==> r.error == Exceptions.ArgumentNull("name")
    ensures r.Ok? ==>
              (r.value.itemType, r.value.name)
              == Classify(o, Text.TrimWhite(Text.TrimChar(name, o.quotationCharacter)))
    ensures r.Ok? && Text.IsBlank(value) ==> r.value.value == value
    ensures r.Ok? && !Text.IsBlank(value) ==>
              r.value.value == Text.TrimWhite(Text.TrimChar(value, o.quotationCharacter))
  {
    if Text.IsBlank(name) then Err(Exceptions.ArgumentNull("name"))
    else
      var c := Classify(o, Text.TrimWhite(Text.TrimChar(name, o.quotationCharacter)));
      var v := if Text.IsBlank(value) then value else Text.TrimWhite(Text.TrimChar(value, o.quotationCharacter));
      Ok(CommandArgsItem(c.0, c.1, v))
  }

  /** `ProcessArguments`: the item made of `arg1` (and possibly `arg2`) and how
    * the loop goes on: 1 when `arg2` is still to be looked at, 2 when it was
    * taken as the value of the option in `arg1`. */
  function ProcessArguments(o: Options.ParseOptions, arg1: string, arg2: Option<string>)
    : (r: Result<(CommandArgsItem, int), Exceptions.Exception>)
    ensures r.Err? ==> r.error == Exceptions.ArgumentNull("name")
    ensures r.Ok? ==> r.value.1 == 1 || r.value.1 == 2
    ensures r.Ok? ==>
              (r.value.1 == 2 <==>
                 IsOptionArgument(o, arg1) && Text.IndexOf(arg1, o.valueIndicator, true) == -1
                 && arg2.Some? && IsValueArgument(o, arg2.value))
    ensures r.Ok? && r.value.1 == 2 ==>
              r.value.0 == CreateItem(o, arg1, Text.TrimChar(arg2.value, o.quotationCharacter)).value
    ensures IsOptionArgument(o, arg1) && Text.IndexOf(arg1, o.valueIndicator, true) == -1
            && !(arg2.Some? && IsValueArgument(o, arg2.value)) ==>
              r == Prepared(CreateItem(o, arg1, ""), 1)
    ensures var pos := Text.IndexOf(arg1, o.valueIndicator, true);
            IsOptionArgument(o, arg1) && pos != -1 ==>
              0 <= pos < |arg1|
              && r == Prepared(CreateItem(o, arg1[..pos], Text.TrimChar(arg1[pos + 1..], o.quotationCharacter)), 1)
    ensures !IsOptionArgument(o, arg1) ==> r == Prepared(CreateItem(o, arg1, ""), 1)
  {
    if IsOptionArgument(o, arg1) then
      var pos := Text.IndexOf(arg1, o.valueIndicator, true);
      if pos == -1 then
        if arg2.Some? && IsValueArgument(o, arg2.value) then
          Prepared(CreateItem(o, arg1, Text.TrimChar(arg2.value, o.quotationCharacter)), 2)
        else
          Prepared(CreateItem(o, arg1, ""), 1)
      else
        assert Text.MatchAt(arg1, o.valueIndicator, pos, true);
        Prepared(CreateItem(o, arg1[..pos], Text.TrimChar(arg1[pos + 1..], o.quotationCharacter)), 1)
    else
      Prepared(CreateItem(o, arg1, ""), 1)
  }

  /** Pairs a created item with the step code, passing a throw through. */
  function Prepared(item: Result<CommandArgsItem, Exceptions.Exception>, code: int)
    : Result<(CommandArgsItem, int), Exceptions.Exception>
  {
    match item
    case Err(e) => Err(e)
    case Ok(i) => Ok((i, code))
  }

  /** The items in front of what the rest of the run yields, or its throw. */
  function Prepend(items: seq<CommandArgsItem>, rest: Result<seq<CommandArgsItem>, Exceptions.Exception>)
    : Result<seq<CommandArgsItem>, Exceptions.Exception>
  {
    match rest
    case Err(e) => Err(e)
    case Ok(more) => Ok(items + more)
  }

  /** One turn of the loop over the trimmed argument `arg`, `last` being the
    * argument still waiting: the items it adds and the next waiting argument. */
  function Step(o: Options.ParseOptions, last: string, arg: string)
    : Result<(seq<CommandArgsItem>, string), Exceptions.Exception>
  {
    if Text.IsBlank(last) then Ok(([], arg))
    else
      match ProcessArguments(o, last, Some(arg))
      case Err(e) => Err(e)
      case Ok(p) => Ok(([p.0], if p.1 == 1 then arg else if p.1 == 2 then "" else last))
  }

  /** What is left to do after the last argument: process the waiting one. */
  function Finish(o: Options.ParseOptions, last: string): Result<seq<CommandArgsItem>, Exceptions.Exception>
  {
    if Text.IsBlank(last) then Ok([])
    else
      match ProcessArguments(o, last, None)
      case Err(e) => Err(e)
      case Ok(p) => if p.1 != 1 then Err(Exceptions.Other("Unknown error")) else Ok([p.0])
  }

  /** The items `Tokenize` yields for the arguments `rest` when `last` is the
    * previous argument still waiting to be processed. */
  function TokenizeFrom(o: Options.ParseOptions, last: string, rest: seq<string>)
    : Result<seq<CommandArgsItem>, Exceptions.Exception>
    decreases |rest|
  {
    if rest == [] then Finish(o, last)
    else
      match Step(o, last, Text.TrimWhite(rest[0]))
      case Err(e) => Err(e)
      case Ok(s) => Prepend(s.0, TokenizeFrom(o, s.1, rest[1..]))
  }

  lemma PrependNothing(r: Result<seq<CommandArgsItem>, Exceptions.Exception>)
    ensures Prepend([], r) == r
  {
    if r.Ok? {
      assert [] + r.value == r.value;
    }
  }

  lemma PrependAssoc(xs: seq<CommandArgsItem>, ys: seq<CommandArgsItem>,
                     r: Result<seq<CommandArgsItem>, Exceptions.Exception>)
    ensures Prepend(xs, Prepend(ys, r)) == Prepend(xs + ys, r)
  {
    if r.Ok? {
      assert xs + (ys + r.value) == (xs + ys) + r.value;
    }
  }

  /** The result of `Tokenize(args)`; a null array throws. */
  function TokenizeArgs(o: Options.ParseOptions, args: Option<seq<string>>)
    : Result<seq<CommandArgsItem>, Exceptions.Exception>
  {
    if args.None? then Err(Exceptions.ArgumentNull("args")) else TokenizeFrom(o, "", args.value)
  }

  class ConsoleArgumentTokenizer {
    const options: Options.ParseOptions
    var items: seq<CommandArgsItem>

    /** The parameterless constructor: default options, no items. */
    constructor (currentUICulture: Options.Culture)
      ensures options == Options.NewParseOptions(currentUICulture) && items == []
    {
      options := Options.NewParseOptions(currentUICulture);
      items := [];
    }

    /** The constructor taking options, once they are known not to be null. */
    constructor WithOptions(o: Options.ParseOptions)
      ensures options == o && items == []
    {
      options := o;
      items := [];
    }

    /** `new ConsoleArgumentTokenizer(options)`: null options throw. */
    static method Create(o: Option<Options.ParseOptions>) returns (r: Result<ConsoleArgumentTokenizer, Exceptions.Exception>)
      ensures o.None? <==> r.Err?
      ensures r.Err? ==> r.error == Exceptions.ArgumentNull("options")
      ensures r.Ok? ==> fresh(r.value) && r.value.options == o.value && r.value.items == []
    {
      if o.None? {
        return Err(Exceptions.ArgumentNull("options"));
      }
      var t := new ConsoleArgumentTokenizer.WithOptions(o.value);
      return Ok(t);
    }

    /** `Tokenize(args)`: the items of the arguments; on success they also
      * become `Items`, on a throw `Items` keeps its old value. */
    method Tokenize(args: Option<seq<string>>) returns (r: Result<seq<CommandArgsItem>, Exceptions.Exception>)
      modifies this`items
      ensures r == TokenizeArgs(options, args)
      ensures r.Ok? ==> items == r.value
      ensures r.Err? ==> items == old(items)
    {
      if args.None? {
        return Err(Exceptions.ArgumentNull("args"));
      }
      var a := args.value;
      var result: seq<CommandArgsItem> := [];
      var last := "";
      assert a[0..] == a;
      PrependNothing(TokenizeFrom(options, last, a));
      for i := 0 to |a|
        invariant TokenizeFrom(options, "", a) == Prepend(result, TokenizeFrom(options, last, a[i..]))
        invariant items == old(items)
      {
        var arg := Text.TrimWhite(a[i]);
        ghost var step := Step(options, last, arg);
        ghost var after := a[i + 1..];
        assert TokenizeFrom(options, last, a[i..])
               == if step.Err? then Err(step.error)
                  else Prepend(step.value.0, TokenizeFrom(options, step.value.1, after)) by {
          assert a[i..][1..] == after;
        }
        if Text.IsBlank(last) {
          last := arg;
          PrependNothing(TokenizeFrom(options, last, after));
        } else {
          var p := ProcessArguments(options, last, Some(arg));
          if p.Err? {
            return Err(p.error);
          }
          PrependAssoc(result, [p.value.0], TokenizeFrom(options, step.value.1, after));
          result := result + [p.value.0];
          if p.value.1 == 1 {
            last := arg;
          } else if p.value.1 == 2 {
            last := "";
          }
        }
      }
      assert a[|a|..] == [];
      assert TokenizeFrom(options, last, []) == Finish(options, last);
      assert result + [] == result;
      if !Text.IsBlank(last) {
        var p := ProcessArguments(options, last, None);
        if p.Err? {
          return Err(p.error);
        }
        if p.value.1 != 1 {
          return Err(Exceptions.Other("Unknown error"));
        }
        result := result + [p.value.0];
      }
      items := result;
      return Ok(result);
    }
  }

  // ---------------------------------------------------------------------
  // Properties of the tokenizer

  /** The only exception a run over a non-null array can throw is the blank
    * item name; the "Unknown error" throw is unreachable. */
  lemma {:induction false} TokenizeOnlyThrowsBlankName(o: Options.ParseOptions, last: string, rest: seq<string>)
    ensures TokenizeFrom(o, last, rest).Err? ==> TokenizeFrom(o, last, rest).error == Exceptions.ArgumentNull("name")
    decreases |rest|
  {
    if rest != [] {
      var arg := Text.TrimWhite(rest[0]);
      if Text.IsBlank(last) {
        TokenizeOnlyThrowsBlankName(o, arg, rest[1..]);
      } else {
        var p := ProcessArguments(o, last, Some(arg));
        if p.Ok? {
          var next := if p.value.1 == 1 then arg else if p.value.1 == 2 then "" else last;
          TokenizeOnlyThrowsBlankName(o, next, rest[1..]);
        }
      }
    }
  }

  function NonBlankCount(args: seq<string>): nat
  {
    if args == [] then 0 else (if Text.IsBlank(args[0]) then 0 else 1) + NonBlankCount(args[1..])
  }

  function Pending(last: string): nat
  {
    if Text.IsBlank(last) then 0 else 1
  }

  /** Each non-blank argument becomes its own item or the value of the item
    * before it: there are at most as many items as non-blank arguments and
    * at least half as many. */
  lemma {:induction false} ItemCountBounds(o: Options.ParseOptions, last: string, rest: seq<string>)
    ensures TokenizeFrom(o, last, rest).Ok? ==>
              var n := |TokenizeFrom(o, last, rest).value|;
              n <= Pending(last) + NonBlankCount(rest) && Pending(last) + NonBlankCount(rest) <= 2 * n
    decreases |rest|
  {
    if rest != [] {
      var arg := Text.TrimWhite(rest[0]);
      var st := Step(o, last, arg);
      if st.Ok? {
        StepBounds(o, last, rest[0]);
        ItemCountBounds(o, st.value.1, rest[1..]);
      }
    }
  }

  /** One step turns the waiting argument and the next into items and a new
    * waiting argument, losing no non-blank argument and making no item of
    * nothing. */
  lemma StepBounds(o: Options.ParseOptions, last: string, raw: string)
    ensures var st := Step(o, last, Text.TrimWhite(raw));
            var m := Pending(last) + (if Text.IsBlank(raw) then 0 else 1);
            st.Ok? ==> |st.value.0| + Pending(st.value.1) <= m <= 2 * |st.value.0| + Pending(st.value.1)
  {
    var arg := Text.TrimWhite(raw);
    Text.BlankIffTrimmedEmpty(raw);
    Text.TrimmedBlankIsEmpty(raw);
    assert Pending(arg) == (if Text.IsBlank(raw) then 0 else 1);
  }

  /** White-space-only arguments never yield an item. */
  lemma {:induction false} BlankArgumentsYieldNothing(o: Options.ParseOptions, last: string, rest: seq<string>)
    requires Text.IsBlank(last)
    requires forall i :: 0 <= i < |rest| ==> Text.IsBlank(rest[i])
    ensures TokenizeFrom(o, last, rest) == Ok([])
    decreases |rest|
  {
    if rest != [] {
      var arg := Text.TrimWhite(rest[0]);
      Text.BlankIffTrimmedEmpty(rest[0]);
      assert Step(o, last, arg) == Ok(([], arg));
      BlankArgumentsYieldNothing(o, arg, rest[1..]);
      PrependNothing(TokenizeFrom(o, arg, rest[1..]));
    }
  }

  /** With case folding, `:` only matches itself. */
  lemma ColonMatch(s: string, j: nat)
    ensures Text.MatchAt(s, ":", j, true) <==> j < |s| && s[j] == ':'
  {
    if j < |s| {
      assert Text.Lower(s[j..j + 1])[0] == Text.LowerChar(s[j]);
      assert Text.Lower(":") == [':'];
      if Text.MatchAt(s, ":", j, true) {
        assert Text.LowerChar(s[j]) == ':';
      }
    }
  }

  lemma NoColonNoMatch(s: string)
    requires ':' !in s
    ensures Text.IndexOf(s, ":", true) == -1
  {
    forall j | 0 <= j <= |s|
      ensures !Text.MatchAt(s, ":", j, true)
    {
      ColonMatch(s, j);
    }
  }

  lemma FirstColon(n: string, v: string)
    requires ':' !in n
    ensures Text.IndexOf(n + ":" + v, ":", true) == |n|
  {
    var s := n + ":" + v;
    ColonMatch(s, |n|);
    forall j | 0 <= j < |n|
      ensures !Text.MatchAt(s, ":", j, true)
    {
      ColonMatch(s, j);
    }
  }

  lemma StartsWithAnyExtends(s: string, x: string, ps: seq<string>)
    requires Text.StartsWithAny(s, ps, true)
    ensures Text.StartsWithAny(s + x, ps, true)
  {
    var i :| 0 <= i < |ps| && Text.StartsWith(s, ps[i], true);
    assert (s + x)[..|ps[i]|] == s[..|ps[i]|];
    assert Text.StartsWith(s + x, ps[i], true);
  }

  /** An option argument splits at its first `:` under the default settings:
    * the name is what comes before it and the value is the rest without its
    * quotation characters, so later colons stay in the value. The argument
    * after it is left for the next step. */
  lemma SplitAtFirstColon(c: Options.Culture, n: string, v: string, arg2: Option<string>)
    requires IsOptionArgument(Options.NewParseOptions(c), n) && ':' !in n
    ensures ProcessArguments(Options.NewParseOptions(c), n + ":" + v, arg2)
            == Prepared(CreateItem(Options.NewParseOptions(c), n, Text.TrimChar(v, '"')), 1)
  {
    var o := Options.NewParseOptions(c);
    var s := n + ":" + v;
    FirstColon(n, v);
    StartsWithAnyExtends(n, ":" + v, Options.NameIndicators(o));
    assert s == n + (":" + v);
    ColonNotBlank(n, v);
    assert s[..|n|] == n && s[|n| + 1..] == v;
  }

  /** Nothing waiting and nothing left: the items so far are the result. */
  lemma NothingLeft(o: Options.ParseOptions, items: seq<CommandArgsItem>)
    ensures Prepend(items, TokenizeFrom(o, "", [])) == Ok(items)
  {
    assert TokenizeFrom(o, "", []) == Ok([]);
    assert items + [] == items;
  }

  /** One unfolding of `TokenizeFrom` over a turn that succeeded. */
  lemma TokenizeFromStep(o: Options.ParseOptions, last: string, rest: seq<string>,
                         items: seq<CommandArgsItem>, next: string)
    requires rest != [] && Step(o, last, Text.TrimWhite(rest[0])) == Ok((items, next))
    ensures TokenizeFrom(o, last, rest) == Prepend(items, TokenizeFrom(o, next, rest[1..]))
  {
  }

  /** A waiting argument processed alone ends the run with its item. */
  lemma WaitingArgumentAlone(o: Options.ParseOptions, s: string, item: CommandArgsItem)
    requires !Text.IsBlank(s) && ProcessArguments(o, s, None) == Ok((item, 1))
    ensures TokenizeFrom(o, s, []) == Ok([item])
  {
  }

  /** A waiting option without `:` takes the value argument after it. */
  lemma OptionTakesValue(c: Options.Culture, n: string, v: string)
    requires IsOptionArgument(Options.NewParseOptions(c), n) && ':' !in n
    requires IsValueArgument(Options.NewParseOptions(c), v) && Text.TrimWhite(v) == v
    ensures TokenizeFrom(Options.NewParseOptions(c), n, [v])
            == Ok([CreateItem(Options.NewParseOptions(c), n, Text.TrimChar(v, '"')).value])
  {
    var o := Options.NewParseOptions(c);
    var item := CreateItem(o, n, Text.TrimChar(v, '"')).value;
    OptionStepTakesValue(c, n, v);
    assert [v][0] == v;
    TokenizeFromStep(o, n, [v], [item], "");
    NothingLeft(o, [item]);
  }

  /** The turn of a waiting option without `:` over a value argument. */
  lemma OptionStepTakesValue(c: Options.Culture, n: string, v: string)
    requires IsOptionArgument(Options.NewParseOptions(c), n) && ':' !in n
    requires IsValueArgument(Options.NewParseOptions(c), v)
    ensures Step(Options.NewParseOptions(c), n, v)
            == Ok(([CreateItem(Options.NewParseOptions(c), n, Text.TrimChar(v, '"')).value], ""))
  {
    var o := Options.NewParseOptions(c);
    NoColonNoMatch(n);
    assert ProcessArguments(o, n, Some(v)) == Ok((CreateItem(o, n, Text.TrimChar(v, '"')).value, 2));
  }

  /** An option followed by a separate value argument yields one item. */
  lemma OptionThenValue(c: Options.Culture, n: string, v: string)
    requires IsOptionArgument(Options.NewParseOptions(c), n) && ':' !in n
    requires IsValueArgument(Options.NewParseOptions(c), v)
    requires Text.TrimWhite(n) == n
    ensures TokenizeFrom(Options.NewParseOptions(c), "", [n, v])
            == TokenizeFrom(Options.NewParseOptions(c), n, [v])
  {
    var o := Options.NewParseOptions(c);
    assert Step(o, "", n) == Ok(([], n));
    assert [n, v][1..] == [v];
    PrependNothing(TokenizeFrom(o, n, [v]));
  }

  lemma ColonNotBlank(n: string, v: string)
    ensures !Text.IsBlank(n + ":" + v)
  {
    var s := n + ":" + v;
    assert s[|n|] == ':';
    assert ':' !in Text.WhiteSpace;
  }

  /** A waiting option with an inline value yields one item. */
  lemma InlineValueAlone(c: Options.Culture, n: string, v: string)
    requires IsOptionArgument(Options.NewParseOptions(c), n) && ':' !in n
    ensures TokenizeFrom(Options.NewParseOptions(c), n + ":" + v, [])
            == Ok([CreateItem(Options.NewParseOptions(c), n, Text.TrimChar(v, '"')).value])
  {
    var o := Options.NewParseOptions(c);
    var s := n + ":" + v;
    var item := CreateItem(o, n, Text.TrimChar(v, '"')).value;
    assert ProcessArguments(o, s, None) == Ok((item, 1)) by {
      SplitAtFirstColon(c, n, v, None);
    }
    ColonNotBlank(n, v);
    WaitingArgumentAlone(o, s, item);
  }

  /** The same option with its value after a `:` as one argument. */
  lemma OptionWithInlineValue(c: Options.Culture, n: string, v: string)
    requires IsOptionArgument(Options.NewParseOptions(c), n) && ':' !in n
    requires IsValueArgument(Options.NewParseOptions(c), v)
    requires Text.TrimWhite(n) == n && Text.TrimWhite(v) == v
    ensures TokenizeFrom(Options.NewParseOptions(c), "", [n + ":" + v])
            == TokenizeFrom(Options.NewParseOptions(c), n + ":" + v, [])
  {
    var o := Options.NewParseOptions(c);
    var s := n + ":" + v;
    assert Text.TrimWhite(s) == s by {
      assert |n| > 0 && |v| > 0;
      assert n[0] !in Text.WhiteSpace && v[|v| - 1] !in Text.WhiteSpace;
      assert s[0] == n[0] && s[|s| - 1] == v[|v| - 1];
      Text.TrimKeeps(s, Text.WhiteSpace);
    }
    assert Step(o, "", s) == Ok(([], s));
    assert [s][1..] == [];
    PrependNothing(TokenizeFrom(o, s, []));
  }

  /** Under the default settings an option followed by its value as a separate
    * argument tokenizes exactly like the option with the value after a `:`. */
  lemma SeparateValueLikeInlineValue(c: Options.Culture, n: string, v: string)
    requires IsOptionArgument(Options.NewParseOptions(c), n) && ':' !in n
    requires IsValueArgument(Options.NewParseOptions(c), v)
    requires Text.TrimWhite(n) == n && Text.TrimWhite(v) == v
    ensures TokenizeArgs(Options.NewParseOptions(c), Some([n, v]))
            == TokenizeArgs(Options.NewParseOptions(c), Some([n + ":" + v]))
            == Ok([CreateItem(Options.NewParseOptions(c), n, Text.TrimChar(v, '"')).value])
  {
    OptionThenValue(c, n, v);
    OptionTakesValue(c, n, v);
    OptionWithInlineValue(c, n, v);
    InlineValueAlone(c, n, v);
  }
}
