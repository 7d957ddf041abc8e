/** The usage-text builders. Each keeps the attributes of one kind (options,
  * parameters or commands) in a list without repetitions together with the
  * length of the longest name seen, and renders two texts from them: the
  * one-line syntax summary and the detail table, whose name column is as
  * wide as that longest name. Attributes compare field by field, as .NET
  * attributes do, so a second attribute with the same settings is not
  * listed twice. `Environment.NewLine` is the `newLine` argument. */
module Usage {
  import opened Wrappers
  import Text
  import Options
  import Resources
  import Exceptions
  import opened Schema

  // ---------------------------------------------------------------------
  // AttributeUsageInfo: the list without repetitions and the longest name

  /** The item list after the base class's `AddItem`: the item is appended
    * unless the list already holds an equal one. */
  function WithItem<T(==)>(items: seq<T>, item: T): (r: seq<T>)
    ensures |r| == if item in items then |items| else |items| + 1
    ensures item in r
    ensures r[..|items|] == items
    ensures forall i :: |items| <= i < |r| ==> r[i] == item
    ensures Distinct(items) ==> Distinct(r)
  {
    if item in items then items
    else
      assert Distinct(items) ==> Distinct(items + [item]) by {
        if Distinct(items) {
          DistinctSnoc(items, item);
        }
      }
      items + [item]
  }

  /** The largest of the lengths `len` gives the items, 0 for no items. */
  function MaxLength<T>(items: seq<T>, len: T -> nat): nat
  {
    if items == [] then 0
    else
      var m := MaxLength(items[..|items| - 1], len);
      var l := len(items[|items| - 1]);
      if l > m then l else m
  }

  /** `MaxLength` is the length of some item (when there is one) and no item
    * is longer. */
  lemma {:induction false} MaxLengthIsMaximum<T>(items: seq<T>, len: T -> nat)
    ensures forall i :: 0 <= i < |items| ==> len(items[i]) <= MaxLength(items, len)
    ensures items != [] ==> exists i :: 0 <= i < |items| && len(items[i]) == MaxLength(items, len)
  {
    if items != [] {
      var front := items[..|items| - 1];
      MaxLengthIsMaximum(front, len);
      assert forall i :: 0 <= i < |front| ==> items[i] == front[i];
      if front != [] && len(items[|items| - 1]) <= MaxLength(front, len) {
        var i :| 0 <= i < |front| && len(front[i]) == MaxLength(front, len);
        assert len(items[i]) == MaxLength(items, len);
      } else {
        assert len(items[|items| - 1]) == MaxLength(items, len);
      }
    }
  }

  /** Adding an item raises the longest length to the item's length, if that
    * is longer, and otherwise keeps it; a repeated item changes nothing. */
  lemma MaxLengthWithItem<T>(items: seq<T>, item: T, len: T -> nat)
    ensures MaxLength(WithItem(items, item), len)
            == if len(item) > MaxLength(items, len) then len(item) else MaxLength(items, len)
  {
    if item in items {
      MaxLengthIsMaximum(items, len);
    } else {
      assert (items + [item])[..|items|] == items;
    }
  }

  /** What every usage information keeps: no repetitions, and the recorded
    * longest name is the longest over the items. */
  ghost predicate Bookkeeping<T>(items: seq<T>, maxNameLength: int, len: T -> nat)
  {
    Distinct(items) && maxNameLength == MaxLength(items, len)
  }

  /** What the texts show in place of a blank name or description. */
  const NotApplicable := Resources.NotApplicableValue

  /** A name or description as the detail text shows it: `n/a` for a blank
    * one. */
  function Shown(s: Option<string>): (r: string)
    ensures r != ""
    ensures Text.IsNullOrWhiteSpace(s) ==> r == NotApplicable
    ensures !Text.IsNullOrWhiteSpace(s) ==> r == s.value
  {
    if Text.IsNullOrWhiteSpace(s) then NotApplicable else s.value
  }

  /** The heading line of a detail table: an empty line, then the heading. */
  function Heading(title: string, newLine: string): string
  {
    newLine + "  " + title + ":" + newLine
  }

  // ---------------------------------------------------------------------
  // OptionUsageInfo

  const CombinedOptionNameSeparator := " | "

  predicate Present(n: Option<string>)
  {
    !Text.IsNullOrWhiteSpace(n)
  }

  /** One step of building the combined name: a present name is added behind
    * its indicator, after the separator if something came before it. */
  function AppendName(combined: string, indicator: string, n: Option<string>): string
  {
    if !Present(n) then combined
    else (if combined != "" then combined + CombinedOptionNameSeparator else combined) + indicator + n.value
  }

  /** The combined name of the detail text: `/Name | -Alt | --Long`, leaving
    * out the names that are blank. */
  function CombinedName(o: OptionAttr): string
  {
    var withName := AppendName("", Options.DefaultNameIndicator, o.name);
    var withAlternative := AppendName(withName, Options.AlternativeNameIndicator, o.alternativeName);
    AppendName(withAlternative, Options.LongNameIndicator, o.longName)
  }

  /** The option's present names behind their indicators, in declaration
    * order of the three name slots. */
  function IndicatedNames(o: OptionAttr): seq<string>
  {
    (if Present(o.name) then [Options.DefaultNameIndicator + o.name.value] else [])
    + (if Present(o.alternativeName) then [Options.AlternativeNameIndicator + o.alternativeName.value] else [])
    + (if Present(o.longName) then [Options.LongNameIndicator + o.longName.value] else [])
  }

  /** Strings joined by the combined-name separator. */
  function Joined(parts: seq<string>): string
  {
    if parts == [] then ""
    else if |parts| == 1 then parts[0]
    else parts[0] + CombinedOptionNameSeparator + Joined(parts[1..])
  }

  /** Joining one more part adds it behind the separator, or alone when
    * nothing came before. */
  lemma {:induction false} JoinedSnoc(parts: seq<string>, x: string)
    ensures Joined(parts + [x]) == if parts == [] then x else Joined(parts) + CombinedOptionNameSeparator + x
  {
    if parts == [] {
      assert parts + [x] == [x];
    } else if |parts| == 1 {
      assert parts + [x] == [parts[0], x];
      assert [parts[0], x][1..] == [x];
    } else {
      assert (parts + [x])[1..] == parts[1..] + [x];
      JoinedSnoc(parts[1..], x);
    }
  }

  /** Parts that are never empty join to the empty string only when there
    * are none. */
  lemma JoinedEmpty(parts: seq<string>)
    requires forall i :: 0 <= i < |parts| ==> parts[i] != ""
    ensures Joined(parts) == "" <==> parts == []
  {
    if parts != [] {
      assert |Joined(parts)| >= |parts[0]| > 0;
    }
  }

  /** One step of `AppendName` on a joined string joins one more part when
    * the name is present and nothing otherwise. */
  lemma AppendNameJoined(parts: seq<string>, indicator: string, n: Option<string>)
    requires indicator != "" && forall i :: 0 <= i < |parts| ==> parts[i] != ""
    ensures AppendName(Joined(parts), indicator, n)
            == Joined(parts + (if Present(n) then [indicator + n.value] else []))
  {
    if Present(n) {
      AppendPart(parts, indicator, n.value);
    } else {
      assert parts + [] == parts;
    }
  }

  /** Adding a part to a join of parts that are never empty: behind the
    * separator when the join so far is not empty. */
  lemma AppendPart(parts: seq<string>, indicator: string, name: string)
    requires forall i :: 0 <= i < |parts| ==> parts[i] != ""
    ensures (if Joined(parts) != "" then Joined(parts) + CombinedOptionNameSeparator else Joined(parts))
            + indicator + name
            == Joined(parts + [indicator + name])
  {
    JoinedEmpty(parts);
    JoinedSnoc(parts, indicator + name);
    var before := if Joined(parts) != "" then Joined(parts) + CombinedOptionNameSeparator else "";
    ConcatAssoc(before, indicator, name);
  }

  lemma ConcatAssoc(a: string, b: string, c: string)
    ensures a + b + c == a + (b + c)
  {
  }

  /** Built step by step, the combined name is the present indicated names
    * joined by ` | `; it is empty exactly when no name is present. */
  lemma CombinedNameIsJoined(o: OptionAttr)
    ensures CombinedName(o) == Joined(IndicatedNames(o))
    ensures CombinedName(o) == "" <==> !Present(o.name) && !Present(o.alternativeName) && !Present(o.longName)
  {
    var n, a, l := Options.DefaultNameIndicator, Options.AlternativeNameIndicator, Options.LongNameIndicator;
    var p1 := if Present(o.name) then [n + o.name.value] else [];
    var p2 := if Present(o.alternativeName) then [a + o.alternativeName.value] else [];
    var p3 := if Present(o.longName) then [l + o.longName.value] else [];
    AppendNameJoined([], n, o.name);
    assert [] + p1 == p1;
    AppendNameJoined(p1, a, o.alternativeName);
    AppendNameJoined(p1 + p2, l, o.longName);
    assert IndicatedNames(o) == p1 + p2 + p3;
    JoinedEmpty(p1 + p2 + p3);
  }

  function CombinedLength(o: OptionAttr): nat
  {
    |CombinedName(o)|
  }

  /** The length `AddItem` computes for an option, accumulated name by name:
    * indicator plus name for each present name and the separator between
    * two of them. It is the length of the combined name the detail text
    * shows, so the name column fits every option. */
  method NameLength(o: OptionAttr) returns (length: nat)
    ensures length == |CombinedName(o)|
    ensures length == 0 <==> !Present(o.name) && !Present(o.alternativeName) && !Present(o.longName)
  {
    ghost var combined := AppendName("", Options.DefaultNameIndicator, o.name);
    length := 0;
    if !Text.IsNullOrWhiteSpace(o.name) {
      length := length + |Options.DefaultNameIndicator| + |o.name.value|;
    }
    assert length == |combined|;
    combined := AppendName(combined, Options.AlternativeNameIndicator, o.alternativeName);
    if !Text.IsNullOrWhiteSpace(o.alternativeName) {
      if length != 0 {
        length := length + |CombinedOptionNameSeparator|;
      }
      length := length + |Options.AlternativeNameIndicator| + |o.alternativeName.value|;
    }
    assert length == |combined|;
    combined := AppendName(combined, Options.LongNameIndicator, o.longName);
    if !Text.IsNullOrWhiteSpace(o.longName) {
      if length != 0 {
        length := length + |CombinedOptionNameSeparator|;
      }
      length := length + |Options.LongNameIndicator| + |o.longName.value|;
    }
    assert length == |combined|;
    CombinedNameIsJoined(o);
  }

  /** The name field of an options table line: the combined name (or
    * `n/a`) padded to the longest name, behind two spaces. */
  function OptionNameField(o: OptionAttr, maxNameLength: int): string
  {
    var combined := CombinedName(o);
    "  " + Text.Align(if combined == "" then NotApplicable else combined, -maxNameLength)
  }

  /** One line of the options table: the name field, then the description. */
  function OptionDetailLine(o: OptionAttr, maxNameLength: int, newLine: string): string
  {
    "  " + OptionNameField(o, maxNameLength) + "    " + o.description + newLine
  }

  /** The lines of the first `j` options. */
  function OptionDetailLines(items: seq<OptionAttr>, j: nat, maxNameLength: int, newLine: string): string
    requires j <= |items|
  {
    if j == 0 then ""
    else OptionDetailLines(items, j - 1, maxNameLength, newLine) + OptionDetailLine(items[j - 1], maxNameLength, newLine)
  }

  function OptionDetailText(items: seq<OptionAttr>, maxNameLength: int, newLine: string): string
  {
    if items == [] then ""
    else Heading(Resources.OptionsCapitalizedName, newLine) + OptionDetailLines(items, |items|, maxNameLength, newLine)
  }

  /** The options' descriptions line up: in the line of every named option
    * whose combined name is no longer than the name column, the
    * description starts at the same column, `maxNameLength + 8`. */
  lemma OptionDescriptionsAligned(o: OptionAttr, maxNameLength: int, newLine: string)
    requires 0 < |CombinedName(o)| <= maxNameLength
    ensures OptionDetailLine(o, maxNameLength, newLine)[maxNameLength + 8..] == o.description + newLine
    ensures OptionDetailLine(o, maxNameLength, newLine)[4..4 + |CombinedName(o)|] == CombinedName(o)
  {
    var name := CombinedName(o);
    var padded := Text.Align(name, -maxNameLength);
    var field := OptionNameField(o, maxNameLength);
    PaddedName(name, maxNameLength);
    assert field == "  " + padded;
    assert field[2..2 + |name|] == padded[..|name|];
    ColumnLayout("  ", field, "    ", o.description, newLine, 2, 2 + |name|);
  }

  /** A name no longer than the column, left-aligned in it, fills the
    * column and starts it. */
  lemma PaddedName(name: string, width: int)
    requires |name| <= width
    ensures |Text.Align(name, -width)| == width
    ensures Text.Align(name, -width)[..|name|] == name
  {
  }

  /** A line laid out as a lead, a padded name column, a gap and the rest:
    * the name column starts after the lead and the rest after the gap. */
  lemma ColumnLayout(lead: string, padded: string, gap: string, text: string, newLine: string, j: nat, k: nat)
    requires j <= k <= |padded|
    ensures (lead + padded + gap + text + newLine)[|lead| + |padded| + |gap|..] == text + newLine
    ensures (lead + padded + gap + text + newLine)[|lead| + j..|lead| + k] == padded[j..k]
  {
    var line := lead + padded + gap + text + newLine;
    assert line[|lead| + j..|lead| + k] == padded[j..k];
  }

  /** An option in the syntax summary: its default name behind `/`, in
    * brackets when it is optional. */
  function SyntaxName(o: OptionAttr): string
  {
    (if !o.required then "[" else "")
    + (if Present(o.name) then Options.DefaultNameIndicator + o.name.value else "")
    + (if !o.required then "]" else "")
  }

  /** What follows the `k`-th of `n` options: a line break and the
    * indentation after every fourth option but the last, a space otherwise. */
  function SyntaxSeparator(k: nat, n: nat, indention: int, newLine: string): (r: string)
    ensures r != ""
  {
    if k % 4 == 0 && k < n then
      var indent := Text.Align(" ", indention);
      assert |indent| >= 1;
      newLine + indent
    else " "
  }

  /** The syntax text of the first `j` of the options. */
  function OptionSyntaxPrefix(items: seq<OptionAttr>, j: nat, indention: int, newLine: string): string
    requires j <= |items|
  {
    if j == 0 then ""
    else OptionSyntaxPrefix(items, j - 1, indention, newLine)
         + SyntaxName(items[j - 1]) + SyntaxSeparator(j, |items|, indention, newLine)
  }

  lemma OptionSyntaxPrefixNext(items: seq<OptionAttr>, j: nat, indention: int, newLine: string)
    requires 0 < j <= |items|
    ensures OptionSyntaxPrefix(items, j, indention, newLine)
            == OptionSyntaxPrefix(items, j - 1, indention, newLine)
               + SyntaxName(items[j - 1]) + SyntaxSeparator(j, |items|, indention, newLine)
  {
  }

  function OptionSyntaxText(items: seq<OptionAttr>, indention: int, newLine: string): string
  {
    OptionSyntaxPrefix(items, |items|, indention, newLine)
  }

  /** Optional options are bracketed; a required one shows `/Name` bare, or
    * nothing when it has no name. */
  lemma OptionalOptionsBracketed(o: OptionAttr)
    ensures !o.required ==> |SyntaxName(o)| >= 2 && SyntaxName(o)[0] == '[' && SyntaxName(o)[|SyntaxName(o)| - 1] == ']'
    ensures o.required && Present(o.name) ==> SyntaxName(o) == "/" + o.name.value
    ensures o.required && !Present(o.name) ==> SyntaxName(o) == ""
  {
  }

  /** Every option adds at least its separator to the syntax text, so the
    * text grows with every option and is empty only for no options. */
  lemma {:induction false} OptionSyntaxGrows(items: seq<OptionAttr>, j: nat, indention: int, newLine: string)
    requires j <= |items|
    ensures |OptionSyntaxPrefix(items, j, indention, newLine)| >= j
  {
    if j > 0 {
      OptionSyntaxGrows(items, j - 1, indention, newLine);
      OptionSyntaxPrefixNext(items, j, indention, newLine);
    }
  }

  /** The syntax text never ends in a line break: the last option is always
    * followed by a single space. */
  lemma OptionSyntaxEndsWithSpace(items: seq<OptionAttr>, indention: int, newLine: string)
    requires items != []
    ensures OptionSyntaxText(items, indention, newLine) != ""
    ensures OptionSyntaxText(items, indention, newLine)[|OptionSyntaxText(items, indention, newLine)| - 1] == ' '
  {
  }

  /** After the `k`-th option the syntax text breaks the line exactly when
    * `k` is a multiple of four and more options follow. */
  lemma LineBreakEveryFourthOption(items: seq<OptionAttr>, k: nat, indention: int, newLine: string)
    requires 1 <= k <= |items|
    requires newLine != "" && ' ' !in newLine
    ensures var t := OptionSyntaxPrefix(items, k, indention, newLine);
            var p := |OptionSyntaxPrefix(items, k - 1, indention, newLine)| + |SyntaxName(items[k - 1])|;
            p < |t| && (t[p] == ' ' <==> !(k % 4 == 0 && k < |items|))
  {
    var sep := SyntaxSeparator(k, |items|, indention, newLine);
    var t := OptionSyntaxPrefix(items, k, indention, newLine);
    var p := |OptionSyntaxPrefix(items, k - 1, indention, newLine)| + |SyntaxName(items[k - 1])|;
    assert t[p] == sep[0];
    if k % 4 == 0 && k < |items| {
      assert sep[0] == newLine[0];
    }
  }

  class OptionUsageInfo {
    var items: seq<OptionAttr>
    var maxNameLength: int

    ghost predicate Valid()
      reads this
    {
      Bookkeeping(items, maxNameLength, CombinedLength)
    }

    constructor ()
      ensures Valid() && items == [] && maxNameLength == 0
    {
      items := [];
      maxNameLength := 0;
    }

    /** `AddItem`: null is rejected; otherwise the option is listed once and
      * the longest name grows to its combined name's length. */
    method AddItem(item: Option<OptionAttr>) returns (thrown: Option<Exceptions.Exception>)
      requires Valid()
      modifies this
      ensures Valid()
      ensures item.None? ==> thrown == Some(Exceptions.ArgumentNull("item"))
      ensures item.None? ==> items == old(items) && maxNameLength == old(maxNameLength)
      ensures item.Some? ==> thrown.None? && items == WithItem(old(items), item.value)
      ensures item.Some? ==> maxNameLength >= old(maxNameLength)
      ensures item.Some? ==> maxNameLength == if |CombinedName(item.value)| > old(maxNameLength)
                                              then |CombinedName(item.value)| else old(maxNameLength)
    {
      if item.None? {
        return Some(Exceptions.ArgumentNull("item"));
      }
      MaxLengthWithItem(items, item.value, CombinedLength);
      items := WithItem(items, item.value);
      var length := NameLength(item.value);
      if length > maxNameLength {
        maxNameLength := length;
      }
      thrown := None;
    }

    /** `GetUsageDetailText`: nothing without options, otherwise the heading
      * and one line per option, in the order they were added. */
    method GetUsageDetailText(newLine: string) returns (text: string)
      ensures text == OptionDetailText(items, maxNameLength, newLine)
    {
      if items == [] {
        return "";
      }
      var lines := "";
      var i := 0;
      while i < |items|
        invariant 0 <= i <= |items|
        invariant lines == OptionDetailLines(items, i, maxNameLength, newLine)
      {
        lines := lines + OptionDetailLine(items[i], maxNameLength, newLine);
        i := i + 1;
      }
      text := Heading(Resources.OptionsCapitalizedName, newLine) + lines;
    }

    /** `GetUsageSyntaxText`: every option's syntax name followed by its
      * separator, four options to a line. */
    method GetUsageSyntaxText(indention: int, newLine: string) returns (text: string)
      ensures text == OptionSyntaxText(items, indention, newLine)
    {
      if items == [] {
        return "";
      }
      text := "";
      var counter := 0;
      while counter < |items|
        invariant 0 <= counter <= |items|
        invariant text == OptionSyntaxPrefix(items, counter, indention, newLine)
      {
        var option := items[counter];
        counter := counter + 1;
        var currentIndention := if counter % 4 == 0 then indention else 0;
        var indent := newLine + Text.Align(" ", currentIndention);
        var separator := if counter % 4 == 0 && counter < |items| then indent else " ";
        assert separator == SyntaxSeparator(counter, |items|, indention, newLine);
        OptionSyntaxPrefixNext(items, counter, indention, newLine);
        text := text + SyntaxName(option) + separator;
      }
    }
  }

  // ---------------------------------------------------------------------
  // The detail table of parameters and commands

  /** A name and a description as the detail table lists them. */
  datatype Entry = Entry(name: Option<string>, description: Option<string>)

  /** One line of a parameter or command table: the name (or `n/a`) padded
    * to the longest name, then the description (or `n/a`). */
  function EntryLine(e: Entry, maxNameLength: int, newLine: string): string
  {
    "    " + Text.Align(Shown(e.name), -maxNameLength) + "     " + Shown(e.description) + newLine
  }

  function EntryLines(entries: seq<Entry>, j: nat, maxNameLength: int, newLine: string): string
    requires j <= |entries|
  {
    if j == 0 then ""
    else EntryLines(entries, j - 1, maxNameLength, newLine) + EntryLine(entries[j - 1], maxNameLength, newLine)
  }

  function EntryDetailText(title: string, entries: seq<Entry>, maxNameLength: int, newLine: string): string
  {
    if entries == [] then "" else Heading(title, newLine) + EntryLines(entries, |entries|, maxNameLength, newLine)
  }

  /** The table's loop, shared by parameters and commands. */
  method EntryTable(title: string, entries: seq<Entry>, maxNameLength: int, newLine: string) returns (text: string)
    ensures text == EntryDetailText(title, entries, maxNameLength, newLine)
  {
    if entries == [] {
      return "";
    }
    var lines := "";
    var i := 0;
    while i < |entries|
      invariant 0 <= i <= |entries|
      invariant lines == EntryLines(entries, i, maxNameLength, newLine)
    {
      lines := lines + EntryLine(entries[i], maxNameLength, newLine);
      i := i + 1;
    }
    text := Heading(title, newLine) + lines;
  }

  /** The descriptions of a table line up: for every entry whose shown name
    * fits the name column, the description (or `n/a`) starts at column
    * `maxNameLength + 9`, right after the padded name. */
  lemma EntryDescriptionsAligned(e: Entry, maxNameLength: int, newLine: string)
    requires |Shown(e.name)| <= maxNameLength
    ensures EntryLine(e, maxNameLength, newLine)[maxNameLength + 9..] == Shown(e.description) + newLine
    ensures EntryLine(e, maxNameLength, newLine)[4..4 + |Shown(e.name)|] == Shown(e.name)
  {
    var padded := Text.Align(Shown(e.name), -maxNameLength);
    PaddedName(Shown(e.name), maxNameLength);
    ColumnLayout("    ", padded, "     ", Shown(e.description), newLine, 0, |Shown(e.name)|);
  }

  /** Every item's length is within the recorded longest length, so every
    * name fits the name column. */
  lemma ItemFits<T>(items: seq<T>, len: T -> nat, k: nat)
    requires k < |items|
    ensures len(items[k]) <= MaxLength(items, len)
  {
    MaxLengthIsMaximum(items, len);
  }

  /** The length `AddItem` compares for a parameter or command: its name's
    * length, 0 for a null name. */
  function NameLengthOf(name: Option<string>): nat
  {
    if name.Some? then |name.value| else 0
  }

  // ---------------------------------------------------------------------
  // ParameterUsageInfo

  function ParameterNameLength(p: ParameterAttr): nat
  {
    NameLengthOf(p.name)
  }

  function ParameterEntries(items: seq<ParameterAttr>): (r: seq<Entry>)
    ensures |r| == |items|
    ensures forall i :: 0 <= i < |items| ==> r[i] == Entry(items[i].name, items[i].description)
  {
    seq(|items|, i requires 0 <= i < |items| => Entry(items[i].name, items[i].description))
  }

  /** The syntax text of the first `j` parameters: `<name> ` each. */
  function ParameterSyntaxPrefix(items: seq<ParameterAttr>, j: nat): string
    requires j <= |items|
  {
    if j == 0 then ""
    else ParameterSyntaxPrefix(items, j - 1) + "<" + Shown(items[j - 1].name) + "> "
  }

  /** Each parameter contributes `<name> ` of its own length, so the syntax
    * text is as long as the shown names plus three characters each. */
  function ShownNamesLength(items: seq<ParameterAttr>, j: nat): nat
    requires j <= |items|
  {
    if j == 0 then 0 else ShownNamesLength(items, j - 1) + |Shown(items[j - 1].name)| + 3
  }

  lemma {:induction false} ParameterSyntaxLength(items: seq<ParameterAttr>, j: nat)
    requires j <= |items|
    ensures |ParameterSyntaxPrefix(items, j)| == ShownNamesLength(items, j)
    ensures j > 0 ==> |ParameterSyntaxPrefix(items, j)| >= 4 * j
  {
    if j > 0 {
      ParameterSyntaxLength(items, j - 1);
    }
  }

  /** The syntax text starts with the first parameter's entry and ends with
    * the last one's: `<` + name + `> `. */
  lemma {:induction false} ParameterSyntaxEnds(items: seq<ParameterAttr>, j: nat)
    requires 0 < j <= |items|
    ensures var t := ParameterSyntaxPrefix(items, j);
            var first := "<" + Shown(items[0].name) + "> ";
            |first| <= |t| && t[..|first|] == first
    ensures var t := ParameterSyntaxPrefix(items, j);
            var last := "<" + Shown(items[j - 1].name) + "> ";
            |last| <= |t| && t[|t| - |last|..] == last
  {
    var first := "<" + Shown(items[0].name) + "> ";
    var last := "<" + Shown(items[j - 1].name) + "> ";
    var t0 := ParameterSyntaxPrefix(items, j - 1);
    var t := ParameterSyntaxPrefix(items, j);
    assert t == t0 + last;
    assert t[|t0|..] == last;
    if j > 1 {
      ParameterSyntaxEnds(items, j - 1);
      assert t[..|first|] == t0[..|first|];
    } else {
      assert t0 == "";
    }
  }

  class ParameterUsageInfo {
    var items: seq<ParameterAttr>
    var maxNameLength: int

    ghost predicate Valid()
      reads this
    {
      Bookkeeping(items, maxNameLength, ParameterNameLength)
    }

    constructor ()
      ensures Valid() && items == [] && maxNameLength == 0
    {
      items := [];
      maxNameLength := 0;
    }

    /** `AddItem`: null is rejected (by the base class); otherwise the
      * parameter is listed once and the longest name grows to its name's
      * length. */
    method AddItem(item: Option<ParameterAttr>) returns (thrown: Option<Exceptions.Exception>)
      requires Valid()
      modifies this
      ensures Valid()
      ensures item.None? ==> thrown == Some(Exceptions.ArgumentNull("item"))
      ensures item.None? ==> items == old(items) && maxNameLength == old(maxNameLength)
      ensures item.Some? ==> thrown.None? && items == WithItem(old(items), item.value)
      ensures item.Some? ==> maxNameLength == if NameLengthOf(item.value.name) > old(maxNameLength)
                                              then NameLengthOf(item.value.name) else old(maxNameLength)
    {
      if item.None? {
        return Some(Exceptions.ArgumentNull("item"));
      }
      MaxLengthWithItem(items, item.value, ParameterNameLength);
      items := WithItem(items, item.value);
      if item.value.name.Some? && |item.value.name.value| > maxNameLength {
        maxNameLength := |item.value.name.value|;
      }
      thrown := None;
    }

    method GetUsageDetailText(newLine: string) returns (text: string)
      ensures text == EntryDetailText(Resources.ParametersCapitalizedName, ParameterEntries(items), maxNameLength, newLine)
    {
      text := EntryTable(Resources.ParametersCapitalizedName, ParameterEntries(items), maxNameLength, newLine);
    }

    /** `GetUsageSyntaxText`: `<name> ` for every parameter, in the order
      * they were added (the indention argument is not used). */
    method GetUsageSyntaxText() returns (text: string)
      ensures text == ParameterSyntaxPrefix(items, |items|)
    {
      if items == [] {
        return "";
      }
      text := "";
      var i := 0;
      while i < |items|
        invariant 0 <= i <= |items|
        invariant text == ParameterSyntaxPrefix(items, i)
      {
        text := text + ("<" + Shown(items[i].name) + "> ");
        i := i + 1;
      }
    }
  }

  // ---------------------------------------------------------------------
  // CommandUsageInfo

  function CommandNameLength(c: CommandAttr): nat
  {
    NameLengthOf(c.name)
  }

  function CommandEntries(items: seq<CommandAttr>): (r: seq<Entry>)
    ensures |r| == |items|
    ensures forall i :: 0 <= i < |items| ==> r[i] == Entry(items[i].name, Some(items[i].description))
  {
    seq(|items|, i requires 0 <= i < |items| => Entry(items[i].name, Some(items[i].description)))
  }

  const CommandSyntax := " <command> "

  class CommandUsageInfo {
    var items: seq<CommandAttr>
    var maxNameLength: int

    ghost predicate Valid()
      reads this
    {
      Bookkeeping(items, maxNameLength, CommandNameLength)
    }

    constructor ()
      ensures Valid() && items == [] && maxNameLength == 0
    {
      items := [];
      maxNameLength := 0;
    }

    method AddItem(item: Option<CommandAttr>) returns (thrown: Option<Exceptions.Exception>)
      requires Valid()
      modifies this
      ensures Valid()
      ensures item.None? ==> thrown == Some(Exceptions.ArgumentNull("item"))
      ensures item.None? ==> items == old(items) && maxNameLength == old(maxNameLength)
      ensures item.Some? ==> thrown.None? && items == WithItem(old(items), item.value)
      ensures item.Some? ==> maxNameLength == if NameLengthOf(item.value.name) > old(maxNameLength)
                                              then NameLengthOf(item.value.name) else old(maxNameLength)
    {
      if item.None? {
        return Some(Exceptions.ArgumentNull("item"));
      }
      MaxLengthWithItem(items, item.value, CommandNameLength);
      items := WithItem(items, item.value);
      if item.value.name.Some? && |item.value.name.value| > maxNameLength {
        maxNameLength := |item.value.name.value|;
      }
      thrown := None;
    }

    method GetUsageDetailText(newLine: string) returns (text: string)
      ensures text == EntryDetailText(Resources.CommandsCapitalizedName, CommandEntries(items), maxNameLength, newLine)
    {
      text := EntryTable(Resources.CommandsCapitalizedName, CommandEntries(items), maxNameLength, newLine);
    }

    /** `GetUsageSyntaxText`: the placeholder ` <command> ` when any command
      * is listed, nothing otherwise (the indention argument is not used). */
    function GetUsageSyntaxText(): (r: string)
      reads this
      ensures r != "" <==> items != []
      ensures r != "" ==> r == CommandSyntax
    {
      if items != [] then CommandSyntax else ""
    }
  }
}
