/** The option records: `ParseOptions` (indicators, value separator and
  * quotation character the tokenizer uses) and `TokenizeOptions` (the
  * defaults the parser uses). Both are plain records of settings. */
module Options {
  import Text

  /** A culture, known by its name; the culture-dependent parsers it drives are
    * not part of this model. */
  datatype Culture = Culture(name: string)

  datatype ParseOptions = ParseOptions(
    culture: Culture,
    defaultNameIndicator: string,
    alternativeNameIndicator: string,
    longNameIndicator: string,
    valueIndicator: string,
    quotationCharacter: char,
    defaultSeparatorCharacter: char)

  /** A new `ParseOptions`: the current UI culture and the default settings. */
  function NewParseOptions(currentUICulture: Culture): (o: ParseOptions)
    ensures o.culture == currentUICulture
    ensures o.defaultNameIndicator == "/" && o.alternativeNameIndicator == "-"
    ensures o.longNameIndicator == "--" && o.valueIndicator == ":"
    ensures o.quotationCharacter == '"' && o.defaultSeparatorCharacter == ' '
  {
    ParseOptions(currentUICulture, "/", "-", "--", ":", '"', ' ')
  }

  /** `GetArgumentOptionNameIndicators`: default, alternative and long-name
    * indicator, in this order. */
  function NameIndicators(o: ParseOptions): (r: seq<string>)
    ensures |r| == 3
    ensures r[0] == o.defaultNameIndicator && r[1] == o.alternativeNameIndicator
    ensures r[2] == o.longNameIndicator
  {
    [o.defaultNameIndicator, o.alternativeNameIndicator, o.longNameIndicator]
  }

  /** With the default settings every argument that starts with the long-name
    * indicator also starts with the alternative one, so a classification has
    * to test the long-name indicator first. */
  lemma LongIndicatorOverlapsAlternative(c: Culture, arg: string)
    requires Text.HasPrefix(arg, NewParseOptions(c).longNameIndicator)
    ensures Text.HasPrefix(arg, NewParseOptions(c).alternativeNameIndicator)
    ensures Text.StartsWithAny(arg, NameIndicators(NewParseOptions(c)), true)
  {
    var o := NewParseOptions(c);
    assert arg[..1] == arg[..2][..1];
    assert Text.StartsWith(arg, NameIndicators(o)[1], true);
  }

  datatype TokenizeOptions = TokenizeOptions(
    quotationCharacter: char,
    separators: seq<char>,
    nameIndicators: seq<string>,
    valueSeparators: seq<char>)

  const DefaultNameIndicator := "/"
  const AlternativeNameIndicator := "-"
  const LongNameIndicator := "--"
  const DefaultValueSeparator := ':'

  /** A new `TokenizeOptions` with the default settings. */
  function NewTokenizeOptions(): (o: TokenizeOptions)
    ensures o.quotationCharacter == '"'
    ensures o.separators == [' ', 9 as char]
    ensures o.nameIndicators == ["/", "-", "--"]
    ensures o.valueSeparators == [':', '=']
  {
    TokenizeOptions('"', [' ', 9 as char],
                    [DefaultNameIndicator, AlternativeNameIndicator, LongNameIndicator],
                    [DefaultValueSeparator, '='])
  }
}
