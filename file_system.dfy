/** `FileSystemInfo`: the syntactic checks of directory and file names. The
  * platform's directory separator and its invalid path and file-name
  * characters are parameters. */
module FileSystem {
  import Text

  datatype PathRules = PathRules(
    separator: char,
    invalidPathChars: set<char>,
    invalidFileNameChars: set<char>)

  predicate HasNoneOf(s: string, cs: set<char>)
  {
    forall m :: 0 <= m < |s| ==> s[m] !in cs
  }

  /** A directory name is non-blank and no separator-delimited segment but
    * the last holds an invalid path character. */
  predicate ValidDirectoryName(name: string, rules: PathRules)
  {
    && !Text.IsBlank(name)
    && var segments := Text.Split(name, rules.separator);
       forall k :: 0 <= k < |segments| - 1 ==> HasNoneOf(segments[k], rules.invalidPathChars)
  }

  /** What the file-name check demands of segment `k`: the last two segments
    * hold no invalid file-name character, each earlier one must pass the
    * directory-name check. */
  predicate FileSegmentOk(segments: seq<string>, k: nat, rules: PathRules)
    requires k < |segments|
  {
    if k < |segments| - 2 then ValidDirectoryName(segments[k], rules)
    else HasNoneOf(segments[k], rules.invalidFileNameChars)
  }

  predicate ValidFileName(name: string, rules: PathRules)
  {
    && !Text.IsBlank(name)
    && var segments := Text.Split(name, rules.separator);
       forall k :: 0 <= k < |segments| ==> FileSegmentOk(segments, k, rules)
  }

  /** The loop over the characters of one segment, stopping at the first
    * character found in `invalid`. */
  method SegmentHasNoneOf(segment: string, invalid: set<char>) returns (ok: bool)
    ensures ok == HasNoneOf(segment, invalid)
  {
    ok := true;
    var j := 0;
    while j < |segment|
      invariant 0 <= j <= |segment|
      invariant forall m :: 0 <= m < j ==> segment[m] !in invalid
    {
      if segment[j] in invalid {
        ok := false;
        break;
      }
      j := j + 1;
    }
  }

  /** `IsValidDirectoryName`. */
  method IsValidDirectoryName(name: string, rules: PathRules) returns (result: bool)
    ensures result == ValidDirectoryName(name, rules)
  {
    result := true;
    if Text.IsBlank(name) {
      result := false;
    }
    if result {
      var segments := Text.Split(name, rules.separator);
      var i := 0;
      while i < |segments| - 1
        invariant 0 <= i <= |segments| - 1
        invariant result
        invariant forall k :: 0 <= k < i ==> HasNoneOf(segments[k], rules.invalidPathChars)
      {
        result := SegmentHasNoneOf(segments[i], rules.invalidPathChars);
        if !result {
          break;
        }
        i := i + 1;
      }
    }
  }

  /** `IsValidFileName`. */
  method IsValidFileName(name: string, rules: PathRules) returns (result: bool)
    ensures result == ValidFileName(name, rules)
  {
    result := true;
    if Text.IsBlank(name) {
      result := false;
    }
    if result {
      var segments := Text.Split(name, rules.separator);
      var i := 0;
      while i < |segments|
        invariant 0 <= i <= |segments|
        invariant result
        invariant forall k :: 0 <= k < i ==> FileSegmentOk(segments, k, rules)
      {
        if i < |segments| - 2 {
          result := IsValidDirectoryName(segments[i], rules);
        } else {
          result := SegmentHasNoneOf(segments[i], rules.invalidFileNameChars);
        }
        if !result {
          assert !FileSegmentOk(segments, i, rules);
          break;
        }
        i := i + 1;
      }
    }
  }

  /** A text without the separator splits into itself. */
  lemma {:induction false} SplitWithoutSeparator(s: string, c: char)
    requires c !in s
    ensures Text.Split(s, c) == [s]
  {
    assert Text.CharIndex(s, c) == |s|;
  }

  /** A name without a separator is a valid directory name exactly when it is
    * not blank. */
  lemma SeparatorFreeDirectoryName(name: string, rules: PathRules)
    requires rules.separator !in name
    ensures ValidDirectoryName(name, rules) <==> !Text.IsBlank(name)
  {
    SplitWithoutSeparator(name, rules.separator);
  }

  /** The file-name check in terms of the segments only: every segment before
    * the last two must be non-blank, and the last two (or fewer) must hold no
    * invalid file-name character. */
  lemma FileNameBySegments(name: string, rules: PathRules)
    ensures var segments := Text.Split(name, rules.separator);
            ValidFileName(name, rules) <==>
              && !Text.IsBlank(name)
              && (forall k :: 0 <= k < |segments| - 2 ==> !Text.IsBlank(segments[k]))
              && (forall k :: |segments| - 2 <= k < |segments| && 0 <= k ==>
                    HasNoneOf(segments[k], rules.invalidFileNameChars))
  {
    var segments := Text.Split(name, rules.separator);
    forall k | 0 <= k < |segments|
      ensures FileSegmentOk(segments, k, rules) <==>
                if k < |segments| - 2 then !Text.IsBlank(segments[k])
                else HasNoneOf(segments[k], rules.invalidFileNameChars)
    {
      if k < |segments| - 2 {
        SeparatorFreeDirectoryName(segments[k], rules);
      }
    }
    if ValidFileName(name, rules) {
      forall k | 0 <= k < |segments| - 2
        ensures !Text.IsBlank(segments[k])
      {
        assert FileSegmentOk(segments, k, rules);
      }
      forall k | |segments| - 2 <= k < |segments| && 0 <= k
        ensures HasNoneOf(segments[k], rules.invalidFileNameChars)
      {
        assert FileSegmentOk(segments, k, rules);
      }
    }
  }

  /** With a separator-free name the directory check never inspects a
    * character, while the file check inspects them all. */
  lemma SeparatorFreeFileName(name: string, rules: PathRules)
    requires rules.separator !in name
    ensures ValidFileName(name, rules) <==> !Text.IsBlank(name) && HasNoneOf(name, rules.invalidFileNameChars)
  {
    SplitWithoutSeparator(name, rules.separator);
    var segments := Text.Split(name, rules.separator);
    assert segments == [name];
    assert FileSegmentOk(segments, 0, rules) == HasNoneOf(name, rules.invalidFileNameChars);
  }

  /** On a platform whose invalid file-name characters include `?`, the name
    * `?;` is not a valid file name. */
  lemma QuestionMarkNameRejected(rules: PathRules)
    requires '?' in rules.invalidFileNameChars
    requires rules.separator != '?' && rules.separator != ';'
    ensures !ValidFileName("?;", rules)
  {
    SeparatorFreeFileName("?;", rules);
    assert "?;"[0] == '?';
  }
}
