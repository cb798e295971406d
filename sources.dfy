/**
 * Adding a data source from the sidebar: a name made only of white space
 * is refused; otherwise the source gets the built-in colour rules.
 */
module Sources {

  import opened Common
  import opened Types
  import opened Classification

  /** The field selected when the sidebar first appears. */
  const DefaultField := "temperature_2m"

  /** ECMAScript WhiteSpace and LineTerminator code points: what `String.prototype.trim` removes. */
  predicate IsWhitespace(c: char)
    ensures c == ' ' || c == '\t' || c == '\n' ==> IsWhitespace(c)
    ensures '!' <= c <= '~' ==> !IsWhitespace(c)
  {
    c == '\t' || c == '\n' || c == '\U{000B}' || c == '\U{000C}' || c == '\r' || c == ' ' ||
    c == '\U{00A0}' || c == '\U{1680}' || ('\U{2000}' <= c <= '\U{200A}') ||
    c == '\U{2028}' || c == '\U{2029}' || c == '\U{202F}' || c == '\U{205F}' ||
    c == '\U{3000}' || c == '\U{FEFF}'
  }

  predicate IsBlank(s: string) {
    forall i :: 0 <= i < |s| ==> IsWhitespace(s[i])
  }

  /** `s` without its leading white space. */
  function TrimStart(s: string): (r: string)
    ensures |r| <= |s| && r == s[|s| - |r|..]
    ensures IsBlank(s[..|s| - |r|])
    ensures r == [] || !IsWhitespace(r[0])
  {
    if s != [] && IsWhitespace(s[0]) then
      var r := TrimStart(s[1..]);
      BlankPrefixGrows(s, r);
      r
    else s
  }

  /** A white-space character in front of a blank prefix keeps it blank. */
  lemma BlankPrefixGrows(s: string, r: string)
    requires s != [] && IsWhitespace(s[0])
    requires |r| <= |s| - 1 && r == s[1..][|s| - 1 - |r|..] && IsBlank(s[1..][..|s| - 1 - |r|])
    ensures r == s[|s| - |r|..] && IsBlank(s[..|s| - |r|])
  {
    assert s[..|s| - |r|] == [s[0]] + s[1..][..|s| - 1 - |r|];
  }

  /** `s` without its trailing white space. */
  function TrimEnd(s: string): (r: string)
    ensures |r| <= |s| && r == s[..|r|]
    ensures IsBlank(s[|r|..])
    ensures r == [] || !IsWhitespace(r[|r| - 1])
  {
    if s != [] && IsWhitespace(s[|s| - 1]) then
      var r := TrimEnd(s[..|s| - 1]);
      BlankSuffixGrows(s, r);
      r
    else s
  }

  /** A white-space character after a blank suffix keeps it blank. */
  lemma BlankSuffixGrows(s: string, r: string)
    requires s != [] && IsWhitespace(s[|s| - 1])
    requires |r| <= |s| - 1 && r == s[..|s| - 1][..|r|] && IsBlank(s[..|s| - 1][|r|..])
    ensures r == s[..|r|] && IsBlank(s[|r|..])
  {
    assert s[|r|..] == s[..|s| - 1][|r|..] + [s[|s| - 1]];
  }

  /**
   * `r` is the window of `s` that starts at `k`: only white space lies
   * before and after it in `s`, and it neither starts nor ends with white
   * space.
   */
  predicate TrimmedAt(s: string, k: int, r: string) {
    0 <= k && k + |r| <= |s| && r == s[k..k + |r|] &&
    IsBlank(s[..k]) && IsBlank(s[k + |r|..]) &&
    (r == [] || (!IsWhitespace(r[0]) && !IsWhitespace(r[|r| - 1])))
  }

  /**
   * `String.prototype.trim`: the window of `s` that starts after its
   * leading white space and has only white space around it.
   */
  function Trim(s: string): (r: string)
    ensures TrimmedAt(s, |s| - |TrimStart(s)|, r)
  {
    var t := TrimStart(s);
    var r := TrimEnd(t);
    TrimmedWindow(s, t, r);
    r
  }

  /**
   * The two trims compose: `r`, trailing white space cut from `t`, which
   * is leading white space cut from `s`, is the trimmed window of `s`.
   */
  lemma TrimmedWindow(s: string, t: string, r: string)
    requires |t| <= |s| && t == s[|s| - |t|..] && IsBlank(s[..|s| - |t|])
    requires t == [] || !IsWhitespace(t[0])
    requires |r| <= |t| && r == t[..|r|] && IsBlank(t[|r|..])
    requires r == [] || !IsWhitespace(r[|r| - 1])
    ensures TrimmedAt(s, |s| - |t|, r)
  {
    var k := |s| - |t|;
    assert s[k + |r|..] == t[|r|..];
    assert r != [] ==> r[0] == t[0];
  }

  /** A name trims to the empty string exactly when every character of it is white space. */
  lemma TrimEmptyIffBlank(s: string)
    ensures Trim(s) == [] <==> IsBlank(s)
  {
  }

  /**
   * The source the Add Source button makes of the typed name and the
   * selected field: refused (`None`) for a blank name, otherwise the name
   * as typed, untrimmed, with the built-in rules and the clock as id.
   */
  function NewDataSource(name: string, field: string, now: int): (r: Option<DataSource>)
    ensures r.None? <==> IsBlank(name)
    ensures r.Some? ==> r.value == DataSource(now, name, field, BuiltInRules)
  {
    TrimEmptyIffBlank(name);
    if Trim(name) == [] then None else Some(DataSource(now, name, field, BuiltInRules))
  }

  class DataSourceSidebar {
    var newSourceName: string
    var newSourceField: string

    constructor ()
      ensures newSourceName == "" && newSourceField == DefaultField
    {
      newSourceName := "";
      newSourceField := DefaultField;
    }

    /** Typing in the name box. */
    method SetNewSourceName(name: string)
      modifies this
      ensures newSourceName == name && newSourceField == old(newSourceField)
    {
      newSourceName := name;
    }

    /** Choosing a field in the select box. */
    method SetNewSourceField(field: string)
      modifies this
      ensures newSourceField == field && newSourceName == old(newSourceName)
    {
      newSourceField := field;
    }

    /**
     * The Add Source button: returns the source passed to
     * `onDataSourceAdd`, if any; the name box is cleared only when a
     * source was added.
     */
    method AddDataSource(now: int) returns (added: Option<DataSource>)
      modifies this
      ensures added == NewDataSource(old(newSourceName), old(newSourceField), now)
      ensures newSourceName == (if added.Some? then "" else old(newSourceName))
      ensures newSourceField == old(newSourceField)
    {
      if Trim(newSourceName) == [] {
        return None;
      }
      var newSource := DataSource(now, newSourceName, newSourceField, BuiltInRules);
      added := Some(newSource);
      newSourceName := "";
    }
  }

}
