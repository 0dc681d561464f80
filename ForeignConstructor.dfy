/**
 * The Wren declaration generated for one C# constructor
 * (IronWren/AutoMapper/StructureMapping/ForeignConstructor.cs).
 *
 * The source text is `construct new(` + the parameter names joined by `, ` + `) { }`.
 * A parser for that shape is given beside the generator; the two round-trip
 * lemmas show that the generated text holds exactly the parameter names, in
 * declaration order, each once.
 */
module StructureMapping {
  import opened Results

  /** A reflected constructor. Only its ordered parameter names reach the
      generated source; `handle` stands for everything else reflection knows. */
  datatype ConstructorInfo = ConstructorInfo(handle: nat, parameterNames: seq<string>)

  const Header: string := "construct new("
  const Separator: string := ", "
  const Footer: string := ") { }"

  /** `string.Join(", ", names)`. */
  function Join(names: seq<string>): (r: string)
    ensures |names| > 0 ==> names[0] <= r
    ensures |names| > 0 ==> var last := names[|names| - 1];
      |last| <= |r| && r[|r| - |last|..] == last
    ensures |r| >= |Separator| * (|names| - 1)
  {
    if |names| == 0 then ""
    else if |names| == 1 then names[0]
    else names[0] + Separator + Join(names[1..])
  }

  /** The text the constructor of ForeignConstructor stores in its readonly field. */
  function ConstructorSource(parameterNames: seq<string>): (r: string)
    ensures Header <= r
    ensures |r| == |Header| + |Join(parameterNames)| + |Footer|
    ensures r[|r| - |Footer|..] == Footer
  {
    Header + Join(parameterNames) + Footer
  }

  /** A C# foreign constructor: both members are readonly and fixed at construction. */
  class ForeignConstructor {
    const Constructor: ConstructorInfo
    const source: string := ConstructorSource(Constructor.parameterNames)

    constructor (info: ConstructorInfo)
      ensures Constructor == info
    {
      Constructor := info;
    }

    /** The stored source; it reads no mutable state, so every call gives the same text. */
    function GetSource(): (s: string)
      ensures s == ConstructorSource(Constructor.parameterNames)
    {
      source
    }
  }

  // ---------------------------------------------------------------------------
  // A reader for the generated text, used to state what the text contains.
  // ---------------------------------------------------------------------------

  /** Characters a C# identifier can be made of (ASCII letters, digits, `_`,
      and any non-ASCII character, which covers the Unicode letter classes). */
  predicate IsNameChar(c: char)
  {
    ('a' <= c <= 'z') || ('A' <= c <= 'Z') || ('0' <= c <= '9') || c == '_' || c > '\U{7F}'
  }

  /** A reflected parameter name: a non-empty C# identifier. */
  predicate IsParameterName(n: string)
  {
    |n| > 0 && forall i :: 0 <= i < |n| ==> IsNameChar(n[i])
  }

  predicate AreParameterNames(names: seq<string>)
  {
    forall i :: 0 <= i < |names| ==> IsParameterName(names[i])
  }

  /** The length of the longest prefix of `s` made of name characters. */
  function NameLength(s: string): (n: nat)
    ensures n <= |s|
    ensures forall i :: 0 <= i < n ==> IsNameChar(s[i])
    ensures n < |s| ==> !IsNameChar(s[n])
  {
    if |s| == 0 || !IsNameChar(s[0]) then 0 else 1 + NameLength(s[1..])
  }

  /** Reads a non-empty, `, `-separated list of names that makes up all of `s`. */
  function ParseNames(s: string): Option<seq<string>>
    decreases |s|
  {
    var n := NameLength(s);
    if n == 0 then None
    else if n == |s| then Some([s])
    else if n + 2 <= |s| && s[n..n + 2] == Separator then
      match ParseNames(s[n + 2..])
      case Some(rest) => Some([s[..n]] + rest)
      case None => None
    else None
  }

  /** Reads a possibly empty parameter list. */
  function ParseParameterList(s: string): Option<seq<string>>
  {
    if s == "" then Some([]) else ParseNames(s)
  }

  /** Reads a constructor declaration back into its parameter names. */
  function ParseConstructorSource(src: string): Option<seq<string>>
  {
    if |src| >= |Header| + |Footer| && src[..|Header|] == Header && src[|src| - |Footer|..] == Footer
    then ParseParameterList(src[|Header|..|src| - |Footer|])
    else None
  }

  // ---------------------------------------------------------------------------
  // Properties
  // ---------------------------------------------------------------------------

  /** A constructor without parameters gives exactly `construct new() { }`. */
  lemma EmptyConstructorSource(fc: ForeignConstructor)
    requires fc.Constructor.parameterNames == []
    ensures fc.GetSource() == "construct new() { }"
  {
  }

  /** The text depends on the parameter names only: two constructors with the
      same names give identical source. */
  lemma SourceDependsOnlyOnNames(a: ForeignConstructor, b: ForeignConstructor)
    requires a.Constructor.parameterNames == b.Constructor.parameterNames
    ensures a.GetSource() == b.GetSource()
  {
  }

  /** The declaration is framed by the header and the footer around the joined names. */
  lemma SourceFraming(names: seq<string>)
    ensures var s := ConstructorSource(names);
      |s| == |Header| + |Join(names)| + |Footer|
      && s[..|Header|] == Header
      && s[|Header|..|s| - |Footer|] == Join(names)
      && s[|s| - |Footer|..] == Footer
  {
    var j := Join(names);
    var s := Header + j + Footer;
    assert s == ConstructorSource(names);
    assert |s| == |Header| + |j| + |Footer|;
    assert s[..|Header|] == Header;
    assert s[|Header|..|s| - |Footer|] == j;
    assert s[|s| - |Footer|..] == Footer;
  }

  /** A name followed by a separator (or nothing) is read as exactly that name. */
  lemma {:induction false} NameLengthOfName(n: string, rest: string)
    requires IsParameterName(n)
    requires rest == [] || !IsNameChar(rest[0])
    ensures NameLength(n + rest) == |n|
    decreases |n|
  {
    var s := n + rest;
    assert s[0] == n[0];
    if |n| == 1 {
      assert s[1..] == rest;
    } else {
      assert s[1..] == n[1..] + rest;
      NameLengthOfName(n[1..], rest);
    }
  }

  /** A name, a separator and a readable list read as that name followed by the list. */
  lemma ParseNamesCons(n: string, tail: string, rest: seq<string>)
    requires IsParameterName(n) && ParseNames(tail) == Some(rest)
    ensures ParseNames(n + Separator + tail) == Some([n] + rest)
  {
    var s := n + Separator + tail;
    assert s == n + (Separator + tail);
    NameLengthOfName(n, Separator + tail);
    var k := |n|;
    assert s[..k] == n;
    assert s[k..k + 2] == Separator;
    assert s[k + 2..] == tail;
  }

  /** Reading the joined names gives back the names. */
  lemma {:induction false} ParseJoin(names: seq<string>)
    requires |names| > 0 && AreParameterNames(names)
    ensures ParseNames(Join(names)) == Some(names)
  {
    if |names| == 1 {
      assert names[0] + [] == names[0];
      NameLengthOfName(names[0], []);
      assert names == [names[0]];
    } else {
      ParseJoin(names[1..]);
      ParseNamesCons(names[0], Join(names[1..]), names[1..]);
      assert [names[0]] + names[1..] == names;
    }
  }

  /** A list the reader accepts that goes on past its first name is that name,
      a separator and a list the reader accepts. */
  lemma ParseNamesSplit(s: string, names: seq<string>)
    requires ParseNames(s) == Some(names) && NameLength(s) < |s|
    ensures var n := NameLength(s);
      && n + 2 <= |s| && s[n..n + 2] == Separator
      && ParseNames(s[n + 2..]).Some?
      && names == [s[..n]] + ParseNames(s[n + 2..]).value
      && IsParameterName(s[..n])
  {
    var n := NameLength(s);
    forall i | 0 <= i < n
      ensures IsNameChar(s[..n][i])
    {
      assert s[..n][i] == s[i];
    }
  }

  /** A string is its part before `n`, the separator at `n`, and the rest. */
  lemma SplitAtSeparator(s: string, n: nat)
    requires n + 2 <= |s| && s[n..n + 2] == Separator
    ensures s == s[..n] + Separator + s[n + 2..]
  {
    assert s[n..] == s[n..n + 2] + s[n + 2..];
    assert s == s[..n] + s[n..];
  }

  /** Anything the reader accepts is the join of valid names. */
  lemma {:induction false} JoinParse(s: string, names: seq<string>)
    requires ParseNames(s) == Some(names)
    ensures |names| > 0 && AreParameterNames(names) && Join(names) == s
    decreases |s|
  {
    var n := NameLength(s);
    if n == |s| {
      assert names == [s];
    } else {
      ParseNamesSplit(s, names);
      SplitAtSeparator(s, n);
      var tail := s[n + 2..];
      var rest := ParseNames(tail).value;
      JoinParse(tail, rest);
      assert names[0] == s[..n] && names[1..] == rest;
    }
  }

  /** Generating and then reading a declaration gives back the parameter names:
      every name appears, in declaration order, and nothing else does. */
  lemma RoundTrip(names: seq<string>)
    requires AreParameterNames(names)
    ensures ParseConstructorSource(ConstructorSource(names)) == Some(names)
  {
    SourceFraming(names);
    if |names| > 0 {
      ParseJoin(names);
      assert Join(names) != "";
    }
  }

  /** The only texts the reader accepts are generated declarations: reading
      `src` as `names` means `src` is exactly the declaration for `names`. */
  lemma ParsedIsGenerated(src: string, names: seq<string>)
    requires ParseConstructorSource(src) == Some(names)
    ensures AreParameterNames(names)
    ensures src == ConstructorSource(names)
  {
    var middle := src[|Header|..|src| - |Footer|];
    if middle != "" {
      JoinParse(middle, names);
    }
    assert src == src[..|Header|] + middle + src[|src| - |Footer|..];
  }
}
