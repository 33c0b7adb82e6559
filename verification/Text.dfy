/** The string operations the programs rely on, with Python's notion of white space and line breaks. */
module Text {

  /** Characters that end a line for `str.splitlines`. */
  predicate IsLineBreak(c: char)
  {
    c == '\n' || c == '\r' || c == '\U{0B}' || c == '\U{0C}' || ('\U{1C}' <= c <= '\U{1E}')
    || c == '\U{85}' || c == '\U{2028}' || c == '\U{2029}'
  }

  /** Characters that `str.strip` removes. */
  predicate IsSpace(c: char)
  {
    IsLineBreak(c) || c == '\t' || c == ' ' || c == '\U{1F}' || c == '\U{A0}' || c == '\U{1680}'
    || ('\U{2000}' <= c <= '\U{200A}') || c == '\U{202F}' || c == '\U{205F}' || c == '\U{3000}'
  }

  function StripLeft(s: string): string
  {
    if s != "" && IsSpace(s[0]) then StripLeft(s[1..]) else s
  }

  function StripRight(s: string): string
  {
    if s != "" && IsSpace(s[|s| - 1]) then StripRight(s[..|s| - 1]) else s
  }

  function Strip(s: string): string
  {
    StripRight(StripLeft(s))
  }

  /** A nonempty string without white space. */
  predicate IsToken(s: string)
  {
    s != "" && forall i | 0 <= i < |s| :: !IsSpace(s[i])
  }

  /** The position of the first `c`, or |s|. */
  function IndexOf(s: string, c: char): (k: nat)
    ensures k <= |s| && c !in s[..k] && (k < |s| ==> s[k] == c)
  {
    if s == "" then 0
    else if s[0] == c then 0
    else
      var k := IndexOf(s[1..], c) + 1;
      assert s[..k] == [s[0]] + s[1..][..k - 1];
      k
  }

  /** The position of the first line break, or |s|. */
  function LineEnd(s: string): (k: nat)
    ensures k <= |s| && (forall i | 0 <= i < k :: !IsLineBreak(s[i])) && (k < |s| ==> IsLineBreak(s[k]))
  {
    if s == "" then 0
    else if IsLineBreak(s[0]) then 0
    else LineEnd(s[1..]) + 1
  }

  function SplitLines(s: string): seq<string>
    decreases |s|
  {
    if s == "" then []
    else
      var k := LineEnd(s);
      if k == |s| then [s]
      else
        var n := if s[k] == '\r' && k + 1 < |s| && s[k + 1] == '\n' then k + 2 else k + 1;
        [s[..k]] + SplitLines(s[n..])
  }

  /** Iterating over an open text file: every line keeps its newline. */
  function FileLines(s: string): (r: seq<string>)
    ensures forall i | 0 <= i < |r| :: r[i] != ""
    decreases |s|
  {
    if s == "" then []
    else
      var k := IndexOf(s, '\n');
      if k == |s| then [s] else [s[..k + 1]] + FileLines(s[k + 1..])
  }

  /** The part of a file name from its last dot on, as `PurePath.suffix` gives it. */
  function LastDot(name: string): (k: nat)
    ensures k <= |name| && (k < |name| ==> name[k] == '.') && (forall i | k < i < |name| :: name[i] != '.')
    ensures k == |name| ==> '.' !in name
  {
    if name == "" then 0
    else if name[|name| - 1] == '.' then |name| - 1
    else
      var k := LastDot(name[..|name| - 1]);
      if k == |name| - 1 then |name| else k
  }

  function Suffix(name: string): string
  {
    var k := LastDot(name);
    if 0 < k < |name| - 1 then name[k..] else ""
  }

  function Stem(name: string): (r: string)
    ensures r + Suffix(name) == name
  {
    name[..|name| - |Suffix(name)|]
  }
}
