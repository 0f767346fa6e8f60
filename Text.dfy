/** Character-level helpers: the erase/find_first_not_of trimming idiom used by
    NormalizeName and by the INI reader, and splitting a line at a separator. */
module Text {
  import opened Wrappers

  /** The characters NormalizeName and the INI reader strip from whole lines. */
  const LineSpace: set<char> := {' ', '\t', '\r', '\n'}

  /** The characters the INI reader strips from a key and from a value. */
  const SpaceTab: set<char> := {' ', '\t'}

  /** find_first_not_of: the index of the first character of s outside ws,
      or |s| when there is none. */
  function FirstNotIn(s: string, ws: set<char>): (i: nat)
    ensures i <= |s|
    ensures forall k :: 0 <= k < i ==> s[k] in ws
    ensures i < |s| ==> s[i] !in ws
  {
    if s == [] || s[0] !in ws then 0 else 1 + FirstNotIn(s[1..], ws)
  }

  /** find_last_not_of plus one: one past the last character of s outside ws,
      or 0 when there is none. */
  function EndNotIn(s: string, ws: set<char>): (j: nat)
    ensures j <= |s|
    ensures forall k :: j <= k < |s| ==> s[k] in ws
    ensures j > 0 ==> s[j - 1] !in ws
  {
    if s == [] || s[|s| - 1] !in ws then |s| else EndNotIn(s[..|s| - 1], ws)
  }

  /** Removes the leading and then the trailing characters of ws, as the two
      erase calls do. The result is the part of s between a prefix and a
      suffix made only of ws, and it neither starts nor ends with ws. */
  function Trim(s: string, ws: set<char>): (r: string)
    ensures |r| <= |s|
    ensures var i := FirstNotIn(s, ws);
      i + |r| <= |s| && r == s[i..i + |r|] &&
      forall k :: i + |r| <= k < |s| ==> s[k] in ws
    ensures |r| > 0 ==> r[0] !in ws && r[|r| - 1] !in ws
    ensures r == [] <==> forall k :: 0 <= k < |s| ==> s[k] in ws
  {
    var i := FirstNotIn(s, ws);
    var t := s[i..];
    var j := EndNotIn(t, ws);
    assert j > 0 ==> t[0] !in ws;
    t[..j]
  }

  /** A string that neither starts nor ends with ws is its own trimmed form. */
  lemma {:induction false} TrimOfTrimmed(s: string, ws: set<char>)
    requires |s| > 0 ==> s[0] !in ws && s[|s| - 1] !in ws
    ensures Trim(s, ws) == s
  {
    if |s| > 0 {
      assert FirstNotIn(s, ws) == 0;
      assert s[0..] == s;
      assert EndNotIn(s, ws) == |s|;
    }
  }

  /** Trimming takes no character away that the text did not hold. */
  lemma TrimKeepsOut(s: string, ws: set<char>, c: char)
    requires c !in s
    ensures c !in Trim(s, ws)
  {
  }

  /** Trimming twice is trimming once. */
  lemma TrimIdempotent(s: string, ws: set<char>)
    ensures Trim(Trim(s, ws), ws) == Trim(s, ws)
  {
    TrimOfTrimmed(Trim(s, ws), ws);
  }

  /** NormalizeName: strips spaces, tabs, carriage returns and line feeds
      from both ends of a name. */
  function NormalizeName(name: string): (r: string)
    ensures var i := FirstNotIn(name, LineSpace);
      i + |r| <= |name| && r == name[i..i + |r|] &&
      forall k :: i + |r| <= k < |name| ==> name[k] in LineSpace
    ensures |r| > 0 ==> r[0] !in LineSpace && r[|r| - 1] !in LineSpace
    ensures r == [] <==> forall k :: 0 <= k < |name| ==> name[k] in LineSpace
  {
    Trim(name, LineSpace)
  }

  /** Normalising an already normalised name changes nothing. */
  lemma NormalizeNameIdempotent(name: string)
    ensures NormalizeName(NormalizeName(name)) == NormalizeName(name)
  {
    TrimIdempotent(name, LineSpace);
  }

  /** std::string::find of one character: its first index, or |s|. */
  function IndexOf(s: string, c: char): (i: nat)
    ensures i <= |s|
    ensures forall k :: 0 <= k < i ==> s[k] != c
    ensures i < |s| ==> s[i] == c
  {
    if s == [] || s[0] == c then 0 else 1 + IndexOf(s[1..], c)
  }

  /** Splits s at the first occurrence of c into the text before it and the
      text after it; None when c does not occur. */
  function SplitAtFirst(s: string, c: char): (r: Option<(string, string)>)
    ensures r.None? <==> c !in s
    ensures r.Some? ==> r.value.0 + [c] + r.value.1 == s && c !in r.value.0
  {
    var i := IndexOf(s, c);
    if i == |s| then None
    else
      assert s[..i] + [c] + s[i + 1..] == s;
      Some((s[..i], s[i + 1..]))
  }

  /** The first occurrence of c in a + [c] + b, for a text a without c, is
      the one after a. */
  lemma IndexOfAfter(a: string, c: char, b: string)
    requires c !in a
    ensures IndexOf(a + [c] + b, c) == |a|
  {
    var i := IndexOf(a + [c] + b, c);
    assert (a + [c] + b)[|a|] == c;
    assert i <= |a|;
  }

  /** Splitting a + [c] + b at c, for a text a without c, gives back a and b. */
  lemma SplitAtFirstOf(a: string, c: char, b: string)
    requires c !in a
    ensures SplitAtFirst(a + [c] + b, c) == Some((a, b))
  {
    IndexOfAfter(a, c, b);
    assert (a + [c] + b)[..|a|] == a;
    assert (a + [c] + b)[|a| + 1..] == b;
  }
}
