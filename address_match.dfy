/**
 * The rule that decides whether a derived address is the vanity address the
 * user asked for: the pattern (substring), where it must sit (position) and
 * whether letter case matters (case_sensitive), given the fixed prefix of the
 * address scheme (start_with).
 */
module AddressMatch {

  const START := "start"
  const ANYWHERE := "anywhere"
  const END := "end"

  /** The lower-case form of one character, as Python's str.lower() gives it for ASCII. */
  function LowerChar(c: char): char {
    if 'A' <= c <= 'Z' then (c as int + 32) as char else c
  }

  /** Python's str.lower(), character by character. */
  function Lower(s: string): (r: string)
    ensures SameUpToCase(s, r)
    ensures forall i :: 0 <= i < |r| ==> !('A' <= r[i] <= 'Z')
  {
    seq(|s|, i requires 0 <= i < |s| => LowerChar(s[i]))
  }

  /** Two strings that differ at most in the case of their letters. */
  predicate SameUpToCase(x: string, y: string) {
    |x| == |y| && forall i :: 0 <= i < |x| ==> LowerChar(x[i]) == LowerChar(y[i])
  }

  /** Python's s.startswith(p). */
  predicate StartsWith(s: string, p: string) {
    |p| <= |s| && s[..|p|] == p
  }

  /** Python's s.endswith(p). */
  predicate EndsWith(s: string, p: string) {
    |p| <= |s| && s[|s| - |p|..] == p
  }

  /** p occurs in s starting at offset i. */
  predicate OccursAt(s: string, p: string, i: int) {
    0 <= i && i + |p| <= |s| && s[i..i + |p|] == p
  }

  /** Python's `p in s`: a scan over the start offsets of s. */
  function Contains(s: string, p: string): (r: bool)
    ensures r <==> exists i :: OccursAt(s, p, i)
  {
    if StartsWith(s, p) then
      assert OccursAt(s, p, 0);
      true
    else if s == [] then
      false
    else
      ShiftOccurrence(s, p);
      Contains(s[1..], p)
  }

  /** An occurrence in s other than at offset 0 is an occurrence in s[1..], one place earlier. */
  lemma ShiftOccurrence(s: string, p: string)
    requires s != [] && !StartsWith(s, p)
    ensures (exists i :: OccursAt(s, p, i)) <==> (exists j :: OccursAt(s[1..], p, j))
  {
    forall i | OccursAt(s, p, i)
      ensures OccursAt(s[1..], p, i - 1)
    {
      assert i != 0;
      assert s[1..][i - 1..i - 1 + |p|] == s[i..i + |p|];
    }
    forall j | OccursAt(s[1..], p, j)
      ensures OccursAt(s, p, j + 1)
    {
      assert s[1..][j..j + |p|] == s[j + 1..j + 1 + |p|];
    }
  }

  /** The string compared under the case policy: itself, or lower-cased. */
  function Folded(s: string, caseSensitive: bool): string {
    if caseSensitive then s else Lower(s)
  }

  /**
   * The match expression of find_address. Under "start" the scheme prefix
   * followed by the substring must begin the address; under "anywhere" the
   * substring must occur in the full address; under "end" it must end it.
   * When case does not matter, address and substring are lower-cased; the
   * scheme prefix is taken as it is. Any other position matches nothing.
   */
  predicate Matches(address: string, substring: string, startWith: string, caseSensitive: bool, position: string)
    ensures Matches(address, substring, startWith, caseSensitive, position) ==>
      (position == START || position == ANYWHERE || position == END) && |substring| <= |address|
  {
    if caseSensitive then
      (position == START && StartsWith(address, startWith + substring)) ||
      (position == ANYWHERE && Contains(address, substring)) ||
      (position == END && EndsWith(address, substring))
    else
      (position == START && StartsWith(Lower(address), startWith + Lower(substring))) ||
      (position == ANYWHERE && Contains(Lower(address), Lower(substring))) ||
      (position == END && EndsWith(Lower(address), Lower(substring)))
  }

  /** Under "anywhere", a match is exactly an occurrence of the substring in the whole address. */
  lemma AnywhereIsOccurrence(address: string, substring: string, startWith: string, caseSensitive: bool)
    ensures Matches(address, substring, startWith, caseSensitive, ANYWHERE)
        <==> exists i :: OccursAt(Folded(address, caseSensitive), Folded(substring, caseSensitive), i)
  {
    assert Matches(address, substring, startWith, caseSensitive, ANYWHERE)
        == Contains(Folded(address, caseSensitive), Folded(substring, caseSensitive));
  }

  /** The empty substring matches every address under "anywhere". */
  lemma EmptyMatchesAnywhere(address: string, startWith: string, caseSensitive: bool)
    ensures Matches(address, "", startWith, caseSensitive, ANYWHERE)
  {
    assert OccursAt(Folded(address, caseSensitive), Folded("", caseSensitive), 0);
  }

  /** Under "start", a match is exactly the address beginning with the prefix followed by the substring. */
  lemma StartIsPrefix(address: string, substring: string, startWith: string, caseSensitive: bool)
    ensures Matches(address, substring, startWith, caseSensitive, START)
        <==> StartsWith(Folded(address, caseSensitive), startWith + Folded(substring, caseSensitive))
  {
  }

  /** Under "start", the empty substring matches exactly the addresses that begin with the scheme prefix. */
  lemma EmptyMatchesStartIffPrefix(address: string, startWith: string, caseSensitive: bool)
    ensures Matches(address, "", startWith, caseSensitive, START)
        <==> StartsWith(Folded(address, caseSensitive), startWith)
  {
    assert Folded("", caseSensitive) == "";
    assert startWith + "" == startWith;
  }

  /** Under "end", a match is exactly the address ending with the substring. */
  lemma EndIsSuffix(address: string, substring: string, startWith: string, caseSensitive: bool)
    ensures Matches(address, substring, startWith, caseSensitive, END)
        <==> EndsWith(Folded(address, caseSensitive), Folded(substring, caseSensitive))
  {
  }

  /** A position other than start, anywhere or end never matches. */
  lemma UnknownPositionNeverMatches(address: string, substring: string, startWith: string, caseSensitive: bool, position: string)
    requires position != START && position != ANYWHERE && position != END
    ensures !Matches(address, substring, startWith, caseSensitive, position)
  {
  }

  /** Strings equal up to case have the same lower-case form. */
  lemma SameUpToCaseLower(x: string, y: string)
    requires SameUpToCase(x, y)
    ensures Lower(x) == Lower(y)
  {
  }

  /**
   * Without case sensitivity the verdict depends only on the lower-cased
   * address and substring: changing the case of any letters of either
   * changes nothing.
   */
  lemma CaseInsensitiveIgnoresCase(a1: string, a2: string, s1: string, s2: string, startWith: string, position: string)
    requires SameUpToCase(a1, a2) && SameUpToCase(s1, s2)
    ensures Matches(a1, s1, startWith, false, position) == Matches(a2, s2, startWith, false, position)
  {
    SameUpToCaseLower(a1, a2);
    SameUpToCaseLower(s1, s2);
  }

  /** Lower-casing commutes with taking a slice. */
  lemma LowerSlice(s: string, i: int, j: int)
    requires 0 <= i <= j <= |s|
    ensures Lower(s)[i..j] == Lower(s[i..j])
  {
  }

  /** Lower-casing commutes with concatenation. */
  lemma LowerAppend(x: string, y: string)
    ensures Lower(x + y) == Lower(x) + Lower(y)
  {
  }

  /**
   * The scheme prefix is not lower-cased, but every scheme prefix is already
   * in lower case; for such a prefix the case-insensitive "start" test is
   * the case-insensitive comparison of the address with prefix + substring.
   */
  lemma StartFoldsPrefix(address: string, substring: string, startWith: string)
    requires Lower(startWith) == startWith
    ensures Matches(address, substring, startWith, false, START)
        <==> StartsWith(Lower(address), Lower(startWith + substring))
  {
    LowerAppend(startWith, substring);
  }

  /**
   * For a lower-case scheme prefix, a case-sensitive match is also a
   * case-insensitive one, in every position.
   */
  lemma SensitiveMatchImpliesInsensitive(address: string, substring: string, startWith: string, position: string)
    requires Lower(startWith) == startWith
    requires Matches(address, substring, startWith, true, position)
    ensures Matches(address, substring, startWith, false, position)
  {
    var a, s := Lower(address), Lower(substring);
    if position == START {
      var p := startWith + substring;
      LowerSlice(address, 0, |p|);
      LowerAppend(startWith, substring);
      assert StartsWith(a, startWith + s);
    } else if position == ANYWHERE {
      var i :| OccursAt(address, substring, i);
      LowerSlice(address, i, i + |substring|);
      assert OccursAt(a, s, i);
    } else {
      LowerSlice(address, |address| - |substring|, |address|);
      assert EndsWith(a, s);
    }
  }
}
