/**
 * Derivation-path strings in the layout of BIP-0044 ("Path levels"):
 * "m" followed by one "/level" per level, a hardened level carrying a
 * trailing apostrophe, each level index written in decimal.
 */
module DerivationPath {
  import opened Common

  predicate IsDigit(c: char) {
    '0' <= c <= '9'
  }

  predicate AllDigits(s: string) {
    forall i :: 0 <= i < |s| ==> IsDigit(s[i])
  }

  function DigitChar(d: nat): char
    requires d < 10
  {
    ('0' as int + d) as char
  }

  function DigitValue(c: char): nat
    requires IsDigit(c)
  {
    c as int - '0' as int
  }

  /** Python's str(n) for a non-negative integer: its decimal digits. */
  function Decimal(n: nat): (r: string)
    ensures r != [] && AllDigits(r)
    ensures r[0] == '0' ==> n == 0
  {
    if n < 10 then [DigitChar(n)] else Decimal(n / 10) + [DigitChar(n % 10)]
  }

  /** The number a string of decimal digits denotes, most significant digit first. */
  function DigitsValue(s: string): nat
    requires AllDigits(s)
  {
    if s == [] then 0 else DigitsValue(s[..|s| - 1]) * 10 + DigitValue(s[|s| - 1])
  }

  /** Reading back the decimal text of n gives n. */
  lemma {:induction false} DecimalRoundTrip(n: nat)
    ensures DigitsValue(Decimal(n)) == n
  {
    if n >= 10 {
      DecimalRoundTrip(n / 10);
      var s := Decimal(n);
      assert s[..|s| - 1] == Decimal(n / 10);
    }
  }

  /** One level of a path: its index and whether it is hardened. */
  datatype Level = Level(index: nat, hardened: bool)

  function LevelText(l: Level): string {
    "/" + Decimal(l.index) + (if l.hardened then "'" else "")
  }

  function FormatLevels(ls: seq<Level>): string {
    if ls == [] then "" else LevelText(ls[0]) + FormatLevels(ls[1..])
  }

  /** The text of a path: "m", then "/index" or "/index'" per level. */
  function Format(ls: seq<Level>): string {
    "m" + FormatLevels(ls)
  }

  /** The length of the longest run of digits that begins s. */
  function DigitRun(s: string): (n: nat)
    ensures n <= |s| && AllDigits(s[..n])
  {
    if s != [] && IsDigit(s[0]) then 1 + DigitRun(s[1..]) else 0
  }

  /** Reads one "/index" or "/index'" level from the front of s, with the text after it. */
  function ReadLevel(s: string): (r: Option<(Level, string)>)
    ensures r.Some? ==> |r.value.1| < |s|
  {
    if s == [] || s[0] != '/' then None
    else
      var digits := s[1..];
      var n := DigitRun(digits);
      if n == 0 then None
      else
        var rest := digits[n..];
        var hardened := rest != [] && rest[0] == '\'';
        Some((Level(DigitsValue(digits[..n]), hardened), if hardened then rest[1..] else rest))
  }

  /** Reads levels until the text is used up. */
  function ParseLevels(s: string): Option<seq<Level>>
    decreases |s|
  {
    if s == [] then Some([])
    else
      match ReadLevel(s)
      case None => None
      case Some((l, rest)) =>
        match ParseLevels(rest)
        case None => None
        case Some(ls) => Some([l] + ls)
  }

  /** Reads a path text back into its levels. */
  function Parse(s: string): Option<seq<Level>> {
    if s != [] && s[0] == 'm' then ParseLevels(s[1..]) else None
  }

  /** A digit run ends where the digits do. */
  lemma {:induction false} DigitRunOf(d: string, rest: string)
    requires AllDigits(d)
    requires rest == [] || !IsDigit(rest[0])
    ensures DigitRun(d + rest) == |d|
  {
    if d != [] {
      assert (d + rest)[1..] == d[1..] + rest;
      DigitRunOf(d[1..], rest);
    } else {
      assert d + rest == rest;
    }
  }

  /** The text of a non-empty level list begins with a separator. */
  lemma FormatLevelsStart(ls: seq<Level>)
    ensures FormatLevels(ls) == [] || FormatLevels(ls)[0] == '/'
  {
  }

  /** A separator, a digit run, an optional apostrophe and further levels read back as one level and the rest. */
  lemma ReadLevelOf(d: string, hardened: bool, tail: string)
    requires d != [] && AllDigits(d)
    requires tail == [] || tail[0] == '/'
    ensures ReadLevel("/" + d + (if hardened then "'" else "") + tail)
         == Some((Level(DigitsValue(d), hardened), tail))
  {
    var rest := (if hardened then "'" else "") + tail;
    var s := "/" + d + (if hardened then "'" else "") + tail;
    var u := s[1..];
    assert u == d + rest;
    assert u[..|d|] == d && u[|d|..] == rest;
    assert rest == [] || !IsDigit(rest[0]);
    DigitRunOf(d, rest);
    assert s != [] && s[0] == '/';
    assert (rest != [] && rest[0] == '\'') == hardened;
    assert ReadLevel(s) == Some((Level(DigitsValue(d), hardened), if hardened then rest[1..] else rest));
    if hardened {
      assert rest[1..] == tail;
    } else {
      assert rest == tail;
    }
  }

  /** One level's text, followed by further levels, reads back as that level and the rest. */
  lemma ReadLevelText(l: Level, tail: string)
    requires tail == [] || tail[0] == '/'
    ensures ReadLevel(LevelText(l) + tail) == Some((l, tail))
  {
    DecimalRoundTrip(l.index);
    ReadLevelOf(Decimal(l.index), l.hardened, tail);
  }

  /** Parsing the text of a level list gives back the levels. */
  lemma {:induction false} ParseFormatLevels(ls: seq<Level>)
    ensures ParseLevels(FormatLevels(ls)) == Some(ls)
  {
    if ls != [] {
      FormatLevelsStart(ls[1..]);
      ReadLevelText(ls[0], FormatLevels(ls[1..]));
      ParseFormatLevels(ls[1..]);
      assert [ls[0]] + ls[1..] == ls;
    }
  }

  /** A path text parses back to exactly the levels it was written from. */
  lemma ParseFormat(ls: seq<Level>)
    ensures Parse(Format(ls)) == Some(ls)
  {
    assert Format(ls)[1..] == FormatLevels(ls);
    ParseFormatLevels(ls);
  }

  /** Different level lists are written as different texts. */
  lemma FormatInjective(a: seq<Level>, b: seq<Level>)
    requires Format(a) == Format(b)
    ensures a == b
  {
    ParseFormat(a);
    ParseFormat(b);
  }
}
