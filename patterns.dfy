/**
 * Hand-written matchers standing in for the regular expressions the
 * assistant applies to single lines. Each one follows the backtracking of its
 * pattern: a greedy run of a character class gives nothing back unless the
 * next part of the pattern can use what it gives back.
 */
module Patterns {
  import opened Wrappers
  import opened Text

  /** The character classes the patterns repeat: `\s`, `\d`, `[:\s]` and `[\.\s]`. */
  datatype CharClass = Spaces | Digits | ColonOrSpace | DotOrSpace

  predicate InClass(c: char, cls: CharClass) {
    match cls
    case Spaces => IsSpace(c)
    case Digits => IsDigit(c)
    case ColonOrSpace => c == ':' || IsSpace(c)
    case DotOrSpace => c == '.' || IsSpace(c)
  }

  /** The length of the longest prefix of `s` made of characters of the class. */
  function Run(s: string, cls: CharClass): (n: nat)
    ensures n <= |s|
    ensures forall i :: 0 <= i < n ==> InClass(s[i], cls)
    ensures n < |s| ==> !InClass(s[n], cls)
    decreases |s|
  {
    if s != [] && InClass(s[0], cls) then 1 + Run(s[1..], cls) else 0
  }

  /** The value of an ASCII digit. */
  function DigitValue(c: char): (v: nat)
    requires IsDigit(c)
    ensures v <= 9
  {
    c as int - '0' as int
  }

  /** `int(ds)` for a string of ASCII digits. */
  function DigitsValue(ds: string): nat
    requires forall i :: 0 <= i < |ds| ==> IsDigit(ds[i])
    decreases |ds|
  {
    if ds == [] then 0
    else DigitsValue(ds[..|ds| - 1]) * 10 + DigitValue(ds[|ds| - 1])
  }

  /** The line begins with `word` (given in lower case) in any mix of ASCII case. */
  predicate StartsWithIgnoreCase(line: string, word: string) {
    |word| <= |line| && Lower(line[..|word|]) == word
  }

  /** `re.match(r'^Word\s+\d', line, re.IGNORECASE)` for the lower-case `word`. */
  predicate KeywordThenNumber(line: string, word: string) {
    && StartsWithIgnoreCase(line, word)
    && var rest := line[|word|..];
       var spaces := Run(rest, Spaces);
       0 < spaces < |rest| && IsDigit(rest[spaces])
  }

  /**
   * `re.match(r'^\d+\.\s+[A-Z]', s)`; under `re.IGNORECASE` the final class
   * admits every ASCII letter.
   */
  predicate NumberDotTitle(s: string, ignoreCase: bool) {
    var digits := Run(s, Digits);
    && 0 < digits < |s| && s[digits] == '.'
    && var rest := s[digits + 1..];
       var spaces := Run(rest, Spaces);
       && 0 < spaces < |rest|
       && (if ignoreCase then IsLetter(rest[spaces]) else IsUpper(rest[spaces]))
  }

  /** `re.match(r'^\d+[\.\s]+[A-Z]', line)` */
  predicate NumberThenTitle(line: string) {
    var digits := Run(line, Digits);
    && 0 < digits
    && var rest := line[digits..];
       var sep := Run(rest, DotOrSpace);
       0 < sep < |rest| && IsUpper(rest[sep])
  }

  /** A number and the title text a heading pattern captured. */
  datatype Heading = Heading(number: nat, title: string)

  /**
   * `re.match(r'^(?:Word)\s+(\d+)[:\s]+(.+)$', line, re.IGNORECASE)` on a line
   * without newlines: the number, and the rest of the line as title. When the
   * run of separators reaches the end of the line it gives its last character
   * back to the title, which must not be empty.
   */
  function KeywordHeading(line: string, word: string): (r: Option<Heading>)
    ensures r.Some? ==> KeywordThenNumber(line, word) && r.value.title != []
  {
    if !StartsWithIgnoreCase(line, word) then None
    else
      var a := line[|word|..];
      var spaces := Run(a, Spaces);
      if spaces == 0 then None
      else
        var b := a[spaces..];
        var digits := Run(b, Digits);
        if digits == 0 then None
        else
          var number := DigitsValue(b[..digits]);
          var c := b[digits..];
          var sep := Run(c, ColonOrSpace);
          if sep == 0 then None
          else if sep < |c| then Some(Heading(number, c[sep..]))
          else if sep >= 2 then Some(Heading(number, c[sep - 1..]))
          else None
  }

  /** `re.match(r'^(\d+)[\.\s]+([A-Z][^.]*)$', line)` on a line without newlines. */
  function NumberedHeading(line: string): (r: Option<Heading>)
    ensures r.Some? ==> NumberThenTitle(line) && r.value.title != [] && IsUpper(r.value.title[0])
    ensures r.Some? ==> '.' !in r.value.title
  {
    var digits := Run(line, Digits);
    if digits == 0 then None
    else
      var rest := line[digits..];
      var sep := Run(rest, DotOrSpace);
      if sep == 0 || sep == |rest| then None
      else
        var title := rest[sep..];
        if IsUpper(title[0]) && '.' !in title then Some(Heading(DigitsValue(line[..digits]), title))
        else None
  }

  // ---------------------------------------------------------------------
  // Chapter markers anywhere in a text (`re.finditer` with `re.IGNORECASE`)
  // ---------------------------------------------------------------------

  /** `Word\s+\d+[:\s]` matches at the start of `s`, in any case. */
  predicate KeywordMarker(s: string, word: string) {
    && StartsWithIgnoreCase(s, word)
    && var a := s[|word|..];
       var spaces := Run(a, Spaces);
       && 0 < spaces
       && var b := a[spaces..];
          var digits := Run(b, Digits);
          0 < digits < |b| && InClass(b[digits], ColonOrSpace)
  }

  /**
   * `re.finditer` reports a match of `\d+\.\s+[A-Z]` at `p` exactly when the
   * pattern matches there and `p` does not continue a run of digits: a match
   * starting one digit earlier would have covered `p`.
   */
  predicate NumberMarkerAt(text: string, p: nat) {
    p < |text| && NumberDotTitle(text[p..], true) && (p == 0 || !IsDigit(text[p - 1]))
  }

  /** The indices from `i` on whose flag is set, in order. */
  function Positions(flags: seq<bool>, i: nat): (r: seq<nat>)
    requires i <= |flags|
    ensures forall k :: 0 <= k < |r| ==> i <= r[k] < |flags| && flags[r[k]]
    decreases |flags| - i
  {
    if i == |flags| then [] else (if flags[i] then [i] else []) + Positions(flags, i + 1)
  }

  /** No set flag from `i` on is missed. */
  lemma {:induction false} PositionsComplete(flags: seq<bool>, i: nat, p: nat)
    requires i <= p < |flags| && flags[p]
    ensures p in Positions(flags, i)
    decreases |flags| - i
  {
    if i < p {
      PositionsComplete(flags, i + 1, p);
    }
  }

  /**
   * Where `Word\s+\d+[:\s]` matches in the text. Matches of this pattern
   * cannot overlap, so `re.finditer` reports every one of them.
   */
  function KeywordFlags(text: string, word: string): (f: seq<bool>)
    ensures |f| == |text|
    ensures forall p :: 0 <= p < |text| ==> (f[p] <==> KeywordMarker(text[p..], word))
  {
    seq(|text|, p requires 0 <= p < |text| => KeywordMarker(text[p..], word))
  }

  /** Where `re.finditer` reports a match of `\d+\.\s+[A-Z]`. */
  function NumberFlags(text: string): (f: seq<bool>)
    ensures |f| == |text|
    ensures forall p: nat :: p < |text| ==> (f[p] <==> NumberMarkerAt(text, p))
  {
    seq(|text|, p requires 0 <= p < |text| => NumberMarkerAt(text, p))
  }

  /**
   * The positions `_split_at_chapters` collects: the hits of its four patterns
   * in order. Under `re.IGNORECASE` the first two patterns are the same, so
   * their hits come twice.
   */
  function ChapterHits(text: string): (r: seq<nat>)
    ensures forall k :: 0 <= k < |r| ==> r[k] < |text|
  {
    var chapters := Positions(KeywordFlags(text, "chapter"), 0);
    chapters + chapters + Positions(NumberFlags(text), 0) + Positions(KeywordFlags(text, "section"), 0)
  }

  /** A position is collected exactly when one of the chapter markers is found there. */
  lemma ChapterHitsSpec(text: string, p: nat)
    ensures p in ChapterHits(text) <==>
      || (p < |text| && KeywordMarker(text[p..], "chapter"))
      || NumberMarkerAt(text, p)
      || (p < |text| && KeywordMarker(text[p..], "section"))
  {
    var chapter := KeywordFlags(text, "chapter");
    var number := NumberFlags(text);
    var section := KeywordFlags(text, "section");
    if p < |text| {
      if chapter[p] {
        PositionsComplete(chapter, 0, p);
      }
      if number[p] {
        PositionsComplete(number, 0, p);
      }
      if section[p] {
        PositionsComplete(section, 0, p);
      }
    }
  }
}
