/** Slug normalisation (internal/utils/slug.go) against the slug grammar the validators use. */
module Slug {
  import opened Prelude

  const MIN_SLUG_LEN := 5
  const MAX_SLUG_LEN := 100
  const MIN_TITLE_LEN := 5
  const MAX_TITLE_LEN := 100

  /** The class [a-z0-9]. */
  predicate IsWordChar(c: char) {
    'a' <= c <= 'z' || '0' <= c <= '9'
  }

  /**
   Lower-casing, as far as a slug can see it. Two characters outside ASCII lower-case into it
   (the Kelvin sign and the dotted capital I); all the others stay outside [a-z0-9].
   */
  function Lower(c: char): char {
    if 'A' <= c <= 'Z' then (c as int + 32) as char
    else if c == '\U{212A}' then 'k'
    else if c == '\U{0130}' then 'i'
    else c
  }

  function LowerAll(s: string): (r: string)
    ensures |r| == |s|
    ensures forall i :: 0 <= i < |s| ==> r[i] == Lower(s[i])
  {
    seq(|s|, i requires 0 <= i < |s| => Lower(s[i]))
  }

  function SkipJunk(s: string): (r: string)
    ensures |r| <= |s|
    ensures r != "" ==> IsWordChar(r[0])
    ensures s != "" && !IsWordChar(s[0]) ==> |r| < |s|
  {
    if s == "" || IsWordChar(s[0]) then s else SkipJunk(s[1..])
  }

  /** Every maximal run of characters outside [a-z0-9] becomes one hyphen. */
  function Squash(s: string): string
    decreases |s|
  {
    if s == "" then ""
    else if IsWordChar(s[0]) then [s[0]] + Squash(s[1..])
    else "-" + Squash(SkipJunk(s))
  }

  function TrimLeft(s: string): string {
    if s != "" && s[0] == '-' then TrimLeft(s[1..]) else s
  }

  function TrimRight(s: string): string {
    if s != "" && s[|s| - 1] == '-' then TrimRight(s[..|s| - 1]) else s
  }

  function Slugify(title: string): string {
    TrimRight(TrimLeft(Squash(LowerAll(title))))
  }

  predicate IsWord(s: string) {
    s != "" && forall i :: 0 <= i < |s| ==> IsWordChar(s[i])
  }

  /** The grammar ^[a-z0-9]+(?:-[a-z0-9]+)*$. */
  predicate IsSlug(s: string)
    decreases |s|
  {
    IsWord(s) || exists i | 0 <= i < |s| :: s[i] == '-' && IsWord(s[..i]) && IsSlug(s[i + 1..])
  }

  /** validateBlogSlug and validatePostSlug. */
  predicate ValidSlug(s: string) {
    MIN_SLUG_LEN <= ByteLen(s) <= MAX_SLUG_LEN && IsSlug(s)
  }

  predicate LegalTitle(s: string) {
    MIN_TITLE_LEN <= ByteLen(s) <= MAX_TITLE_LEN
  }

  // ---- the grammar, character by character ----

  predicate Hyphenated(s: string) {
    && (forall i :: 0 <= i < |s| ==> IsWordChar(s[i]) || s[i] == '-')
    && (forall i :: 0 <= i < |s| - 1 ==> IsWordChar(s[i]) || IsWordChar(s[i + 1]))
  }

  predicate Spaced(s: string) {
    s != "" && Hyphenated(s) && IsWordChar(s[0]) && IsWordChar(s[|s| - 1])
  }

  lemma {:induction false} SpacedIsSlug(s: string)
    requires Spaced(s)
    ensures IsSlug(s)
    decreases |s|
  {
    if !IsWord(s) {
      var i := 0;
      while IsWordChar(s[i])
        invariant 0 <= i < |s|
        invariant forall j :: 0 <= j < i ==> IsWordChar(s[j])
        decreases |s| - i
      {
        i := i + 1;
      }
      SpacedIsSlug(s[i + 1..]);
      assert s[i] == '-' && IsWord(s[..i]) && IsSlug(s[i + 1..]);
    }
  }

  lemma {:induction false} SlugIsSpaced(s: string)
    requires IsSlug(s)
    ensures Spaced(s)
    decreases |s|
  {
    if !IsWord(s) {
      var i :| 0 <= i < |s| && s[i] == '-' && IsWord(s[..i]) && IsSlug(s[i + 1..]);
      var rest := s[i + 1..];
      SlugIsSpaced(rest);
      assert s[0] == s[..i][0];
      forall j | 0 <= j < |s| ensures j < i ==> s[j] == s[..i][j]
        ensures j > i ==> s[j] == rest[j - i - 1] {
      }
    }
  }

  /** The regular expression and the character-by-character reading agree. */
  lemma GrammarIsSpacing(s: string)
    ensures IsSlug(s) <==> Spaced(s)
  {
    if IsSlug(s) { SlugIsSpaced(s); }
    if Spaced(s) { SpacedIsSlug(s); }
  }

  lemma {:induction false} SquashShape(s: string)
    ensures Hyphenated(Squash(s)) && |Squash(s)| <= |s|
    ensures s != "" && IsWordChar(s[0]) ==> Squash(s) != "" && Squash(s)[0] == s[0]
    decreases |s|
  {
    if s != "" {
      if IsWordChar(s[0]) { SquashShape(s[1..]); } else { SquashShape(SkipJunk(s)); }
    }
  }

  lemma {:induction false} TrimLeftShape(s: string)
    requires Hyphenated(s)
    ensures var r := TrimLeft(s);
      Hyphenated(r) && |r| <= |s| && (r != "" ==> IsWordChar(r[0]))
  {
    if s != "" && s[0] == '-' { TrimLeftShape(s[1..]); }
  }

  lemma {:induction false} TrimRightShape(s: string)
    requires Hyphenated(s) && (s != "" ==> IsWordChar(s[0]))
    ensures var r := TrimRight(s);
      (r == "" || Spaced(r)) && |r| <= |s|
  {
    if s != "" && s[|s| - 1] == '-' { TrimRightShape(s[..|s| - 1]); }
  }

  /** A slug made from any title is empty or in the grammar, and never longer than the title. */
  lemma SlugifyShape(title: string)
    ensures Slugify(title) == "" || IsSlug(Slugify(title))
    ensures |Slugify(title)| <= |title|
  {
    var low := LowerAll(title);
    SquashShape(low);
    TrimLeftShape(Squash(low));
    TrimRightShape(TrimLeft(Squash(low)));
    GrammarIsSpacing(Slugify(title));
  }

  lemma {:induction false} SquashKeeps(s: string)
    requires Hyphenated(s)
    requires s != "" ==> IsWordChar(s[|s| - 1])
    ensures Squash(s) == s
    decreases |s|
  {
    if s != "" {
      SquashKeeps(s[1..]);
      assert s == [s[0]] + s[1..];
      if !IsWordChar(s[0]) { assert SkipJunk(s) == SkipJunk(s[1..]) == s[1..]; }
    }
  }

  /** The fixed points of Slugify are exactly the empty string and the words of the grammar. */
  lemma SlugifyFixedPoints(s: string)
    ensures Slugify(s) == s <==> s == "" || IsSlug(s)
  {
    SlugifyShape(s);
    if s == "" || IsSlug(s) {
      GrammarIsSpacing(s);
      assert LowerAll(s) == s;
      SquashKeeps(s);
    }
  }

  lemma SlugifyIdempotent(title: string)
    ensures Slugify(Slugify(title)) == Slugify(title)
  {
    SlugifyShape(title);
    SlugifyFixedPoints(Slugify(title));
  }

  lemma SlugIsAscii(s: string)
    requires s == "" || IsSlug(s)
    ensures ByteLen(s) == |s|
    ensures forall i :: 0 <= i < |s| ==> IsWordChar(s[i]) || s[i] == '-'
  {
    GrammarIsSpacing(s);
    AsciiByteLen(s);
  }

  /** A legal title's slug fails validation only by being too short. */
  lemma LegalTitleSlug(title: string)
    requires LegalTitle(title)
    ensures ValidSlug(Slugify(title)) <==> |Slugify(title)| >= MIN_SLUG_LEN
  {
    SlugifyShape(title);
    SlugIsAscii(Slugify(title));
  }

  /** A word of letters and digits, long enough, is its own slug and its own title. */
  lemma PlainWord(s: string)
    requires IsWord(s) && MIN_SLUG_LEN <= |s| <= MAX_SLUG_LEN
    ensures ValidSlug(s) && LegalTitle(s) && Slugify(s) == s
  {
    AsciiByteLen(s);
    SlugifyFixedPoints(s);
  }

  // ---- the slug, said of the title alone ----

  /** The letter or digit that a character of a title stands for. */
  function Reads(c: char): Option<char> {
    if 'a' <= c <= 'z' || '0' <= c <= '9' then Some(c)
    else if 'A' <= c <= 'Z' then Some('a' + (c - 'A'))
    else if c == '\U{212A}' then Some('k')
    else if c == '\U{0130}' then Some('i')
    else None
  }

  /** The letters and digits of a text, in order. */
  function Letters(s: string): string {
    if s == "" then "" else (if Reads(s[0]).Some? then [Reads(s[0]).value] else "") + Letters(s[1..])
  }

  /** The same, with a hyphen wherever something else stands between two of them. */
  function Reading(s: string): (r: string)
    ensures r != "" ==> s != "" && IsWordChar(r[0]) && IsWordChar(r[|r| - 1])
  {
    if s == "" then ""
    else if Reads(s[0]).None? then Reading(s[1..])
    else
      var rest := Reading(s[1..]);
      [Reads(s[0]).value] + if rest != "" && Reads(s[1]).None? then "-" + rest else rest
  }

  lemma ReadingFirst(d: char, rest: string)
    ensures Reading([d] + rest) ==
      if Reads(d).None? then Reading(rest)
      else if Reading(rest) != "" && Reads(rest[0]).None? then [Reads(d).value] + ("-" + Reading(rest))
      else [Reads(d).value] + Reading(rest)
  {
    assert ([d] + rest)[1..] == rest;
  }

  lemma {:induction false} LetterIsRead(s: string)
    requires EndsInLetter(s)
    ensures Reading(s) != ""
  {
    if |s| > 1 { LetterIsRead(s[1..]); }
  }

  lemma Regroup(a: string, b: string, c: string)
    ensures a + (b + c) == (a + b) + c
  {
  }

  lemma ReadsIsLower(c: char)
    ensures Reads(c) == if IsWordChar(Lower(c)) then Some(Lower(c)) else None
  {
  }

  lemma SkipJunkOne(s: string)
    requires |s| > 1 && !IsWordChar(s[0])
    ensures SkipJunk(s) == SkipJunk(s[1..]) && (IsWordChar(s[1]) ==> SkipJunk(s[1..]) == s[1..])
  {
  }

  lemma LowerRest(s: string)
    requires s != ""
    ensures LowerAll(s)[1..] == LowerAll(s[1..]) && LowerAll(s)[0] == Lower(s[0])
  {
  }

  ghost predicate EndsInLetter(s: string) {
    s != "" && Reads(s[|s| - 1]).Some?
  }

  /** The reading, with a hyphen where the text begins, or ends, with something else. */
  ghost predicate Frames(s: string, t: string) {
    if Reading(s) == "" then t == (if s == "" then "" else "-")
    else t == (if Reads(s[0]).Some? then "" else "-") + Reading(s) + (if EndsInLetter(s) then "" else "-")
  }

  lemma {:induction false} SquashFrames(s: string)
    ensures Frames(s, Squash(LowerAll(s)))
  {
    if s != "" {
      var d, rest := s[0], s[1..];
      assert s == [d] + rest;
      SquashFrames(rest);
      LowerRest(s);
      ReadsIsLower(d);
      if rest != "" {
        ReadsIsLower(rest[0]);
        LowerRest(rest);
        assert EndsInLetter(s) <==> EndsInLetter(rest);
      }
      if Reads(d).Some? {
        LetterFrames(d, rest, Squash(LowerAll(rest)));
      } else {
        if rest != "" { SkipJunkOne(LowerAll(s)); }
        OtherFrames(d, rest, Squash(LowerAll(rest)), Squash(LowerAll(s)));
      }
    }
  }

  lemma LetterFrames(d: char, rest: string, t: string)
    requires Reads(d).Some? && Frames(rest, t) && (rest != "" ==> (EndsInLetter([d] + rest) <==> EndsInLetter(rest)))
    ensures Frames([d] + rest, [Reads(d).value] + t)
  {
    var c := Reads(d).value;
    ReadingFirst(d, rest);
    if EndsInLetter(rest) { LetterIsRead(rest); }
    if Reading(rest) != "" {
      var left, right := if Reads(rest[0]).Some? then "" else "-", if EndsInLetter(rest) then "" else "-";
      Regroup([c], left + Reading(rest), right);
      assert left == "" ==> left + Reading(rest) == Reading(rest);
    }
  }

  lemma OtherFrames(d: char, rest: string, t: string, t': string)
    requires Reads(d).None? && Frames(rest, t) && (rest != "" ==> (EndsInLetter([d] + rest) <==> EndsInLetter(rest)))
    requires t' == if rest != "" && Reads(rest[0]).None? then t else "-" + t
    ensures Frames([d] + rest, t')
  {
    ReadingFirst(d, rest);
    if Reading(rest) != "" {
      var right := if EndsInLetter(rest) then "" else "-";
      assert "-" + ("" + Reading(rest) + right) == "-" + Reading(rest) + right;
    }
  }

  lemma TrimFrames(s: string, left: string, right: string)
    requires s != "" && s[0] != '-' && s[|s| - 1] != '-' && left in ["", "-"] && right in ["", "-"]
    ensures TrimRight(TrimLeft(left + s + right)) == s
  {
    Regroup(left, s, right);
    if left == "-" {
      assert ("-" + (s + right))[1..] == s + right;
    } else {
      assert "" + (s + right) == s + right;
    }
    TrimRightFrame(s, right);
  }

  lemma TrimRightFrame(s: string, right: string)
    requires s != "" && s[|s| - 1] != '-' && right in ["", "-"]
    ensures TrimRight(s + right) == s
  {
    if right == "-" {
      assert (s + right)[..|s + right| - 1] == s;
    } else {
      assert s + right == s;
    }
  }

  /** The slug of any title is its reading. */
  lemma SlugIsReading(title: string)
    ensures Slugify(title) == Reading(title)
  {
    SquashFrames(title);
    if Reading(title) != "" {
      var left := if Reads(title[0]).Some? then "" else "-";
      var right := if EndsInLetter(title) then "" else "-";
      TrimFrames(Reading(title), left, right);
    } else if title != "" {
      assert TrimLeft("-") == TrimLeft("-"[1..]);
    }
  }

  lemma LettersFirst(d: char, rest: string)
    ensures Letters([d] + rest) == (if Reads(d).Some? then [Reads(d).value] else "") + Letters(rest)
  {
    assert ([d] + rest)[1..] == rest;
  }

  lemma {:induction false} ReadingLetters(s: string)
    ensures Letters(Reading(s)) == Letters(s)
  {
    if s != "" {
      var d, rest := s[0], s[1..];
      assert s == [d] + rest;
      ReadingLetters(rest);
      ReadingFirst(d, rest);
      LettersFirst(d, rest);
      LettersFirst('-', Reading(rest));
      if Reads(d).Some? {
        LettersFirst(Reads(d).value, Reading(rest));
        LettersFirst(Reads(d).value, "-" + Reading(rest));
      }
    }
  }

  /** No letter or digit of the title is lost, changed or moved, but for capitals, which become small. */
  lemma SlugLetters(title: string)
    ensures Letters(Slugify(title)) == Letters(title)
  {
    SlugIsReading(title);
    ReadingLetters(title);
  }

  predicate SameButForCase(c: char, d: char) {
    c == d || ('A' <= c <= 'Z' && d as int == c as int + 32) || ('A' <= d <= 'Z' && c as int == d as int + 32)
  }

  lemma {:induction false} SameReading(s: string, t: string)
    requires |s| == |t| && forall i :: 0 <= i < |s| ==> SameButForCase(s[i], t[i])
    ensures Reading(s) == Reading(t)
  {
    if s != "" { SameReading(s[1..], t[1..]); }
  }

  /** Titles that differ only in the case of ASCII letters have one slug. */
  lemma SlugIgnoresCase(s: string, t: string)
    requires |s| == |t| && forall i :: 0 <= i < |s| ==> SameButForCase(s[i], t[i])
    ensures Slugify(s) == Slugify(t)
  {
    SameReading(s, t);
    SlugIsReading(s);
    SlugIsReading(t);
  }

  lemma {:induction false} ReadingSkips(gap: string, y: string)
    requires forall i :: 0 <= i < |gap| ==> Reads(gap[i]).None?
    ensures Reading(gap + y) == Reading(y)
  {
    if gap == "" {
      assert gap + y == y;
    } else {
      ReadingSkips(gap[1..], y);
      assert (gap + y)[1..] == gap[1..] + y;
    }
  }

  lemma ReadingGoesOn(d: char, rest: string, more: string, tail: string)
    requires Reading(rest) != "" && more != "" && more[0] == rest[0] && Reading(more) == Reading(rest) + tail
    ensures Reading([d] + more) == Reading([d] + rest) + tail
  {
    ReadingFirst(d, rest);
    ReadingFirst(d, more);
    ghost var read := Reading(rest);
    if Reads(d).Some? {
      Regroup("-", read, tail);
      Regroup([Reads(d).value], read, tail);
      Regroup([Reads(d).value], "-" + read, tail);
    }
  }

  lemma {:induction false} ReadingParts(x: string, gap: string, y: string)
    requires EndsInLetter(x) && y != "" && Reads(y[0]).Some? && forall i :: 0 <= i < |gap| ==> Reads(gap[i]).None?
    ensures Reading(x + (gap + y)) == Reading(x) + ((if gap == "" then "" else "-") + Reading(y))
  {
    var d, rest := x[0], x[1..];
    assert x == [d] + rest && x + (gap + y) == [d] + (rest + (gap + y));
    if rest == "" {
      assert rest + (gap + y) == gap + y;
      ReadingSkips(gap, y);
      ReadingFirst(d, gap + y);
      ReadingFirst(d, "");
    } else {
      ReadingParts(rest, gap, y);
      LetterIsRead(rest);
      ReadingGoesOn(d, rest, rest + (gap + y), (if gap == "" then "" else "-") + Reading(y));
    }
  }

  /**
   Two neighbouring letters or digits of a title are parted in the slug exactly when something else stands between
   them in the title, and then by one hyphen.
   */
  lemma SlugParts(x: string, gap: string, y: string)
    requires EndsInLetter(x) && y != "" && Reads(y[0]).Some? && forall i :: 0 <= i < |gap| ==> Reads(gap[i]).None?
    ensures Slugify(x + (gap + y)) == Slugify(x) + (if gap == "" then "" else "-") + Slugify(y)
  {
    SlugIsReading(x + (gap + y));
    SlugIsReading(x);
    SlugIsReading(y);
    ReadingParts(x, gap, y);
  }

  /** The text is this word, in capitals or small letters. */
  predicate Spells(s: string, word: string) {
    |s| == |word| && forall i :: 0 <= i < |s| ==> Reads(s[i]) == Some(word[i])
  }

  lemma SpellsIff(s: string, word: string)
    requires forall i :: 0 <= i < |word| ==> IsWordChar(word[i])
    ensures LowerAll(s) == word <==> Spells(s, word)
  {
    forall i | 0 <= i < |s| ensures Reads(s[i]) == if IsWordChar(Lower(s[i])) then Some(Lower(s[i])) else None {
      ReadsIsLower(s[i]);
    }
    if Spells(s, word) {
      assert forall i :: 0 <= i < |s| ==> LowerAll(s)[i] == word[i];
    }
  }
}
