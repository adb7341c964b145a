/** Reading an asset request's key (internal/handlers/assets.go): "<uuid>_<width>" for one of three widths. */
module Serve {
  import opened Prelude
  import opened Keys
  import opened Assets

  const WIDTHS := [800, 1200, 1920]

  const MAX_INT := 0x7FFF_FFFF_FFFF_FFFF

  /** strings.Split at a one-character separator. */
  function Split(s: string, c: char): (parts: seq<string>)
    ensures |parts| >= 1
  {
    if s == "" then [""]
    else
      var rest := Split(s[1..], c);
      if s[0] == c then [""] + rest else [[s[0]] + rest[0]] + rest[1..]
  }

  predicate IsDigit(c: char) {
    '0' <= c <= '9'
  }

  predicate AllDigits(s: string) {
    forall i :: 0 <= i < |s| ==> IsDigit(s[i])
  }

  function Value(digits: string): (n: int)
    requires AllDigits(digits)
    ensures n >= 0
  {
    if digits == "" then 0
    else
      assert IsDigit(digits[|digits| - 1]);
      10 * Value(digits[..|digits| - 1]) + (digits[|digits| - 1] as int - '0' as int)
  }

  predicate InRange(n: int) {
    -MAX_INT - 1 <= n <= MAX_INT
  }

  function Signed(negative: bool, digits: string): Result<int> {
    if digits == "" || !AllDigits(digits) then Err
    else
      var n := if negative then -Value(digits) else Value(digits);
      if InRange(n) then Ok(n) else Err
  }

  /** strconv.Atoi: an optional sign, then decimal digits, within 64 bits. */
  function Atoi(s: string): Result<int> {
    if s != "" && (s[0] == '+' || s[0] == '-') then Signed(s[0] == '-', s[1..]) else Signed(false, s)
  }

  datatype Request = NotFound | BadRequest | Asset(uuid: Uuid, width: int)

  function ParseKey(lib: Library, key: string): Request {
    var parts := Split(key, '_');
    if |parts| != 2 then NotFound
    else
      match Atoi(parts[1])
      case Err => NotFound
      case Ok(width) =>
        if width !in WIDTHS then NotFound
        else
          match lib.parse(parts[0])
          case None => BadRequest
          case Some(u) => Asset(u, width)
  }

  lemma {:induction false} SplitOnce(s: string, t: string, c: char)
    requires c !in s && c !in t
    ensures Split(s + [c] + t, c) == [s, t]
    ensures Split(t, c) == [t]
  {
    var whole := s + [c] + t;
    if t != "" { SplitTail(t, c); }
    if s == "" {
      assert whole[1..] == t;
      assert Split(whole, c) == [""] + Split(t, c);
    } else {
      SplitOnce(s[1..], t, c);
      assert whole[1..] == s[1..] + [c] + t;
      assert [s[0]] + s[1..] == s;
    }
  }

  lemma {:induction false} SplitTail(t: string, c: char)
    requires c !in t
    ensures Split(t, c) == [t]
  {
    if t != "" {
      SplitTail(t[1..], c);
      assert [t[0]] + t[1..] == t;
    }
  }

  ghost predicate SplitIs(s: string, c: char, parts: seq<string>) {
    && |parts| >= 1 && (parts == [s] || c in s)
    && (|parts| == 2 ==> s == parts[0] + [c] + parts[1] && c !in parts[0] && c !in parts[1])
    && (|parts| == 1 ==> parts == [s] && c !in s)
  }

  lemma SplitMore(d: char, s: string, c: char, parts: seq<string>)
    requires SplitIs(s, c, parts)
    ensures d == c ==> SplitIs([d] + s, c, [""] + parts)
    ensures d != c ==> SplitIs([d] + s, c, [[d] + parts[0]] + parts[1..])
  {
    assert forall x :: x in [d] + s <==> x == d || x in s;
    if d == c {
      assert |parts| == 1 ==> [d] + s == "" + [c] + s;
    } else {
      assert |parts| == 2 ==> [d] + (parts[0] + [c] + parts[1]) == ([d] + parts[0]) + [c] + parts[1];
      assert |parts| == 1 ==> [[d] + parts[0]] + parts[1..] == [[d] + s];
    }
  }

  /** Splitting into two parts means exactly one separator. */
  lemma {:induction false} SplitTwo(s: string, c: char)
    ensures SplitIs(s, c, Split(s, c))
  {
    if s != "" {
      SplitTwo(s[1..], c);
      SplitMore(s[0], s[1..], c, Split(s[1..], c));
      assert s == [s[0]] + s[1..];
    }
  }

  lemma {:induction false} ValueOfDigits(n: nat)
    ensures Value(Digits(n)) == n
  {
    var s := Digits(n);
    if n >= 10 {
      ValueOfDigits(n / 10);
      assert s[..|s| - 1] == Digits(n / 10) && s[|s| - 1] == '0' + (n % 10) as char;
    }
  }

  lemma AtoiOfDecimal(n: int)
    requires InRange(n)
    ensures Atoi(Decimal(n)) == Ok(n)
  {
    var s := Decimal(n);
    if n < 0 {
      SignedOfDigits(-n, true);
      assert s[0] == '-' && s[1..] == Digits(-n);
    } else {
      SignedOfDigits(n, false);
      assert '0' <= s[0] <= '9';
    }
  }

  lemma SignedOfDigits(n: int, negative: bool)
    requires n >= 0 && InRange(if negative then -n else n)
    ensures Signed(negative, Digits(n)) == Ok(if negative then -n else n)
  {
    ValueOfDigits(n);
    var s := Digits(n);
    assert AllDigits(s);
  }

  /** The text is this number: decimal digits, after a sign or none. */
  ghost predicate Writes(s: string, n: int, digits: string) {
    && digits != "" && AllDigits(digits)
    && if n < 0 then s == "-" + digits && n == -Value(digits)
       else n == Value(digits) && (s == digits || s == "+" + digits || (n == 0 && s == "-" + digits))
  }

  /** The numbers read are those of 64 bits that are written so, and nothing else is read. */
  lemma AtoiIff(s: string, n: int)
    ensures Atoi(s) == Ok(n) <==>
      -0x8000_0000_0000_0000 <= n <= 0x7FFF_FFFF_FFFF_FFFF && exists digits :: Writes(s, n, digits)
  {
    if Atoi(s) == Ok(n) {
      var digits := if s[0] == '+' || s[0] == '-' then s[1..] else s;
      assert s[0] == '+' ==> s == "+" + digits;
      assert s[0] == '-' ==> s == "-" + digits;
      assert Writes(s, n, digits);
    }
    forall digits | Writes(s, n, digits) && InRange(n) ensures Atoi(s) == Ok(n) {
      assert IsDigit(digits[0]);
      assert s != digits ==> s[1..] == digits;
    }
  }

  /** The key of a rendered image's URL is read back as the UUID and the width. */
  lemma KeyRoundTrip(lib: Library, u: Uuid, width: int)
    requires lib.Sound() && IsUuid(u) && width in WIDTHS
    ensures ParseKey(lib, Show(u) + "_" + Decimal(width)) == Asset(u, width)
  {
    SplitOnce(Show(u), Decimal(width), '_');
    assert InRange(width);
    AtoiOfDecimal(width);
  }

  ghost predicate Names(lib: Library, key: string, u: Uuid, width: int, id: string, digits: string) {
    && key == id + "_" + digits && '_' !in id && '_' !in digits
    && lib.parse(id) == Some(u) && Atoi(digits) == Ok(width)
  }

  /** The accepted keys are those with one underscore, between a UUID and a supported width. */
  lemma AcceptedKey(lib: Library, key: string, u: Uuid, width: int)
    requires lib.Sound()
    ensures ParseKey(lib, key) == Asset(u, width) <==>
      width in WIDTHS && exists id, digits :: Names(lib, key, u, width, id, digits)
    ensures ParseKey(lib, key) == Asset(u, width) ==> IsUuid(u)
  {
    SplitTwo(key, '_');
    var parts := Split(key, '_');
    if |parts| == 2 {
      assert key == parts[0] + "_" + parts[1];
      assert ParseKey(lib, key) == Asset(u, width) ==> Names(lib, key, u, width, parts[0], parts[1]);
    }
    forall id, digits | Names(lib, key, u, width, id, digits) ensures parts == [id, digits] {
      SplitOnce(id, digits, '_');
    }
  }

  /** A bad request is a well-formed key whose first part is no UUID; everything else is not found. */
  lemma BadRequestKey(lib: Library, key: string)
    ensures ParseKey(lib, key) == BadRequest <==>
      exists id, digits, width :: width in WIDTHS && key == id + "_" + digits && '_' !in id && '_' !in digits
        && lib.parse(id).None? && Atoi(digits) == Ok(width)
  {
    SplitTwo(key, '_');
    var parts := Split(key, '_');
    if ParseKey(lib, key) == BadRequest {
      assert key == parts[0] + "_" + parts[1];
      var width := Atoi(parts[1]).value;
      assert width in WIDTHS && Atoi(parts[1]) == Ok(width);
    }
    forall id, digits | key == id + "_" + digits && '_' !in id && '_' !in digits ensures parts == [id, digits] {
      SplitOnce(id, digits, '_');
    }
  }
}
