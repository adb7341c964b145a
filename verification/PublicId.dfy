/** Public identifiers by rejection sampling (internal/utils/random.go). */
module PublicId {
  import opened Prelude

  /** A byte of the random stream: an integer, kept below 256 by IsBytes where it matters. */
  type Byte = int

  predicate IsBytes(stream: seq<Byte>) {
    forall i :: 0 <= i < |stream| ==> 0 <= stream[i] < 256
  }

  const CHARSET_LEN := 62
  const MAX_UNBIASED := 255 - 256 % CHARSET_LEN

  const PUBLIC_ID_LEN := 12

  function CodeOf(i: int): char
    requires 0 <= i < CHARSET_LEN
  {
    if i < 26 then ('a' as int + i) as char
    else if i < 52 then ('A' as int + i - 26) as char
    else ('0' as int + i - 52) as char
  }

  /** The characters 'a'..'z', 'A'..'Z', '0'..'9', in that order. */
  function Charset(): (s: string)
    ensures |s| == CHARSET_LEN && forall i :: 0 <= i < CHARSET_LEN ==> s[i] == CodeOf(i)
  {
    seq(CHARSET_LEN, i requires 0 <= i < CHARSET_LEN => CodeOf(i))
  }

  function CharOf(b: Byte): char {
    Charset()[b % CHARSET_LEN]
  }

  function Encode(bytes: seq<Byte>): (s: string)
    ensures |s| == |bytes|
    ensures forall i :: 0 <= i < |s| ==> s[i] == CharOf(bytes[i])
  {
    seq(|bytes|, i requires 0 <= i < |bytes| => CharOf(bytes[i]))
  }

  predicate IsAccepted(b: Byte) {
    0 <= b <= MAX_UNBIASED
  }

  /** The bytes of a stream that survive rejection, in order. */
  function Accepted(stream: seq<Byte>): (r: seq<Byte>)
    ensures |r| <= |stream|
  {
    if stream == [] then []
    else
      var last := stream[|stream| - 1];
      Accepted(stream[..|stream| - 1]) + if IsAccepted(last) then [last] else []
  }

  /** What the identifier is once the given bytes have been drawn, byte by byte. */
  function Drawn(bytes: seq<Byte>, length: nat): string {
    if bytes == [] then ""
    else
      var prior, last := Drawn(bytes[..|bytes| - 1], length), bytes[|bytes| - 1];
      if |prior| < length && IsAccepted(last) then prior + [CharOf(last)] else prior
  }

  lemma DrawnStep(bytes: seq<Byte>, b: Byte, length: nat)
    ensures Drawn(bytes + [b], length) ==
      if |Drawn(bytes, length)| < length && IsAccepted(b) then Drawn(bytes, length) + [CharOf(b)]
      else Drawn(bytes, length)
  {
    assert (bytes + [b])[..|bytes|] == bytes;
  }

  lemma {:induction false} DrawnComplete(bytes: seq<Byte>, more: seq<Byte>, length: nat)
    requires |Drawn(bytes, length)| == length
    ensures Drawn(bytes + more, length) == Drawn(bytes, length)
  {
    if more == [] {
      assert bytes + more == bytes;
    } else {
      DrawnComplete(bytes, more[..|more| - 1], length);
      assert (bytes + more)[..|bytes + more| - 1] == bytes + more[..|more| - 1];
    }
  }

  /** Drawing gives the first `length` accepted bytes, mapped through the charset. */
  lemma {:induction false} DrawnIsFirstAccepted(bytes: seq<Byte>, length: nat)
    ensures var all := Accepted(bytes);
      Drawn(bytes, length) == Encode(if |all| < length then all else all[..length])
  {
    if bytes != [] {
      DrawnIsFirstAccepted(bytes[..|bytes| - 1], length);
    }
  }

  /** The finished identifier, said of the bytes read: the first `length` accepted ones. */
  ghost predicate IsFirstAccepted(s: string, bytes: seq<Byte>, length: nat) {
    |Accepted(bytes)| >= length && s == Encode(Accepted(bytes)[..length])
  }

  ghost predicate StillShort(bytes: seq<Byte>, length: nat) {
    |Accepted(bytes)| < length
  }

  lemma DrawnOutcome(bytes: seq<Byte>, length: nat)
    ensures StillShort(bytes, length) <==> |Drawn(bytes, length)| < length
    ensures !StillShort(bytes, length) ==> IsFirstAccepted(Drawn(bytes, length), bytes, length)
  {
    DrawnIsFirstAccepted(bytes, length);
  }

  /** More of the stream does not change which accepted bytes are the first. */
  lemma {:induction false} FirstAcceptedStays(s: string, bytes: seq<Byte>, more: seq<Byte>, length: nat)
    requires IsFirstAccepted(s, bytes, length)
    ensures IsFirstAccepted(s, bytes + more, length)
  {
    if more == [] {
      assert bytes + more == bytes;
    } else {
      var init := more[..|more| - 1];
      FirstAcceptedStays(s, bytes, init, length);
      assert (bytes + more)[..|bytes + more| - 1] == bytes + init;
      var all := Accepted(bytes + more);
      assert Accepted(bytes + init)[..length] == all[..length];
    }
  }

  function BufferLen(length: nat): nat {
    length + length * 10 / 100
  }

  /**
   The generator reads whole buffers from the random stream and stops inside the buffer that completes the
   identifier. A read that cannot fill the buffer is the reader's error.
   */
  method GeneratePublicId(length: nat, stream: seq<Byte>) returns (r: Result<string>, read: nat)
    requires IsBytes(stream)
    ensures read <= |stream|
    // the first `length` accepted bytes, mapped through the charset
    ensures r.Ok? ==> IsFirstAccepted(r.value, stream[..read], length)
    // no earlier buffer had already completed it
    ensures r.Ok? && length > 0 ==>
      BufferLen(length) <= read && StillShort(stream[..read - BufferLen(length)], length)
    ensures r.Err? ==> StillShort(stream[..read], length) && |stream| - read < BufferLen(length)
  {
    var bufferLen := BufferLen(length);
    var result: string := "";
    read := 0;
    ghost var seen, before: seq<Byte> := [], [];
    while |result| < length
      invariant read <= |stream| && seen == stream[..read]
      invariant result == Drawn(seen, length)
      invariant length > 0 && |result| == length ==>
        bufferLen <= read && before == stream[..read - bufferLen] && |Drawn(before, length)| < length
      decreases |stream| - read
    {
      if |stream| - read < bufferLen {
        DrawnOutcome(seen, length);
        return Err, read;
      }
      before := seen;
      var buffer := stream[read..read + bufferLen];
      result := Consume(result, before, buffer, length);
      read := read + bufferLen;
      seen := before + buffer;
      assert seen == stream[..read];
    }
    DrawnOutcome(seen, length);
    DrawnOutcome(before, length);
    return Ok(result), read;
  }

  /** The inner loop, over one buffer that follows the bytes already drawn. */
  method Consume(prior: string, ghost before: seq<Byte>, buffer: seq<Byte>, length: nat) returns (result: string)
    requires IsBytes(buffer) && prior == Drawn(before, length) && |prior| < length
    ensures result == Drawn(before + buffer, length)
  {
    result := prior;
    ghost var seen, rest := before, buffer;
    for i := 0 to |buffer|
      invariant rest == buffer[i..] && seen + rest == before + buffer
      invariant |result| < length
      invariant result == Drawn(seen, length)
    {
      var randByte := buffer[i];
      DrawnStep(seen, randByte, length);
      assert seen + rest == seen + [randByte] + rest[1..];
      seen, rest := seen + [randByte], rest[1..];
      if randByte > MAX_UNBIASED {
        continue;
      }
      result := result + [Charset()[randByte % CHARSET_LEN]];
      if |result| == length {
        DrawnComplete(seen, rest, length);
        return;
      }
    }
    assert seen + rest == seen;
  }

  // ---- the charset has no repeats, and passes the seeder's folder-name check ----

  predicate IsAlphanumeric(c: char) {
    'a' <= c <= 'z' || 'A' <= c <= 'Z' || '0' <= c <= '9'
  }

  /** seedStructuredPosts takes a folder for a post folder exactly when its name has this form. */
  predicate IsPublicId(s: string) {
    ByteLen(s) == PUBLIC_ID_LEN && s != "" && forall i :: 0 <= i < |s| ==> IsAlphanumeric(s[i])
  }

  lemma CharsetDistinct(i: int, j: int)
    requires 0 <= i < CHARSET_LEN && 0 <= j < CHARSET_LEN && Charset()[i] == Charset()[j]
    ensures i == j
  {
    assert CodeOf(i) == CodeOf(j);
  }

  /** A generated identifier of the length the store asks for always names a valid post folder. */
  lemma GeneratedIsPublicId(bytes: seq<Byte>)
    requires |bytes| == PUBLIC_ID_LEN
    ensures IsPublicId(Encode(bytes))
  {
    var s := Encode(bytes);
    forall i | 0 <= i < |s| ensures IsAlphanumeric(s[i]) && s[i] as int < 0x80 {
      assert s[i] == CodeOf(bytes[i] % CHARSET_LEN);
    }
    AsciiByteLen(s);
  }

  /** The identifier of one character throughout. */
  function Uniform(c: char): string {
    seq(PUBLIC_ID_LEN, i => c)
  }

  lemma UniformIsPublicId(c: char)
    requires IsAlphanumeric(c) && c as int < 0x80
    ensures IsPublicId(Uniform(c))
  {
    AsciiByteLen(Uniform(c));
  }

  // ---- no bias ----

  function Pow(base: nat, exp: nat): nat {
    if exp == 0 then 1 else base * Pow(base, exp - 1)
  }

  ghost predicate Produces(bytes: seq<Byte>, s: string) {
    |bytes| == |s| && forall k :: 0 <= k < |s| ==> IsAccepted(bytes[k]) && CharOf(bytes[k]) == s[k]
  }

  /** The accepted bytes that give one character: four of them, 62 apart. */
  lemma FourBytes(i: int, b: Byte)
    requires 0 <= i < CHARSET_LEN
    ensures IsAccepted(b) && CharOf(b) == Charset()[i] <==> b == i || b == i + 62 || b == i + 124 || b == i + 186
  {
    if IsAccepted(b) && CharOf(b) == Charset()[i] {
      CharsetDistinct(b % CHARSET_LEN, i);
    }
  }

  ghost function Prefixed(b: Byte, rest: set<seq<Byte>>): set<seq<Byte>> {
    set r | r in rest :: [b] + r
  }

  lemma {:induction false} PrefixedSize(b: Byte, rest: set<seq<Byte>>)
    ensures |Prefixed(b, rest)| == |rest|
    decreases rest
  {
    if rest != {} {
      var r :| r in rest;
      PrefixedSize(b, rest - {r});
      assert Prefixed(b, rest) == Prefixed(b, rest - {r}) + {[b] + r};
      forall q | q in rest - {r} ensures [b] + q != [b] + r {
        assert ([b] + q)[1..] == q && ([b] + r)[1..] == r;
      }
    }
  }

  lemma PrefixedMember(b: Byte, rest: set<seq<Byte>>, p: seq<Byte>)
    ensures p in Prefixed(b, rest) <==> p != [] && p[0] == b && p[1..] in rest
  {
    if p != [] && p[0] == b && p[1..] in rest {
      assert p == [b] + p[1..];
    }
  }

  /** The strings of bytes that begin with one of the four bytes of a character and go on as in `rest`. */
  lemma FourWays(i: int, rest: set<seq<Byte>>) returns (all: set<seq<Byte>>)
    requires 0 <= i < CHARSET_LEN
    ensures |all| == 4 * |rest|
    ensures forall p :: p in all <==>
      p != [] && IsAccepted(p[0]) && CharOf(p[0]) == Charset()[i] && p[1..] in rest
  {
    var a, b, c, d := Prefixed(i, rest), Prefixed(i + 62, rest), Prefixed(i + 124, rest), Prefixed(i + 186, rest);
    PrefixedSize(i, rest);
    PrefixedSize(i + 62, rest);
    PrefixedSize(i + 124, rest);
    PrefixedSize(i + 186, rest);
    all := a + b + c + d;
    forall p
      ensures p in all <==> p != [] && IsAccepted(p[0]) && CharOf(p[0]) == Charset()[i] && p[1..] in rest
      ensures (p in a ==> p[0] == i) && (p in b ==> p[0] == i + 62)
      ensures (p in c ==> p[0] == i + 124) && (p in d ==> p[0] == i + 186)
    {
      PrefixedMember(i, rest, p);
      PrefixedMember(i + 62, rest, p);
      PrefixedMember(i + 124, rest, p);
      PrefixedMember(i + 186, rest, p);
      if p != [] {
        FourBytes(i, p[0]);
      }
    }
    assert a !! b && (a + b) !! c && (a + b + c) !! d;
  }

  /** Unbiased: every string over the charset has exactly 4^n accepted preimages of its own length. */
  lemma {:induction false} Unbiased(s: string) returns (preimages: set<seq<Byte>>)
    requires forall k :: 0 <= k < |s| ==> s[k] in Charset()
    ensures forall bytes: seq<Byte> :: bytes in preimages <==> Produces(bytes, s)
    ensures |preimages| == Pow(4, |s|)
  {
    if s == "" {
      preimages := {[]};
    } else {
      var i :| 0 <= i < CHARSET_LEN && Charset()[i] == s[0];
      var tails := Unbiased(s[1..]);
      preimages := FourWays(i, tails);
      forall bytes: seq<Byte> ensures bytes in preimages <==> Produces(bytes, s) {
        ProducesStep(bytes, s);
      }
    }
  }

  lemma ProducesStep(bytes: seq<Byte>, s: string)
    requires s != ""
    ensures Produces(bytes, s) <==>
      bytes != [] && IsAccepted(bytes[0]) && CharOf(bytes[0]) == s[0] && Produces(bytes[1..], s[1..])
  {
    if bytes != [] && IsAccepted(bytes[0]) && CharOf(bytes[0]) == s[0] && Produces(bytes[1..], s[1..]) {
      forall k | 0 <= k < |bytes| ensures IsAccepted(bytes[k]) && CharOf(bytes[k]) == s[k] {
        assert k > 0 ==> bytes[k] == bytes[1..][k - 1] && s[k] == s[1..][k - 1];
      }
    }
  }
}
