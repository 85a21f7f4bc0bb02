/** Cutting a byte string at a UTF-8 character boundary (RFC 3629). */
module Truncation {
  const MAX_TOOL_RESULT_BYTES := 16 * 1024

  type Byte = bv8

  predicate IsContinuation(b: Byte) {
    b & 0xC0 == 0x80
  }

  /** `i` is the last place, no later than `max`, where `s` may be cut: at its start or in front
      of a byte that does not continue a character. */
  predicate IsCut(s: seq<Byte>, max: nat, i: nat) {
    && i <= max < |s|
    && (i == 0 || !IsContinuation(s[i]))
    && (forall k :: i < k <= max ==> IsContinuation(s[k]))
  }

  /** For any bytes at all, valid UTF-8 or not. */
  method Truncate(s: seq<Byte>, max: nat) returns (r: seq<Byte>)
    ensures |s| <= max ==> r == s
    ensures |s| > max ==> |r| <= max && r == s[..|r|] && IsCut(s, max, |r|)
  {
    if |s| <= max {
      return s;
    }
    var i := max;
    while i > 0 && IsContinuation(s[i])
      invariant 0 <= i <= max
      invariant forall k :: i < k <= max ==> IsContinuation(s[k])
    {
      i := i - 1;
    }
    r := s[..i];
  }

  /** The value `Truncate` returns: the contract above leaves no choice. */
  function Truncated(s: seq<Byte>, max: nat): (r: seq<Byte>)
    ensures |s| <= max ==> r == s
    ensures |s| > max ==> |r| <= max && r == s[..|r|] && IsCut(s, max, |r|)
  {
    if |s| <= max then s else s[..CutFrom(s, max, max)]
  }

  function CutFrom(s: seq<Byte>, max: nat, i: nat): (j: nat)
    requires i <= max < |s| && forall k :: i < k <= max ==> IsContinuation(s[k])
    ensures IsCut(s, max, j)
  {
    if i > 0 && IsContinuation(s[i]) then CutFrom(s, max, i - 1) else i
  }

  lemma CutIsUnique(s: seq<Byte>, max: nat, i: nat, j: nat)
    requires IsCut(s, max, i) && IsCut(s, max, j)
    ensures i == j
  {
  }

  lemma TruncateIsTruncated(s: seq<Byte>, max: nat, r: seq<Byte>)
    requires |s| <= max ==> r == s
    requires |s| > max ==> |r| <= max && r == s[..|r|] && IsCut(s, max, |r|)
    ensures r == Truncated(s, max)
  {
  }

  /** Reading only the first `max + 1` bytes, as the page fetcher does, is enough to truncate. */
  lemma PrefixIsEnough(s: seq<Byte>, max: nat)
    ensures Truncated(if |s| <= max + 1 then s else s[..max + 1], max) == Truncated(s, max)
  {
    if |s| > max + 1 {
      var p := s[..max + 1];
      CutIsUnique(s, max, |Truncated(s, max)|, |Truncated(p, max)|);
    }
  }

  /** The end of the page fetcher: it reads at most one byte past the cap of a tool result, and
      what it hands on is still the truncation of the whole body. */
  method FetchedBody(body: seq<Byte>) returns (r: seq<Byte>)
    ensures r == Truncated(body, 16384)
  {
    var read := if |body| <= MAX_TOOL_RESULT_BYTES + 1 then body else body[..MAX_TOOL_RESULT_BYTES + 1];
    r := Truncate(read, MAX_TOOL_RESULT_BYTES);
    TruncateIsTruncated(read, MAX_TOOL_RESULT_BYTES, r);
    PrefixIsEnough(body, MAX_TOOL_RESULT_BYTES);
  }

  /** The comment's valid boundary costs at most three bytes exactly when one of the four
      candidate places does not continue a character; a run of continuation bytes, which no
      valid text holds, can cost everything. */
  lemma DropsAtMostThreeExactly(s: seq<Byte>, max: nat)
    requires |s| > max
    ensures |Truncated(s, max)| + 3 >= max <==> max <= 3 || exists k :: max - 3 <= k <= max && !IsContinuation(s[k])
    ensures (forall k :: 0 <= k <= max ==> IsContinuation(s[k])) ==> Truncated(s, max) == []
  {
    var i := |Truncated(s, max)|;
    assert i > 0 ==> !IsContinuation(s[i]);
  }

  // ---- UTF-8 ------------------------------------------------------------------

  /** A Unicode scalar value: up to 10FFFF without the surrogates (section 3). */
  type Scalar = c: bv32 | c <= 0x10FFFF && !(0xD800 <= c <= 0xDFFF)

  /** The encoding of one scalar value (the table of section 3). */
  function Encode(c: Scalar): (bytes: seq<Byte>)
    ensures 1 <= |bytes| <= 4
    ensures !IsContinuation(bytes[0])
    ensures forall k :: 1 <= k < |bytes| ==> IsContinuation(bytes[k])
  {
    if c <= 0x7F then [c as Byte]
    else if c <= 0x7FF then
      [(0xC0 | (c >> 6)) as Byte, (0x80 | (c & 0x3F)) as Byte]
    else if c <= 0xFFFF then
      [(0xE0 | (c >> 12)) as Byte, (0x80 | ((c >> 6) & 0x3F)) as Byte, (0x80 | (c & 0x3F)) as Byte]
    else
      [(0xF0 | (c >> 18)) as Byte, (0x80 | ((c >> 12) & 0x3F)) as Byte,
       (0x80 | ((c >> 6) & 0x3F)) as Byte, (0x80 | (c & 0x3F)) as Byte]
  }

  function Join2(a: Byte, b: Byte): bv32 {
    ((a & 0x1F) as bv32 << 6) | (b & 0x3F) as bv32
  }

  function Join3(a: Byte, b: Byte, d: Byte): bv32 {
    ((a & 0x0F) as bv32 << 12) | ((b & 0x3F) as bv32 << 6) | (d & 0x3F) as bv32
  }

  function Join4(a: Byte, b: Byte, d: Byte, e: Byte): bv32 {
    ((a & 0x07) as bv32 << 18) | ((b & 0x3F) as bv32 << 12) | ((d & 0x3F) as bv32 << 6) | (e & 0x3F) as bv32
  }

  /** Reads the bytes of one character back (the same table). */
  function Decode(bytes: seq<Byte>): bv32
    requires 1 <= |bytes| <= 4
  {
    match |bytes|
    case 1 => bytes[0] as bv32
    case 2 => Join2(bytes[0], bytes[1])
    case 3 => Join3(bytes[0], bytes[1], bytes[2])
    case 4 => Join4(bytes[0], bytes[1], bytes[2], bytes[3])
  }

  lemma OneByte(c: bv32)
    requires c <= 0x7F
    ensures (c as Byte) as bv32 == c && c as Byte <= 0x7F
  {
  }

  lemma TwoBytes(c: bv32)
    requires 0x7F < c <= 0x7FF
    ensures Join2((0xC0 | (c >> 6)) as Byte, (0x80 | (c & 0x3F)) as Byte) == c
    ensures 0xC0 <= (0xC0 | (c >> 6)) as Byte <= 0xDF
  {
  }

  lemma ThreeBytes(c: bv32)
    requires 0x7FF < c <= 0xFFFF
    ensures Join3((0xE0 | (c >> 12)) as Byte, (0x80 | ((c >> 6) & 0x3F)) as Byte, (0x80 | (c & 0x3F)) as Byte) == c
    ensures 0xE0 <= (0xE0 | (c >> 12)) as Byte <= 0xEF
  {
  }

  lemma FourBytes(c: bv32)
    requires 0xFFFF < c <= 0x10FFFF
    ensures Join4((0xF0 | (c >> 18)) as Byte, (0x80 | ((c >> 12) & 0x3F)) as Byte,
                  (0x80 | ((c >> 6) & 0x3F)) as Byte, (0x80 | (c & 0x3F)) as Byte) == c
    ensures 0xF0 <= (0xF0 | (c >> 18)) as Byte
  {
  }

  /** No character is changed by its encoding, each takes the shortest form that holds it, and the
      first byte tells how many bytes there are. */
  lemma DecodeEncode(c: Scalar)
    ensures Decode(Encode(c)) == c
    ensures |Encode(c)| == if c <= 0x7F then 1 else if c <= 0x7FF then 2 else if c <= 0xFFFF then 3 else 4
    ensures var first := Encode(c)[0];
            match |Encode(c)|
            case 1 => first <= 0x7F
            case 2 => 0xC0 <= first <= 0xDF
            case 3 => 0xE0 <= first <= 0xEF
            case _ => 0xF0 <= first
  {
    if c <= 0x7F {
      OneByte(c);
    } else if c <= 0x7FF {
      TwoBytes(c);
    } else if c <= 0xFFFF {
      ThreeBytes(c);
    } else {
      FourBytes(c);
    }
  }

  /** The continuation bytes are those from 80 to BF. */
  lemma ContinuationBytes(b: Byte)
    ensures IsContinuation(b) <==> 0x80 <= b <= 0xBF
  {
  }

  function EncodeAll(cs: seq<Scalar>): seq<Byte> {
    if cs == [] then [] else EncodeAll(cs[..|cs| - 1]) + Encode(cs[|cs| - 1])
  }

  /** Where character `n` starts. */
  function Offset(cs: seq<Scalar>, n: nat): nat
    requires n <= |cs|
  {
    |EncodeAll(cs[..n])|
  }

  lemma {:induction false} EncodedPrefix(cs: seq<Scalar>, n: nat)
    requires n <= |cs|
    ensures Offset(cs, n) <= |EncodeAll(cs)| && EncodeAll(cs)[..Offset(cs, n)] == EncodeAll(cs[..n])
  {
    if n < |cs| {
      EncodedPrefix(cs[..|cs| - 1], n);
      assert cs[..|cs| - 1][..n] == cs[..n];
    } else {
      assert cs[..n] == cs;
    }
  }

  lemma OffsetsGrow(cs: seq<Scalar>, m: nat, n: nat)
    requires m <= n <= |cs|
    ensures Offset(cs, m) <= Offset(cs, n)
  {
    EncodedPrefix(cs[..n], m);
    assert cs[..n][..m] == cs[..m];
  }

  lemma NextOffset(cs: seq<Scalar>, n: nat)
    requires n < |cs|
    ensures EncodeAll(cs[..n + 1]) == EncodeAll(cs[..n]) + Encode(cs[n])
  {
    assert cs[..n + 1][..n] == cs[..n];
  }

  /** The byte at the start of character `n` starts a character; the rest of it does not. */
  lemma CharacterBytes(cs: seq<Scalar>, n: nat)
    requires n < |cs|
    ensures var s, at, next := EncodeAll(cs), Offset(cs, n), Offset(cs, n + 1);
            && at < next <= |s| && next - at <= 4
            && !IsContinuation(s[at])
            && (forall k :: at < k < next ==> IsContinuation(s[k]))
  {
    EncodedPrefix(cs, n + 1);
    NextOffset(cs, n);
    SliceOfJoin(EncodeAll(cs), EncodeAll(cs[..n]), Encode(cs[n]));
  }

  lemma SliceOfJoin(s: seq<Byte>, front: seq<Byte>, bytes: seq<Byte>)
    requires |front + bytes| <= |s| && s[..|front + bytes|] == front + bytes
    ensures forall k :: 0 <= k < |bytes| ==> s[|front| + k] == bytes[k]
    ensures forall k :: |front| <= k < |front| + |bytes| ==> s[k] == bytes[k - |front|]
  {
    forall k | 0 <= k < |bytes|
      ensures s[|front| + k] == bytes[k]
    {
      assert (front + bytes)[|front| + k] == bytes[k];
    }
    forall k | |front| <= k < |front| + |bytes|
      ensures s[k] == bytes[k - |front|]
    {
      assert s[|front| + (k - |front|)] == bytes[k - |front|];
    }
  }

  /** The number of leading characters whose encoding fits into `max` bytes. */
  function Fitting(cs: seq<Scalar>, max: nat): (n: nat)
    ensures n <= |cs| && Offset(cs, n) <= max
    ensures n < |cs| ==> Offset(cs, n + 1) > max
  {
    assert cs[..0] == [];
    FitFrom(cs, max, 0)
  }

  function FitFrom(cs: seq<Scalar>, max: nat, n: nat): (m: nat)
    requires n <= |cs| && Offset(cs, n) <= max
    ensures n <= m <= |cs| && Offset(cs, m) <= max
    ensures m < |cs| ==> Offset(cs, m + 1) > max
    decreases |cs| - n
  {
    if n < |cs| && Offset(cs, n + 1) <= max then FitFrom(cs, max, n + 1) else n
  }

  /** Truncating valid UTF-8 yields exactly the encoding of the longest prefix of its characters
      that fits, and gives up at most three bytes of the cap. */
  lemma TruncatesAtCharacter(cs: seq<Scalar>, max: nat)
    ensures var s, n := EncodeAll(cs), Fitting(cs, max);
            && Truncated(s, max) == EncodeAll(cs[..n])
            && (forall m :: n < m <= |cs| ==> |EncodeAll(cs[..m])| > max)
            && (|s| > max ==> |Truncated(s, max)| + 3 >= max)
  {
    var s, n := EncodeAll(cs), Fitting(cs, max);
    EncodedPrefix(cs, n);
    forall m | n < m <= |cs|
      ensures |EncodeAll(cs[..m])| > max
    {
      OffsetsGrow(cs, n + 1, m);
    }
    assert cs[..|cs|] == cs;
    if n < |cs| {
      CharacterBytes(cs, n);
      CutIsUnique(s, max, |Truncated(s, max)|, Offset(cs, n));
    }
  }
}
