/** Values shared by every module of the project. */
module Prelude {
  datatype Option<+T> = None | Some(value: T)

  type byte = x: int | 0 <= x < 256
  type Bytes = seq<byte>

  /** `str.lower` on ASCII letters. */
  function LowerChar(c: char): char
  {
    if 'A' <= c <= 'Z' then (c as int + 32) as char else c
  }

  function Lower(s: string): (t: string)
    ensures |t| == |s|
    ensures forall i | 0 <= i < |s| :: t[i] as int == if 'A' <= s[i] <= 'Z' then s[i] as int + 32 else s[i] as int
  {
    seq(|s|, i requires 0 <= i < |s| => LowerChar(s[i]))
  }

  /** The places among the first n that are kept, in order, each once. */
  ghost predicate Kept(n: nat, keep: nat -> bool, places: seq<nat>)
  {
    && (forall i | 0 <= i < |places| :: places[i] < n && keep(places[i]))
    && (forall i, j | 0 <= i < j < |places| :: places[i] < places[j])
    && (forall k: nat | k < n && keep(k) :: k in places)
  }

  lemma KeptStep(n: nat, keep: nat -> bool, places: seq<nat>)
    requires Kept(n, keep, places)
    ensures Kept(n + 1, keep, places + if keep(n) then [n] else [])
  {
    var more := places + if keep(n) then [n] else [];
    forall k: nat | k < n + 1 && keep(k)
      ensures k in more
    {
      if k < n {
        assert k in places;
      } else {
        assert more[|places|] == n;
      }
    }
  }

  /** The elements at these places. */
  ghost predicate TakenFrom<T>(src: seq<T>, places: seq<nat>, out: seq<T>)
  {
    |out| == |places| && forall i | 0 <= i < |places| :: places[i] < |src| && out[i] == src[places[i]]
  }
}

/**
  The framing layer of core/storage/client.py: a payload is preceded by its length as four
  big-endian bytes and the whole is padded with NULs to the smallest size storage nodes replicate.
 */
module Framing {
  import opened Prelude

  const MIN_UPLOAD_BYTES := 256
  const LENGTH_BYTES := 4
  const LENGTH_LIMIT := 0x1_0000_0000

  function Pow256(width: nat): (p: nat)
    ensures p > 0
  {
    if width == 0 then 1 else 256 * Pow256(width - 1)
  }

  /** `int.to_bytes(width, "big")`. */
  function ToBigEndian(n: nat, width: nat): (b: Bytes)
    requires n < Pow256(width)
    ensures |b| == width
  {
    if width == 0 then [] else ToBigEndian(n / 256, width - 1) + [n % 256]
  }

  /** `int.from_bytes(b, "big")`. */
  function FromBigEndian(b: Bytes): (n: nat)
    ensures n < Pow256(|b|)
  {
    if b == [] then 0 else FromBigEndian(b[..|b| - 1]) * 256 + b[|b| - 1]
  }

  lemma {:induction false} BigEndianRoundTrip(n: nat, width: nat)
    requires n < Pow256(width)
    ensures FromBigEndian(ToBigEndian(n, width)) == n
  {
    if width > 0 {
      var b := ToBigEndian(n, width);
      assert b[..|b| - 1] == ToBigEndian(n / 256, width - 1);
      BigEndianRoundTrip(n / 256, width - 1);
    }
  }

  lemma LengthLimitIsFourBytes()
    ensures Pow256(LENGTH_BYTES) == LENGTH_LIMIT
  {}

  function Zeros(n: nat): (z: Bytes)
    ensures |z| == n
  {
    seq(n, _ => 0)
  }

  /** `_frame`; None is the OverflowError that `to_bytes(4)` raises on a payload of 4 GiB or more. */
  function Frame(data: Bytes): (framed: Option<Bytes>)
  {
    if |data| >= LENGTH_LIMIT then None
    else
      LengthLimitIsFourBytes();
      var framed := ToBigEndian(|data|, LENGTH_BYTES) + data;
      Some(if |framed| < MIN_UPLOAD_BYTES then framed + Zeros(MIN_UPLOAD_BYTES - |framed|) else framed)
  }

  /** Python's `data[lo:hi]` for `0 <= lo`: bounds beyond the end are clipped. */
  function Slice(data: Bytes, lo: nat, hi: nat): Bytes
  {
    var h := if hi < |data| then hi else |data|;
    if lo <= h then data[lo..h] else []
  }

  /** `_unframe`: data that is not a frame comes back unchanged. */
  function Unframe(data: Bytes): Bytes
  {
    if |data| < LENGTH_BYTES then data
    else
      var length := FromBigEndian(data[..LENGTH_BYTES]);
      var payload := Slice(data, LENGTH_BYTES, LENGTH_BYTES + length);
      if |payload| != length then data else payload
  }

  /** Framing loses nothing, whatever the payload: empty, ending in NULs, shorter than the padding. */
  lemma FrameRoundTrip(data: Bytes)
    ensures Frame(data).Some? <==> |data| < 0x1_0000_0000
    ensures Frame(data).Some? ==>
      && Unframe(Frame(data).value) == data
      && |Frame(data).value| == (if |data| + 4 < 256 then 256 else |data| + 4)
  {
    if |data| < LENGTH_LIMIT {
      LengthLimitIsFourBytes();
      BigEndianRoundTrip(|data|, LENGTH_BYTES);
      var framed := Frame(data).value;
      assert framed[..LENGTH_BYTES] == ToBigEndian(|data|, LENGTH_BYTES);
      assert framed[LENGTH_BYTES..LENGTH_BYTES + |data|] == data;
    }
  }

  function Number(a: int, b: int, c: int, d: int): int
  {
    0x100_0000 * a + 0x1_0000 * b + 0x100 * c + d
  }

  /** The layout: four bytes that say the length, most significant first, then the payload, then NULs. */
  lemma FrameLayout(data: Bytes)
    requires |data| < 0x1_0000_0000
    ensures
      var framed := Frame(data).value;
      && Number(framed[0], framed[1], framed[2], framed[3]) == |data|
      && framed[4..4 + |data|] == data
      && forall i | 4 + |data| <= i < |framed| :: framed[i] == 0
  {
    LengthLimitIsFourBytes();
    BigEndianRoundTrip(|data|, LENGTH_BYTES);
    var framed, b := Frame(data).value, ToBigEndian(|data|, LENGTH_BYTES);
    assert framed[..4] == b;
    FromFour(b);
  }

  lemma FromFour(b: Bytes)
    requires |b| == 4
    ensures FromBigEndian(b) == Number(b[0], b[1], b[2], b[3])
  {
    assert b[..3][..2] == b[..2] && b[..2][..1] == b[..1] && b[..1][..0] == [];
    assert FromBigEndian(b[..1]) == Number(0, 0, 0, b[0]);
    assert FromBigEndian(b[..2]) == Number(0, 0, b[0], b[1]);
    assert FromBigEndian(b[..3]) == Number(0, b[0], b[1], b[2]);
  }

  lemma FrameInjective(a: Bytes, b: Bytes)
    requires Frame(a).Some? && Frame(a) == Frame(b)
    ensures a == b
  {
    FrameRoundTrip(a);
    FrameRoundTrip(b);
  }

  /** Exactly the data that `_unframe` takes for legacy data and hands back untouched. */
  lemma UnframeIsIdentityIff(data: Bytes)
    ensures Unframe(data) == data <==>
      |data| < LENGTH_BYTES || FromBigEndian(data[..LENGTH_BYTES]) > |data| - LENGTH_BYTES
  {}

  /** The first four characters of a snapshot's JSON text: `{"da`. */
  const SNAPSHOT_PREFIX: Bytes := [0x7b, 0x22, 0x64, 0x61]

  /**
    Flush uploads the snapshot's JSON text without a frame, yet a client download always unframes.
    The text survives exactly while it is shorter than 0x7b226461 + 4 bytes.
   */
  lemma SnapshotSurvivesIff(text: Bytes)
    requires SNAPSHOT_PREFIX <= text
    ensures Unframe(text) == text <==> |text| < 2065851493
  {
    var p := text[..4];
    assert p == SNAPSHOT_PREFIX;
    assert p[..3][..2][..1] == [0x7b] && p[..3][..2] == [0x7b, 0x22] && p[..3] == [0x7b, 0x22, 0x64];
    assert FromBigEndian([0x7b]) == 0x7b by { assert [0x7b][..0] == []; }
    assert FromBigEndian([0x7b, 0x22]) == 0x7b22;
    assert FromBigEndian([0x7b, 0x22, 0x64]) == 0x7b2264;
    assert FromBigEndian(p) == 0x7b226461;
    UnframeIsIdentityIff(text);
  }
}

/** `bytes.hex()`: lower-case Base16, section 8 of RFC 4648. */
module Hex {
  import opened Prelude

  const DIGITS: string := "0123456789abcdef"

  function DigitValue(c: char): Option<nat>
  {
    if '0' <= c <= '9' then Some(c as int - '0' as int)
    else if 'a' <= c <= 'f' then Some(c as int - 'a' as int + 10)
    else None
  }

  function Encode(data: Bytes): (text: string)
    ensures |text| == 2 * |data|
  {
    if data == [] then "" else [DIGITS[data[0] / 16], DIGITS[data[0] % 16]] + Encode(data[1..])
  }

  function Decode(text: string): Option<Bytes>
  {
    if text == "" then Some([])
    else if |text| == 1 then None
    else
      match (DigitValue(text[0]), DigitValue(text[1]), Decode(text[2..]))
      case (Some(hi), Some(lo), Some(rest)) =>
        if hi < 16 && lo < 16 then Some([hi * 16 + lo] + rest) else None
      case _ => None
  }

  /** Two digits a byte, the high one first, in lower case. */
  lemma {:induction false} EncodeIs(data: Bytes, i: nat)
    requires i < |data|
    ensures Encode(data)[2 * i] == "0123456789abcdef"[data[i] / 16]
    ensures Encode(data)[2 * i + 1] == "0123456789abcdef"[data[i] % 16]
  {
    if i > 0 {
      EncodeIs(data[1..], i - 1);
      assert Encode(data)[2 * i] == Encode(data[1..])[2 * (i - 1)];
      assert Encode(data)[2 * i + 1] == Encode(data[1..])[2 * (i - 1) + 1];
    }
  }

  lemma DigitRoundTrip(d: nat)
    requires d < 16
    ensures DigitValue(DIGITS[d]) == Some(d)
  {}

  lemma {:induction false} RoundTrip(data: Bytes)
    ensures Decode(Encode(data)) == Some(data)
  {
    if data != [] {
      DigitRoundTrip(data[0] / 16);
      DigitRoundTrip(data[0] % 16);
      RoundTrip(data[1..]);
      var text := Encode(data);
      assert text[2..] == Encode(data[1..]);
      assert text[0] == DIGITS[data[0] / 16] && text[1] == DIGITS[data[0] % 16];
      assert [data[0]] + data[1..] == data;
    }
  }

  /** No hex text starts with "0x", so stripping that prefix from a digest changes nothing. */
  lemma NeverPrefixed(data: Bytes)
    ensures !("0x" <= Encode(data))
  {
    if data != [] {
      DigitRoundTrip(data[0] % 16);
      assert Encode(data)[1] == DIGITS[data[0] % 16] != 'x';
    }
  }
}
