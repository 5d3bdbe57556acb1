/** Identifiers and instants.

    Relational keys are UUIDs; they are only ever compared, so they are modelled
    as a wrapped number (the nil UUID wraps 0). Document keys are 12-byte object ids that the
    relational side stores as 24-character hex text; `Hex` is the encoding the
    document store hands back on insert and `ObjectIdFromHex` the parse every
    document access performs first. */
module Identifiers {
  import opened Wrappers

  datatype Uuid = Uuid(bits: int)

  const NilUuid: Uuid := Uuid(0)

  /** An instant on the server clock. `a.After(b)` in the source is `a > b`. */
  type Time = int

  newtype byte = x: int | 0 <= x < 256

  type ObjectId = s: seq<byte> | |s| == 12 witness [0, 0, 0, 0, 0, 0, 0, 0, 0, 0, 0, 0]

  /** The value of one hex digit; both letter cases are accepted when decoding. */
  function HexValue(c: char): (v: Option<int>)
    ensures v.Some? ==> 0 <= v.value < 16
  {
    if '0' <= c <= '9' then Some(c as int - '0' as int)
    else if 'a' <= c <= 'f' then Some(c as int - 'a' as int + 10)
    else if 'A' <= c <= 'F' then Some(c as int - 'A' as int + 10)
    else None
  }

  predicate IsHexDigit(c: char) {
    HexValue(c).Some?
  }

  /** The lower-case digit of a nibble; decoding gives the nibble back. */
  function HexDigit(d: int): (c: char)
    requires 0 <= d < 16
    ensures HexValue(c) == Some(d)
    ensures '0' <= c <= '9' || 'a' <= c <= 'f'
  {
    if d < 10 then ('0' as int + d) as char else ('a' as int + d - 10) as char
  }

  /** Lower-case hex encoding, two digits per byte, high nibble first. */
  function Hex(bytes: seq<byte>): (s: string)
    ensures |s| == 2 * |bytes|
    ensures forall i :: 0 <= i < |s| ==> '0' <= s[i] <= '9' || 'a' <= s[i] <= 'f'
  {
    if bytes == [] then ""
    else [HexDigit(bytes[0] as int / 16), HexDigit(bytes[0] as int % 16)] + Hex(bytes[1..])
  }

  /** Decoding of hex text two digits at a time; odd length or a non-hex
      character is an error. */
  function DecodeHex(s: string): (r: Option<seq<byte>>)
    decreases |s|
  {
    if s == [] then Some([])
    else if |s| == 1 then None
    else
      match (HexValue(s[0]), HexValue(s[1]), DecodeHex(s[2..]))
      case (Some(hi), Some(lo), Some(rest)) => Some([(hi * 16 + lo) as byte] + rest)
      case _ => None
  }

  /** The document store's parse of a hex object id: exactly 24 characters,
      all of them hex digits. */
  function ObjectIdFromHex(s: string): (r: Option<ObjectId>)
  {
    if |s| != 24 then None
    else
      match DecodeHex(s)
      case Some(bytes) => if |bytes| == 12 then Some(bytes) else None
      case None => None
  }

  predicate IsObjectIdHex(s: string) {
    |s| == 24 && forall i :: 0 <= i < |s| ==> IsHexDigit(s[i])
  }

  /** Decoding undoes encoding. */
  lemma {:induction false} DecodeHexOfHex(bytes: seq<byte>)
    ensures DecodeHex(Hex(bytes)) == Some(bytes)
  {
    if bytes != [] {
      var b := bytes[0] as int;
      var hi, lo := b / 16, b % 16;
      assert hi * 16 + lo == b;
      var rest := Hex(bytes[1..]);
      DecodeHexOfHex(bytes[1..]);
      var s := Hex(bytes);
      assert s == [HexDigit(hi), HexDigit(lo)] + rest;
      assert s[0] == HexDigit(hi) && s[1] == HexDigit(lo) && s[2..] == rest;
      assert DecodeHex(s) == Some([b as byte] + bytes[1..]);
      assert [bytes[0]] + bytes[1..] == bytes;
    }
  }

  /** The decoded length is half the text length whenever decoding succeeds. */
  lemma {:induction false} DecodeHexLength(s: string)
    requires DecodeHex(s).Some?
    ensures 2 * |DecodeHex(s).value| == |s|
    decreases |s|
  {
    if s != [] {
      DecodeHexLength(s[2..]);
    }
  }

  /** Decoding succeeds exactly on even-length all-hex text. */
  lemma {:induction false} DecodeHexSucceeds(s: string)
    ensures DecodeHex(s).Some? <==> (|s| % 2 == 0 && forall i :: 0 <= i < |s| ==> IsHexDigit(s[i]))
    decreases |s|
  {
    if |s| >= 2 {
      DecodeHexSucceeds(s[2..]);
      assert forall i :: 2 <= i < |s| ==> s[i] == s[2..][i - 2];
    }
  }

  /** The id the store returns for an inserted document parses back to it. */
  lemma ObjectIdRoundTrip(id: ObjectId)
    ensures ObjectIdFromHex(Hex(id)) == Some(id)
  {
    DecodeHexOfHex(id);
  }

  /** Parsing succeeds exactly on 24 hex digits. */
  lemma ObjectIdFromHexSucceeds(s: string)
    ensures ObjectIdFromHex(s).Some? <==> IsObjectIdHex(s)
  {
    DecodeHexSucceeds(s);
    if DecodeHex(s).Some? {
      DecodeHexLength(s);
    }
  }
}
