/** Clipping event text to a UTF-8 byte limit (_truncate_event_text in runtime/session_entrypoint.py). */
module EventText {
  import opened Options

  type Byte = b: int | 0 <= b < 256

  const MARKER := "\n...[truncated by runtime harness]"

  // ----- UTF-8, as section 3 of RFC 3629 defines it -----

  function EncodeChar(c: char): (bytes: seq<Byte>)
    ensures 1 <= |bytes| <= 4
  {
    var n := c as int;
    if n < 0x80 then [n]
    else if n < 0x800 then [0xC0 + n / 0x40, 0x80 + n % 0x40]
    else if n < 0x1_0000 then [0xE0 + n / 0x1000, 0x80 + n / 0x40 % 0x40, 0x80 + n % 0x40]
    else [0xF0 + n / 0x4_0000, 0x80 + n / 0x1000 % 0x40, 0x80 + n / 0x40 % 0x40, 0x80 + n % 0x40]
  }

  function Encode(text: string): seq<Byte> {
    if text == "" then [] else EncodeChar(text[0]) + Encode(text[1..])
  }

  predicate Tail(b: Byte) { 0x80 <= b < 0xC0 }

  predicate ScalarValue(n: int) {
    0 <= n < 0xD800 || 0xE000 <= n < 0x11_0000
  }

  /** Six more bits taken from a tail byte. */
  function Packed(high: int, tail: Byte): int { high * 0x40 + (tail - 0x80) }

  /** The character whose encoding starts the bytes, if they start with a whole, shortest-form encoding. */
  function Head(bytes: seq<Byte>): (r: Option<char>) {
    if bytes == [] then None
    else if bytes[0] < 0x80 then Some(bytes[0] as char)
    else if 0xC0 <= bytes[0] < 0xE0 && |bytes| >= 2 && Tail(bytes[1]) then
      var n := Packed(bytes[0] - 0xC0, bytes[1]);
      if 0x80 <= n then Some(n as char) else None
    else if 0xE0 <= bytes[0] < 0xF0 && |bytes| >= 3 && Tail(bytes[1]) && Tail(bytes[2]) then
      var n := Packed(Packed(bytes[0] - 0xE0, bytes[1]), bytes[2]);
      if 0x800 <= n && ScalarValue(n) then Some(n as char) else None
    else if 0xF0 <= bytes[0] < 0xF8 && |bytes| >= 4 && Tail(bytes[1]) && Tail(bytes[2]) && Tail(bytes[3]) then
      var n := Packed(Packed(Packed(bytes[0] - 0xF0, bytes[1]), bytes[2]), bytes[3]);
      if 0x1_0000 <= n && ScalarValue(n) then Some(n as char) else None
    else None
  }

  lemma {:induction false} HeadWidth(bytes: seq<Byte>)
    requires Head(bytes).Some?
    ensures |EncodeChar(Head(bytes).value)| <= |bytes|
  {
  }

  /** Decoding that drops every byte which does not belong to a whole encoding. */
  function DecodeIgnoring(bytes: seq<Byte>): string
    decreases |bytes|
  {
    if bytes == [] then ""
    else
      var head := Head(bytes);
      if head.None? then DecodeIgnoring(bytes[1..])
      else
        HeadWidth(bytes);
        [head.value] + DecodeIgnoring(bytes[|EncodeChar(head.value)|..])
  }

  function Clip(value: string, limit: int, marker: string): string {
    var encoded := Encode(value);
    if |encoded| <= limit then value
    else
      var room := limit - |Encode(marker)|;
      DecodeIgnoring(encoded[..if room < 0 then 0 else room]) + marker
  }

  function TruncateEventText(value: string, limit: int): string {
    Clip(value, limit, MARKER)
  }

  // ----- the codec -----

  lemma {:induction false} HeadOfTwo(c: char, rest: seq<Byte>)
    requires 0x80 <= c as int < 0x800
    ensures Head(EncodeChar(c) + rest) == Some(c)
  {
    var bytes := EncodeChar(c) + rest;
    assert bytes[0] == EncodeChar(c)[0] && bytes[1] == EncodeChar(c)[1];
  }

  lemma {:induction false} HeadOfThree(c: char, rest: seq<Byte>)
    requires 0x800 <= c as int < 0x1_0000
    ensures Head(EncodeChar(c) + rest) == Some(c)
  {
    var bytes := EncodeChar(c) + rest;
    assert bytes[0] == EncodeChar(c)[0] && bytes[1] == EncodeChar(c)[1] && bytes[2] == EncodeChar(c)[2];
  }

  lemma {:induction false} HeadOfFour(c: char, rest: seq<Byte>)
    requires 0x1_0000 <= c as int
    ensures Head(EncodeChar(c) + rest) == Some(c)
  {
    var e := EncodeChar(c);
    var bytes := e + rest;
    assert bytes[0] == e[0] && bytes[1] == e[1] && bytes[2] == e[2] && bytes[3] == e[3];
  }

  lemma {:induction false} HeadOfEncoding(c: char, rest: seq<Byte>)
    ensures Head(EncodeChar(c) + rest) == Some(c)
  {
    var n := c as int;
    if n < 0x80 {
    } else if n < 0x800 {
      HeadOfTwo(c, rest);
    } else if n < 0x1_0000 {
      HeadOfThree(c, rest);
    } else {
      HeadOfFour(c, rest);
    }
  }

  lemma {:induction false} EncodingTails(c: char)
    ensures forall i :: 1 <= i < |EncodeChar(c)| ==> Tail(EncodeChar(c)[i])
    ensures |EncodeChar(c)| > 1 ==> EncodeChar(c)[0] >= 0xC0
  {
  }

  lemma {:induction false} TailsDecodeToNothing(bytes: seq<Byte>)
    requires forall i :: 0 <= i < |bytes| ==> Tail(bytes[i])
    ensures DecodeIgnoring(bytes) == ""
  {
    if bytes != [] {
      assert Head(bytes) == None;
      TailsDecodeToNothing(bytes[1..]);
    }
  }

  /** A cut-off encoding leaves nothing behind. */
  lemma {:induction false} CutEncodingDecodesToNothing(c: char, k: nat)
    requires k < |EncodeChar(c)|
    ensures DecodeIgnoring(EncodeChar(c)[..k]) == ""
  {
    if k > 0 {
      var cut := EncodeChar(c)[..k];
      EncodingTails(c);
      assert Head(cut) == None;
      assert forall i :: 0 <= i < |cut[1..]| ==> Tail(cut[1..][i]);
      TailsDecodeToNothing(cut[1..]);
    }
  }

  /** As many leading characters as fit in room bytes. */
  function Fitting(text: string, room: nat): string {
    if text == "" || |EncodeChar(text[0])| > room then ""
    else [text[0]] + Fitting(text[1..], room - |EncodeChar(text[0])|)
  }

  lemma {:induction false} DecodeOfCutText(text: string, room: nat)
    requires room <= |Encode(text)|
    ensures DecodeIgnoring(Encode(text)[..room]) == Fitting(text, room)
  {
    if text != "" {
      var first := EncodeChar(text[0]);
      var cut := Encode(text)[..room];
      if |first| > room {
        assert cut == first[..room];
        CutEncodingDecodesToNothing(text[0], room);
      } else {
        assert cut == first + Encode(text[1..])[..room - |first|];
        HeadOfEncoding(text[0], Encode(text[1..])[..room - |first|]);
        assert cut[|first|..] == Encode(text[1..])[..room - |first|];
        DecodeOfCutText(text[1..], room - |first|);
      }
    }
  }

  lemma {:induction false} FittingAll(text: string, room: nat)
    requires room >= |Encode(text)|
    ensures Fitting(text, room) == text
  {
    if text != "" {
      FittingAll(text[1..], room - |EncodeChar(text[0])|);
    }
  }

  /** Decoding an encoding gives the text back. */
  lemma {:induction false} RoundTrip(text: string)
    ensures DecodeIgnoring(Encode(text)) == text
  {
    DecodeOfCutText(text, |Encode(text)|);
    assert Encode(text)[..|Encode(text)|] == Encode(text);
    FittingAll(text, |Encode(text)|);
  }

  lemma {:induction false} EncodeAppend(a: string, b: string)
    ensures Encode(a + b) == Encode(a) + Encode(b)
  {
    if a == "" {
      assert a + b == b;
    } else {
      assert (a + b)[1..] == a[1..] + b;
      EncodeAppend(a[1..], b);
    }
  }

  /** Fitting is the longest prefix whose encoding has at most room bytes. */
  lemma {:induction false} FittingIsLongest(text: string, room: nat)
    ensures var k := |Fitting(text, room)|;
      k <= |text| && Fitting(text, room) == text[..k] && |Encode(text[..k])| <= room
      && forall j :: 0 <= j <= |text| && |Encode(text[..j])| <= room ==> j <= k
  {
    if text != "" {
      var first := EncodeChar(text[0]);
      if |first| > room {
        forall j | 0 <= j <= |text| && |Encode(text[..j])| <= room ensures j <= 0 {
          if j > 0 { assert text[..j][0] == text[0]; }
        }
      } else {
        FittingIsLongest(text[1..], room - |first|);
        var k := |Fitting(text, room)|;
        assert text[..k] == [text[0]] + text[1..][..k - 1];
        assert text[..k][1..] == text[1..][..k - 1];
        forall j | 0 <= j <= |text| && |Encode(text[..j])| <= room ensures j <= k {
          if j > 0 { assert text[..j][1..] == text[1..][..j - 1]; }
        }
      }
    }
  }

  lemma {:induction false} AsciiLength(text: string)
    requires forall i :: 0 <= i < |text| ==> text[i] as int < 0x80
    ensures |Encode(text)| == |text|
  {
    if text != "" { AsciiLength(text[1..]); }
  }

  lemma {:induction false} MarkerLength()
    ensures |Encode(MARKER)| == 34
  {
    var text := MARKER;
    assert forall i :: 0 <= i < |text| ==> text[i] as int < 0x80;
    AsciiLength(text);
  }

  // ----- what clipping gives -----

  /** k characters of value fit before the marker, and no more. */
  ghost predicate LongestPrefix(value: string, room: int, k: nat) {
    && k <= |value|
    && (|Encode(value[..k])| <= room || k == 0)
    && forall j :: 0 <= j <= |value| && |Encode(value[..j])| <= room ==> j <= k
  }

  lemma {:induction false} ClipSplits(value: string, limit: int, marker: string) returns (k: nat)
    requires |Encode(value)| > limit
    ensures LongestPrefix(value, limit - |Encode(marker)|, k) && Clip(value, limit, marker) == value[..k] + marker
    ensures |Encode(Clip(value, limit, marker))| <= limit <==> limit >= |Encode(marker)|
  {
    var space := limit - |Encode(marker)|;
    var room := if space < 0 then 0 else space;
    DecodeOfCutText(value, room);
    FittingIsLongest(value, room);
    k := |Fitting(value, room)|;
    EncodeAppend(value[..k], marker);
    forall j | 0 <= j <= |value| && |Encode(value[..j])| <= space ensures j <= k {
    }
  }

  /**
   * A text that fits is returned as it is; a longer one becomes its longest prefix that leaves room for the
   * marker, followed by the marker.
   */
  lemma {:induction false} ClippedToLongestPrefix(value: string, limit: int)
    ensures |Encode(value)| <= limit ==> TruncateEventText(value, limit) == value
    ensures |Encode(value)| > limit ==>
      exists k: nat :: LongestPrefix(value, limit - 34, k) && TruncateEventText(value, limit) == value[..k] + MARKER
  {
    if |Encode(value)| > limit {
      MarkerLength();
      var k := ClipSplits(value, limit, MARKER);
    }
  }

  /** The limit is kept exactly when the text already fits or the limit leaves room for the marker. */
  lemma {:induction false} WithinLimitIff(value: string, limit: int)
    ensures |Encode(TruncateEventText(value, limit))| <= limit <==> |Encode(value)| <= limit || limit >= 34
  {
    if |Encode(value)| > limit {
      MarkerLength();
      var k := ClipSplits(value, limit, MARKER);
    }
  }
}
