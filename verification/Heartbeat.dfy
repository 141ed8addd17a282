/** The heartbeat line: a zero-padded decimal timestamp, an optional message, LF. */
module Heartbeat {
  import opened Types

  type byte = x: int | 0 <= x < 256

  const LF: byte := 10
  const SPACE: byte := 32
  const ZERO: byte := 48

  datatype Beat = Beat(timestamp: u64, message: Option<seq<byte>>)

  // ---------------------------------------------------------------- the program

  function Decimal(n: nat): seq<byte> {
    if n < 10 then [ZERO + n] else Decimal(n / 10) + [ZERO + n % 10]
  }

  function Zeros(n: nat): seq<byte> {
    seq(n, _ => ZERO)
  }

  /** Decimal digits, padded on the left to at least sixteen. */
  function Padded(n: nat): seq<byte> {
    var digits := Decimal(n);
    if |digits| < 16 then Zeros(16 - |digits|) + digits else digits
  }

  function Tail(message: Option<seq<byte>>): seq<byte> {
    if message.Some? then [SPACE] + message.value else []
  }

  function ProbePayload(timestamp: u64, message: Option<seq<byte>>): seq<byte> {
    Padded(timestamp) + Tail(message) + [LF]
  }

  datatype BindError = EmbeddedNewline | NoMonitorMode | BindFailed

  /** The listeners a bind is given are ready or not; the message is checked first. */
  function Bind(mode: MonitorMode, message: Option<seq<byte>>, listenersReady: bool)
    : Result<Option<seq<byte>>, BindError>
  {
    if message.Some? && LF in message.value then Failure(EmbeddedNewline)
    else if mode.Off? then Failure(NoMonitorMode)
    else if !listenersReady then Failure(BindFailed)
    else Success(message)
  }

  /** What every bound probe loop sends. */
  predicate LineSafe(b: Beat) {
    b.message.Some? ==> LF !in b.message.value
  }

  // ---------------------------------------------------------------- a reader

  predicate IsDigit(b: byte) {
    ZERO <= b <= ZERO + 9
  }

  predicate AllDigits(s: seq<byte>) {
    forall i :: 0 <= i < |s| ==> IsDigit(s[i])
  }

  function Value(digits: seq<byte>): nat
    requires AllDigits(digits)
  {
    if digits == [] then 0 else Value(digits[..|digits| - 1]) * 10 + (digits[|digits| - 1] - ZERO)
  }

  /** The length of the leading run of digits. */
  function Span(s: seq<byte>): (n: nat)
    ensures n <= |s| && AllDigits(s[..n]) && (n < |s| ==> !IsDigit(s[n]))
  {
    if s == [] || !IsDigit(s[0]) then 0
    else
      assert forall i :: 0 <= i < Span(s[1..]) ==> s[1..][..Span(s[1..])][i] == s[1..Span(s[1..]) + 1][i];
      1 + Span(s[1..])
  }

  /** One line without its LF; only the shortest padded form of a number is read. */
  function ReadLine(line: seq<byte>): Option<Beat> {
    var n := Span(line);
    if n < 16 || (n > 16 && line[0] == ZERO) then None
    else
      var value := Value(line[..n]);
      if value >= 0x1_0000_0000_0000_0000 then None
      else if n == |line| then Some(Beat(value, None))
      else if line[n] == SPACE then Some(Beat(value, Some(line[n + 1..])))
      else None
  }

  function FirstLF(s: seq<byte>): (n: nat)
    ensures n <= |s| && LF !in s[..n] && (n < |s| ==> s[n] == LF)
  {
    if s == [] || s[0] == LF then 0
    else
      var m := FirstLF(s[1..]);
      assert s[..m + 1] == [s[0]] + s[1..][..m];
      1 + m
  }

  /** A whole stream of lines. */
  function ReadStream(s: seq<byte>): Option<seq<Beat>>
    decreases |s|
  {
    if s == [] then Some([])
    else
      var n := FirstLF(s);
      if n == |s| then None
      else
        var (head, rest) := (ReadLine(s[..n]), ReadStream(s[n + 1..]));
        if head.Some? && rest.Some? then Some([head.value] + rest.value) else None
  }

  function Stream(beats: seq<Beat>): seq<byte> {
    if beats == [] then [] else ProbePayload(beats[0].timestamp, beats[0].message) + Stream(beats[1..])
  }

  // ---------------------------------------------------------------- digits

  lemma {:induction false} DecimalDigits(n: nat)
    ensures AllDigits(Decimal(n)) && Value(Decimal(n)) == n
    ensures Decimal(n) != [] && (n > 0 ==> Decimal(n)[0] != ZERO)
  {
    var d := Decimal(n);
    if n < 10 {
      assert d[..0] == [];
    } else {
      DecimalDigits(n / 10);
      assert d[..|d| - 1] == Decimal(n / 10);
    }
  }

  lemma {:induction false} ValueOfZeros(k: nat, s: seq<byte>)
    requires AllDigits(s)
    ensures AllDigits(Zeros(k) + s) && Value(Zeros(k) + s) == Value(s)
    decreases |s| + k
  {
    var z := Zeros(k) + s;
    if s != [] {
      ValueOfZeros(k, s[..|s| - 1]);
      assert z[..|z| - 1] == Zeros(k) + s[..|s| - 1];
    } else if k > 0 {
      ValueOfZeros(k - 1, s);
      assert z[..|z| - 1] == Zeros(k - 1) + s;
    }
  }

  lemma PaddedDigits(n: nat)
    ensures AllDigits(Padded(n)) && Value(Padded(n)) == n && |Padded(n)| >= 16
    ensures |Padded(n)| > 16 ==> Padded(n)[0] != ZERO
  {
    DecimalDigits(n);
    var d := Decimal(n);
    if |d| < 16 {
      ValueOfZeros(16 - |d|, d);
    }
  }

  function Pow10(k: nat): nat {
    if k == 0 then 1 else 10 * Pow10(k - 1)
  }

  lemma {:induction false} DecimalLength(n: nat, k: nat)
    requires k > 0
    ensures |Decimal(n)| <= k <==> n < Pow10(k)
    decreases k
  {
    if n >= 10 && k > 1 {
      DecimalLength(n / 10, k - 1);
    } else if n >= 10 {
      assert |Decimal(n / 10)| >= 1 by {
        DecimalDigits(n / 10);
      }
      assert Pow10(1) == 10 * Pow10(0);
    } else {
      PowerAtLeastTen(k);
    }
  }

  lemma {:induction false} PowerAtLeastTen(k: nat)
    requires k > 0
    ensures Pow10(k) >= 10
  {
    if k > 1 {
      PowerAtLeastTen(k - 1);
    }
  }

  /** The number that bytes of decimal digits write, by the places of its digits. */
  function Places(d: seq<byte>): int {
    if d == [] then 0 else (d[0] as int - 48) * Pow10(|d| - 1) + Places(d[1..])
  }

  lemma {:induction false} PlacesSnoc(d: seq<byte>)
    requires d != []
    ensures Places(d) == 10 * Places(d[..|d| - 1]) + d[|d| - 1] - 48
  {
    if |d| == 1 {
      assert d[1..] == [] && d[..0] == [];
    } else {
      PlacesSnoc(d[1..]);
      assert d[1..][..|d| - 2] == d[..|d| - 1][1..];
      var first: int := d[0];
      ShiftPlace(first - 48, |d| - 2);
    }
  }

  lemma ShiftPlace(digit: int, n: nat)
    ensures digit * Pow10(n + 1) == 10 * (digit * Pow10(n))
  {
  }

  lemma {:induction false} ValueIsPlaces(d: seq<byte>)
    requires AllDigits(d)
    ensures Value(d) == Places(d)
  {
    if d != [] {
      PlacesSnoc(d);
      ValueIsPlaces(d[..|d| - 1]);
    }
  }

  /** The bytes themselves: at least sixteen ASCII digits that write the
      timestamp, no more of them than it needs beyond that, a blank and the message
      if there is one, and a line feed. */
  lemma PayloadBytes(timestamp: u64, message: Option<seq<byte>>) returns (digits: seq<byte>)
    ensures ProbePayload(timestamp, message) ==
            digits + (if message.Some? then [32] + message.value else []) + [10]
    ensures forall i :: 0 <= i < |digits| ==> 48 <= digits[i] <= 57
    ensures Places(digits) == timestamp
    ensures |digits| >= 16 && (|digits| > 16 ==> digits[0] != 48)
  {
    digits := Padded(timestamp);
    PaddedDigits(timestamp);
    ValueIsPlaces(digits);
  }

  /** The payload is seventeen bytes exactly when there is no message and the
      timestamp has at most sixteen digits. */
  lemma SeventeenBytes(timestamp: u64, message: Option<seq<byte>>)
    ensures |ProbePayload(timestamp, message)| == 17 <==> message.None? && timestamp < 10_000_000_000_000_000
  {
    DecimalLength(timestamp, 16);
    assert Pow10(4) == 10000;
    assert Pow10(8) == 10000 * Pow10(4);
    assert Pow10(12) == 10000 * Pow10(8);
    assert Pow10(16) == 10000 * Pow10(12);
  }

  /** Each payload is one line: its only LF is its last byte. */
  lemma OneLinePerPayload(b: Beat)
    requires LineSafe(b)
    ensures
      var p := ProbePayload(b.timestamp, b.message);
      p[|p| - 1] == LF && LF !in p[..|p| - 1]
  {
    LineHasNoLF(b);
    var p := ProbePayload(b.timestamp, b.message);
    assert p[..|p| - 1] == Padded(b.timestamp) + Tail(b.message);
  }

  // ---------------------------------------------------------------- round trips

  lemma {:induction false} SpanOfPrefix(digits: seq<byte>, rest: seq<byte>)
    requires AllDigits(digits) && (rest != [] ==> !IsDigit(rest[0]))
    ensures Span(digits + rest) == |digits|
  {
    if digits == [] {
      assert digits + rest == rest;
    } else {
      assert (digits + rest)[1..] == digits[1..] + rest;
      SpanOfPrefix(digits[1..], rest);
    }
  }

  lemma ReadLineOfPayload(b: Beat)
    ensures ReadLine(Padded(b.timestamp) + Tail(b.message)) == Some(b)
  {
    PaddedDigits(b.timestamp);
    var (digits, rest) := (Padded(b.timestamp), Tail(b.message));
    SpanOfPrefix(digits, rest);
    assert (digits + rest)[..|digits|] == digits;
    if b.message.Some? {
      assert (digits + rest)[|digits| + 1..] == b.message.value;
    }
  }

  lemma {:induction false} FirstLFOfPayload(line: seq<byte>, rest: seq<byte>)
    requires LF !in line
    ensures FirstLF(line + [LF] + rest) == |line|
  {
    if line != [] {
      assert (line + [LF] + rest)[1..] == line[1..] + [LF] + rest;
      FirstLFOfPayload(line[1..], rest);
    }
  }

  lemma LineHasNoLF(b: Beat)
    requires LineSafe(b)
    ensures LF !in Padded(b.timestamp) + Tail(b.message)
  {
    PaddedDigits(b.timestamp);
  }

  /** Any stream of payloads is read back as the beats that made it; absent and
      empty messages stay distinct. */
  lemma {:induction false} StreamRoundTrip(beats: seq<Beat>)
    requires forall b :: b in beats ==> LineSafe(b)
    ensures ReadStream(Stream(beats)) == Some(beats)
  {
    if beats != [] {
      var (b, rest) := (beats[0], Stream(beats[1..]));
      var line := Padded(b.timestamp) + Tail(b.message);
      PaddedDigits(b.timestamp);
      assert Stream(beats) == line + [LF] + rest;
      LineHasNoLF(b);
      FirstLFOfPayload(line, rest);
      ReadLineOfPayload(b);
      assert (line + [LF] + rest)[..|line|] == line && (line + [LF] + rest)[|line| + 1..] == rest;
      StreamRoundTrip(beats[1..]);
      assert [b] + beats[1..] == beats;
    }
  }

  /** Two sequences of beats with the same bytes are the same sequence. */
  lemma StreamsDecodeUniquely(a: seq<Beat>, b: seq<Beat>)
    requires forall beat :: beat in a || beat in b ==> LineSafe(beat)
    requires Stream(a) == Stream(b)
    ensures a == b
  {
    StreamRoundTrip(a);
    StreamRoundTrip(b);
  }

  // ---------------------------------------------------------------- nothing else is read

  lemma {:induction false} DecimalOfValue(d: seq<byte>)
    requires AllDigits(d) && d != [] && d[0] != ZERO
    ensures Value(d) > 0 && Decimal(Value(d)) == d
  {
    var n := |d| - 1;
    assert d == d[..n] + [d[n]];
    if n == 0 {
      assert d[..0] == [];
    } else {
      DecimalOfValue(d[..n]);
    }
  }

  function LeadingZeros(d: seq<byte>): (k: nat)
    ensures k <= |d| && d[..k] == Zeros(k) && (k < |d| ==> d[k] != ZERO)
  {
    if d == [] || d[0] != ZERO then 0
    else
      var k := LeadingZeros(d[1..]);
      assert d[..k + 1] == [ZERO] + d[1..][..k];
      1 + k
  }

  lemma PaddedOfValue(d: seq<byte>)
    requires AllDigits(d) && (|d| == 16 || (|d| > 16 && d[0] != ZERO))
    ensures Padded(Value(d)) == d
  {
    var k := LeadingZeros(d);
    var e := d[k..];
    assert d == Zeros(k) + e;
    ValueOfZeros(k, e);
    if e != [] {
      DecimalOfValue(e);
    } else {
      assert Value(e) == 0 && Zeros(15) + [ZERO] == Zeros(16);
    }
  }

  lemma ReadLineIsExact(line: seq<byte>)
    requires ReadLine(line).Some?
    ensures line == Padded(ReadLine(line).value.timestamp) + Tail(ReadLine(line).value.message)
  {
    var n := Span(line);
    PaddedOfValue(line[..n]);
    if n == |line| {
      assert line[..n] == line && line + [] == line;
    } else {
      assert line == line[..n] + ([SPACE] + line[n + 1..]);
    }
  }

  lemma SafeLine(line: seq<byte>, b: Beat)
    requires line == Padded(b.timestamp) + Tail(b.message) && LF !in line
    ensures LineSafe(b) && ProbePayload(b.timestamp, b.message) == line + [LF]
  {
    assert forall x :: x in Tail(b.message) ==> x in line;
  }

  lemma StreamCons(b: Beat, rest: seq<Beat>)
    ensures Stream([b] + rest) == ProbePayload(b.timestamp, b.message) + Stream(rest)
  {
    assert ([b] + rest)[1..] == rest;
  }

  lemma ReadStreamHead(s: seq<byte>) returns (n: nat)
    requires s != [] && ReadStream(s).Some?
    ensures n < |s| && LF !in s[..n] && s == s[..n] + [LF] + s[n + 1..]
    ensures ReadLine(s[..n]).Some? && ReadStream(s[n + 1..]).Some?
    ensures ReadStream(s).value == [ReadLine(s[..n]).value] + ReadStream(s[n + 1..]).value
  {
    hide ReadLine;
    n := FirstLF(s);
  }

  lemma {:induction false} ReadStreamIsExact(s: seq<byte>)
    requires ReadStream(s).Some?
    ensures Stream(ReadStream(s).value) == s
    ensures forall b :: b in ReadStream(s).value ==> LineSafe(b)
    decreases |s|
  {
    if s != [] {
      hide *;
      var n := ReadStreamHead(s);
      var (b, rest) := (ReadLine(s[..n]).value, ReadStream(s[n + 1..]).value);
      ReadLineIsExact(s[..n]);
      SafeLine(s[..n], b);
      ReadStreamIsExact(s[n + 1..]);
      StreamCons(b, rest);
    }
  }

  /** The codec is exact: a byte string reads as `beats` if and only if it is
      the stream of those beats, all of them safe to send. */
  lemma CodecIsExact(s: seq<byte>, beats: seq<Beat>)
    ensures ReadStream(s) == Some(beats) <==> (s == Stream(beats) && forall b :: b in beats ==> LineSafe(b))
  {
    if ReadStream(s) == Some(beats) {
      ReadStreamIsExact(s);
    }
    if s == Stream(beats) && forall b :: b in beats ==> LineSafe(b) {
      StreamRoundTrip(beats);
    }
  }

  // ---------------------------------------------------------------- what a bound loop sends

  /** The beats of one probe loop: its message never changes. */
  function Beats(timestamps: seq<u64>, message: Option<seq<byte>>): (beats: seq<Beat>)
    ensures |beats| == |timestamps|
    ensures forall i :: 0 <= i < |beats| ==> beats[i] == Beat(timestamps[i], message)
  {
    seq(|timestamps|, i requires 0 <= i < |timestamps| => Beat(timestamps[i], message))
  }

  /** The newline guard is exact: a bind succeeds on ready listeners if and only
      if whatever the loop sends, at any times, reads back as its beats. */
  lemma GuardMatchesCodec(mode: MonitorMode, message: Option<seq<byte>>)
    requires mode.Active?
    ensures Bind(mode, message, true) == Success(message) <==>
            forall timestamps :: ReadStream(Stream(Beats(timestamps, message))) == Some(Beats(timestamps, message))
  {
    hide ReadStream, Stream;
    if message.Some? && LF in message.value {
      var beats := Beats([0], message);
      CodecIsExact(Stream(beats), beats);
      assert beats[0] in beats && !LineSafe(beats[0]);
      assert ReadStream(Stream(beats)) != Some(beats);
    } else {
      forall timestamps
        ensures ReadStream(Stream(Beats(timestamps, message))) == Some(Beats(timestamps, message))
      {
        StreamRoundTrip(Beats(timestamps, message));
      }
    }
  }

  /** Two runs of bound loops that send the same bytes had the same timestamps
      and, if they sent anything, the same message. */
  lemma BoundLoopsDecodeUniquely(modes: (MonitorMode, MonitorMode), ready: (bool, bool),
                                 messages: (Option<seq<byte>>, Option<seq<byte>>), a: seq<u64>, b: seq<u64>)
    requires Bind(modes.0, messages.0, ready.0).Success? && Bind(modes.1, messages.1, ready.1).Success?
    requires Stream(Beats(a, messages.0)) == Stream(Beats(b, messages.1))
    ensures a == b && (a != [] ==> messages.0 == messages.1)
  {
    var (x, y) := (Beats(a, messages.0), Beats(b, messages.1));
    StreamsDecodeUniquely(x, y);
    assert forall i :: 0 <= i < |a| ==> x[i].timestamp == a[i] && y[i].timestamp == b[i];
    if a != [] {
      assert x[0].message == y[0].message;
    }
  }
}
