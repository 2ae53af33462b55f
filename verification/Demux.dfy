/** The log demultiplexer of internal/docker/streamer.go. */
module Demux {
  import opened Sequences

  type Byte = x: int | 0 <= x < 256

  type Bytes = seq<Byte>

  const MIB := 1024 * 1024

  datatype Stream = Stdout | Stderr

  /** A published log event. */
  datatype Line = Line(stream: Stream, text: Bytes)

  // ----- shifting and or-ing integers that are not negative -----

  /** The bitwise or. */
  function Or(x: nat, y: nat): nat {
    if x == 0 && y == 0 then 0
    else 2 * Or(x / 2, y / 2) + if x % 2 == 1 || y % 2 == 1 then 1 else 0
  }

  function Pow2(k: nat): nat {
    if k == 0 then 1 else 2 * Pow2(k - 1)
  }

  function ShiftLeft(x: nat, k: nat): nat {
    x * Pow2(k)
  }

  /** The frame size, from bytes 4 to 7 of a header. */
  function DecodeSize(header: Bytes): nat
    requires |header| == 8
  {
    Or(Or(Or(ShiftLeft(header[4], 24), ShiftLeft(header[5], 16)), ShiftLeft(header[6], 8)), header[7])
  }

  lemma {:induction false} OrZero(x: nat)
    ensures Or(x, 0) == x
  {
    if x != 0 {
      OrZero(x / 2);
    }
  }

  /** Below the lowest bit of a shifted number, or is a sum. */
  lemma {:induction false} OrAdds(x: nat, k: nat, y: nat)
    requires y < Pow2(k)
    ensures Or(x * Pow2(k), y) == x * Pow2(k) + y
  {
    if k == 0 {
      OrZero(x);
    } else {
      var z := x * Pow2(k - 1);
      assert x * Pow2(k) == 2 * z;
      OrAdds(x, k - 1, y / 2);
    }
  }

  /** The number of four bytes, the most significant first. */
  function BigEndian(a: nat, b: nat, c: nat, d: nat): nat {
    a * 0x100_0000 + b * 0x1_0000 + c * 0x100 + d
  }

  lemma OrsAddUp(a: nat, b: nat, c: nat, d: nat)
    requires b < 0x100 && c < 0x100 && d < 0x100
    ensures Or(Or(Or(ShiftLeft(a, 24), ShiftLeft(b, 16)), ShiftLeft(c, 8)), d) == BigEndian(a, b, c, d)
  {
    assert Pow2(8) == 0x100 && Pow2(16) == 0x1_0000 && Pow2(24) == 0x100_0000;
    OrAdds(a, 24, b * 0x1_0000);
    OrAdds(a * 0x100 + b, 16, c * 0x100);
    OrAdds(a * 0x1_0000 + b * 0x100 + c, 8, d);
  }

  /** What the shifts and ors come to. */
  lemma DecodedSize(header: Bytes)
    requires |header| == 8
    ensures DecodeSize(header) == BigEndian(header[4], header[5], header[6], header[7])
  {
    OrsAddUp(header[4], header[5], header[6], header[7]);
  }

  /** strings.TrimRight with the cutset "\\n\\r". */
  function TrimRight(s: Bytes): (r: Bytes)
    ensures r <= s
    ensures r != [] ==> !IsBreak(r[|r| - 1])
    ensures forall i :: |r| <= i < |s| ==> IsBreak(s[i])
  {
    if s != [] && IsBreak(s[|s| - 1]) then TrimRight(s[..|s| - 1]) else s
  }

  predicate IsBreak(b: Byte) {
    b == 10 || b == 13
  }

  function StreamOf(kind: Byte): Stream {
    if kind == 2 then Stderr else Stdout
  }

  /** What a payload makes the streamer publish. */
  function LinesOf(kind: Byte, payload: Bytes): seq<Line> {
    if TrimRight(payload) == [] then [] else [Line(StreamOf(kind), TrimRight(payload))]
  }

  /** Everything that demuxDockerLogs publishes for an input. */
  function Demuxed(input: Bytes): seq<Line>
    decreases |input|
  {
    if |input| < 8 then []
    else
      var size, rest := DecodeSize(input[..8]), input[8..];
      if size == 0 || size > MIB then Demuxed(rest)
      else if |rest| < size then []
      else LinesOf(input[0], rest[..size]) + Demuxed(rest[size..])
  }

  /** demuxDockerLogs; the context may end at any time. */
  method DemuxDockerLogs(input: Bytes) returns (published: seq<Line>, cancelled: bool)
    ensures !cancelled ==> published == Demuxed(input)
    ensures published <= Demuxed(input)
  {
    published, cancelled := [], false;
    var rest, more := input, true;
    while more
      invariant Demuxed(input) == published + if more then Demuxed(rest) else []
      decreases more, |rest|
    {
      if * {
        cancelled := true;
        return;
      }
      ghost var before := published;
      var lines;
      lines, rest, more := ReadFrame(rest);
      ConcatAssociative(before, lines, if more then Demuxed(rest) else []);
      published := published + lines;
    }
  }

  /** What is left of an input after a header that is passed over, and after a frame. */
  lemma HeaderSkipped(input: Bytes)
    requires 8 <= |input| && (DecodeSize(input[..8]) == 0 || DecodeSize(input[..8]) > MIB)
    ensures Demuxed(input) == Demuxed(input[8..])
  {
  }

  lemma WholeFrameRead(input: Bytes, size: nat)
    requires |input| >= 8 + size && size == DecodeSize(input[..8]) && 0 < size <= MIB
    ensures Demuxed(input) == LinesOf(input[0], input[8..][..size]) + Demuxed(input[8..][size..])
  {
  }

  /** One round of the loop. */
  method ReadFrame(input: Bytes) returns (lines: seq<Line>, rest: Bytes, more: bool)
    ensures Demuxed(input) == lines + if more then Demuxed(rest) else []
    ensures more ==> |rest| < |input|
  {
    lines, rest, more := [], input, false;
    if |rest| < 8 {
      return;
    }
    var header := rest[..8];
    rest := rest[8..];
    var stream := Stdout;
    if header[0] == 2 {
      stream := Stderr;
    }
    var size := DecodeSize(header);
    if size == 0 || size > MIB {
      HeaderSkipped(input);
      more := true;
      return;
    }
    if |rest| < size {
      return;
    }
    WholeFrameRead(input, size);
    var line := TrimRight(rest[..size]);
    rest := rest[size..];
    more := true;
    if line == [] {
      return;
    }
    lines := [Line(stream, line)];
  }

  // ----- framing -----

  /** A frame of the Docker stream format: kind, three bytes of padding, the size and the payload. */
  datatype Frame = Frame(kind: Byte, padding: Bytes, payload: Bytes) {
    predicate Valid() {
      |padding| == 3 && |payload| < 0x1_0000_0000
    }
  }

  /** Four bytes, the most significant first. */
  function EncodeSize(n: nat): Bytes
    requires n < 0x1_0000_0000
  {
    [n / 0x100_0000, n / 0x1_0000 % 0x100, n / 0x100 % 0x100, n % 0x100]
  }

  function Encode(f: Frame): Bytes
    requires f.Valid()
  {
    [f.kind] + f.padding + EncodeSize(|f.payload|) + f.payload
  }

  function EncodeAll(frames: seq<Frame>): Bytes
    requires forall f :: f in frames ==> f.Valid()
  {
    if frames == [] then [] else Encode(frames[0]) + EncodeAll(frames[1..])
  }

  function Expected(frames: seq<Frame>): seq<Line> {
    if frames == [] then [] else LinesOf(frames[0].kind, frames[0].payload) + Expected(frames[1..])
  }

  lemma DigitsAddUp(n: nat)
    ensures BigEndian(n / 0x100_0000, n / 0x1_0000 % 0x100, n / 0x100 % 0x100, n % 0x100) == n
  {
    var q := n / 0x100;
    var r := q / 0x100;
    assert n / 0x1_0000 == r && n / 0x100_0000 == r / 0x100;
  }

  /** Shifting and or-ing the bytes inverts the big-endian encoding. */
  lemma SizeRoundTrip(start: Bytes, n: nat)
    requires |start| == 4 && n < 0x1_0000_0000
    ensures DecodeSize(start + EncodeSize(n)) == n
  {
    var header, e := start + EncodeSize(n), EncodeSize(n);
    DecodedSize(header);
    assert header[4] == e[0] && header[5] == e[1] && header[6] == e[2] && header[7] == e[3];
    DigitsAddUp(n);
  }

  lemma Parts(a: Bytes, b: Bytes, payload: Bytes, rest: Bytes)
    requires |a| == 4 && |b| == 4
    ensures ((a + b + payload) + rest)[..8] == a + b
    ensures ((a + b + payload) + rest)[8..] == payload + rest
  {
  }

  lemma HeaderOf(f: Frame, rest: Bytes)
    requires f.Valid()
    ensures var input := Encode(f) + rest;
            && |input| >= 8 && input[0] == f.kind
            && DecodeSize(input[..8]) == |f.payload| && input[8..] == f.payload + rest
  {
    Parts([f.kind] + f.padding, EncodeSize(|f.payload|), f.payload, rest);
    SizeRoundTrip([f.kind] + f.padding, |f.payload|);
  }

  /** Nothing but line breaks, LF and CR. */
  ghost predicate IsBlank(s: Bytes) {
    forall i :: 0 <= i < |s| ==> s[i] in {10, 13}
  }

  /** The line is the payload of the frame without the line breaks at its end, told to come from
      the error stream exactly if the kind of the frame is 2. */
  ghost predicate IsLineOf(l: Line, f: Frame) {
    && (l.stream == Stderr <==> f.kind == 2)
    && l.text <= f.payload && IsBlank(f.payload[|l.text|..])
    && l.text != [] && l.text[|l.text| - 1] !in {10, 13}
  }

  /** What a frame is to have published: one line, or none if it is blank. */
  ghost predicate Publishes(f: Frame, lines: seq<Line>) {
    if IsBlank(f.payload) then lines == [] else |lines| == 1 && IsLineOf(lines[0], f)
  }

  lemma LinesOfFrame(f: Frame)
    ensures Publishes(f, LinesOf(f.kind, f.payload))
  {
    var text := TrimRight(f.payload);
    if text == [] {
      forall i | 0 <= i < |f.payload| ensures f.payload[i] in {10, 13} {
        assert IsBreak(f.payload[i]);
      }
    } else {
      assert text[|text| - 1] == f.payload[|text| - 1];
      forall i | 0 <= i < |f.payload[|text|..]| ensures f.payload[|text|..][i] in {10, 13} {
        assert IsBreak(f.payload[|text| + i]);
      }
    }
  }

  lemma NoLongerText(f: Frame, a: Line, b: Line)
    requires IsLineOf(a, f) && IsLineOf(b, f)
    ensures |b.text| <= |a.text|
  {
    forall i | |a.text| <= i < |f.payload| ensures f.payload[i] in {10, 13} {
      assert f.payload[i] == f.payload[|a.text|..][i - |a.text|];
    }
    assert b.text[|b.text| - 1] == f.payload[|b.text| - 1];
  }

  lemma PublishesOne(f: Frame, a: seq<Line>, b: seq<Line>)
    requires Publishes(f, a) && Publishes(f, b)
    ensures a == b
  {
    if !IsBlank(f.payload) {
      NoLongerText(f, a[0], b[0]);
      NoLongerText(f, b[0], a[0]);
      assert a[0].text == f.payload[..|a[0].text|] && b[0].text == f.payload[..|b[0].text|];
    }
  }

  /** The frames that have something to publish. */
  ghost function NonBlank(frames: seq<Frame>): seq<Frame> {
    if frames == [] then []
    else (if IsBlank(frames[0].payload) then [] else [frames[0]]) + NonBlank(frames[1..])
  }

  lemma {:induction false} ExpectedInOrder(frames: seq<Frame>)
    ensures |Expected(frames)| == |NonBlank(frames)|
    ensures forall i :: 0 <= i < |NonBlank(frames)| ==> IsLineOf(Expected(frames)[i], NonBlank(frames)[i])
  {
    if frames == [] {
    } else {
      LinesOfFrame(frames[0]);
      ExpectedInOrder(frames[1..]);
    }
  }

  /** A frame of no more than 1 MiB is read off, and published unless blank. */
  lemma FrameRead(f: Frame, rest: Bytes)
    requires f.Valid() && |f.payload| <= MIB
    ensures Demuxed(Encode(f) + rest) == LinesOf(f.kind, f.payload) + Demuxed(rest)
  {
    HeaderOf(f, rest);
    if |f.payload| > 0 {
      WholeFrameRead(Encode(f) + rest, |f.payload|);
    }
    assert (f.payload + rest)[..|f.payload|] == f.payload && (f.payload + rest)[|f.payload|..] == rest;
  }

  /** An input that ends within a frame. */
  ghost predicate Incomplete(tail: Bytes) {
    exists f: Frame :: f.Valid() && |f.payload| <= 0x10_0000 && tail < Encode(f)
  }

  lemma IncompleteIsSilent(tail: Bytes)
    requires Incomplete(tail)
    ensures Demuxed(tail) == []
  {
    var f: Frame :| f.Valid() && |f.payload| <= MIB && tail < Encode(f);
    if |tail| >= 8 {
      HeaderOf(f, []);
      assert Encode(f) + [] == Encode(f);
      assert tail[..8] == Encode(f)[..8];
    }
  }

  lemma OneMoreFrame(f: Frame, encoded: Bytes, tail: Bytes, lines: seq<Line>)
    requires f.Valid() && |f.payload| <= MIB && Demuxed(encoded + tail) == lines
    ensures Demuxed((Encode(f) + encoded) + tail) == LinesOf(f.kind, f.payload) + lines
  {
    ConcatAssociative(Encode(f), encoded, tail);
    FrameRead(f, encoded + tail);
  }

  lemma {:induction false} DemuxedIsExpected(frames: seq<Frame>, tail: Bytes)
    requires forall f :: f in frames ==> f.Valid() && |f.payload| <= MIB
    requires Incomplete(tail)
    ensures Demuxed(EncodeAll(frames) + tail) == Expected(frames)
  {
    if frames == [] {
      IncompleteIsSilent(tail);
      assert EncodeAll(frames) + tail == tail;
    } else {
      DemuxedIsExpected(frames[1..], tail);
      OneMoreFrame(frames[0], EncodeAll(frames[1..]), tail, Expected(frames[1..]));
    }
  }

  /** Demultiplexing undoes framing: of any frames of no more than 1 MiB and an incomplete end, the
      i-th line published is the i-th payload that is not blank, trimmed, with its stream. */
  lemma DemuxUndoesFraming(frames: seq<Frame>, tail: Bytes)
    requires forall f :: f in frames ==> f.Valid() && |f.payload| <= 0x10_0000
    requires Incomplete(tail)
    ensures var lines := Demuxed(EncodeAll(frames) + tail);
            && |lines| == |NonBlank(frames)|
            && forall i :: 0 <= i < |lines| ==> IsLineOf(lines[i], NonBlank(frames)[i])
  {
    DemuxedIsExpected(frames, tail);
    ExpectedInOrder(frames);
  }

  // ----- frames of more than 1 MiB -----

  /** The payload of such a frame is read as if it were frames itself. */
  lemma OversizeRead(f: Frame, rest: Bytes)
    requires f.Valid() && |f.payload| > MIB
    ensures Demuxed(Encode(f) + rest) == Demuxed(f.payload + rest)
  {
    HeaderOf(f, rest);
  }

  lemma TrimReaches(s: Bytes, from: nat, to: nat)
    requires from <= to <= |s| && TrimRight(s[from..to]) != []
    ensures TrimRight(s) != [] && |TrimRight(s)| >= from + |TrimRight(s[from..to])|
  {
  }

  lemma Slices(s: Bytes, n: nat)
    requires 8 + n <= |s|
    ensures s[8..][n..] == s[8 + n..] && s[8..][..n] == s[8..8 + n]
  {
  }

  lemma WholeFrame(input: Bytes, n: nat)
    requires 8 + n <= |input| && DecodeSize(input[..8]) == n
    requires DecodeSize(input[..8]) != 0 && DecodeSize(input[..8]) <= MIB
    ensures Demuxed(input) == LinesOf(input[0], input[8..8 + n]) + Demuxed(input[8 + n..])
  {
    WholeFrameRead(input, n);
    Slices(input, n);
  }

  lemma FrameFits(input: Bytes, n: nat)
    requires Demuxed(input) != [] && DecodeSize(input[..8]) == n
    requires DecodeSize(input[..8]) != 0 && DecodeSize(input[..8]) <= MIB
    ensures 8 + n <= |input|
  {
  }

  /** Line `i` comes from the first frame, or is line `j` of the rest. */
  lemma LineFrom(input: Bytes, i: nat) returns (k: nat, inRest: bool, j: nat)
    requires i < |Demuxed(input)|
    ensures 8 <= k <= |input|
    ensures inRest ==> j < |Demuxed(input[k..])| && Demuxed(input)[i] == Demuxed(input[k..])[j]
    ensures !inRest ==> TrimRight(input[8..k]) != [] && Demuxed(input)[i].text == TrimRight(input[8..k])
  {
    var n := DecodeSize(input[..8]);
    k, inRest, j := 8, true, i;
    if n == 0 || n > MIB {
      HeaderSkipped(input);
    } else {
      FrameFits(input, n);
      k := 8 + n;
      inRest, j := LineFromFrame(input, n, i);
    }
  }

  lemma LineFromFrame(input: Bytes, n: nat, i: nat) returns (inRest: bool, j: nat)
    requires 8 + n <= |input| && DecodeSize(input[..8]) == n && 0 < n <= MIB
    requires i < |Demuxed(input)|
    ensures inRest ==> j < |Demuxed(input[8 + n..])| && Demuxed(input)[i] == Demuxed(input[8 + n..])[j]
    ensures !inRest ==> TrimRight(input[8..8 + n]) != [] && Demuxed(input)[i].text == TrimRight(input[8..8 + n])
  {
    WholeFrame(input, n);
    var lines := LinesOf(input[0], input[8..8 + n]);
    inRest := i >= |lines|;
    j := if inRest then i - |lines| else 0;
  }

  /** No line reaches as far as the trimmed input does. */
  lemma {:induction false} LinesAreShort(input: Bytes, i: nat)
    requires i < |Demuxed(input)|
    ensures TrimRight(input) != [] && |Demuxed(input)[i].text| + 8 <= |TrimRight(input)|
    decreases |input|
  {
    var k, inRest, j := LineFrom(input, i);
    if inRest {
      LinesAreShort(input[k..], j);
      assert input[k..] == input[k..|input|];
      TrimReaches(input, k, |input|);
    } else {
      TrimReaches(input, 8, k);
    }
  }

  /** A header that ends in line breaks tells a size of more than 160 MiB. */
  lemma BreaksAreLarge(header: Bytes)
    requires |header| == 8 && IsBreak(header[4])
    ensures DecodeSize(header) > MIB
  {
    DecodedSize(header);
  }

  /** What is left behind whole headers. */
  function Remainder(blank: Bytes): (r: Bytes)
    ensures |r| == |blank| % 8 && (IsBlank(blank) ==> IsBlank(r))
  {
    if |blank| < 8 then blank else Remainder(blank[8..])
  }

  lemma {:induction false} BlankSkipped(blank: Bytes, rest: Bytes)
    requires IsBlank(blank)
    ensures Demuxed(blank + rest) == Demuxed(Remainder(blank) + rest)
    decreases |blank|
  {
    if |blank| >= 8 {
      var input := blank + rest;
      BreaksAreLarge(input[..8]);
      assert input[8..] == blank[8..] + rest;
      BlankSkipped(blank[8..], rest);
    }
  }

  /** The frame of the line "a". */
  const LINE_A: Bytes := [0, 0, 0, 0, 0, 0, 0, 1, 97]

  lemma LineARead()
    ensures Demuxed(LINE_A) == [Line(Stdout, [97])]
  {
    var f := Frame(0, [0, 0, 0], [97]);
    assert Encode(f) + [] == LINE_A;
    FrameRead(f, []);
  }

  /** Behind one to seven line breaks it is lost. */
  lemma LineALost(blank: Bytes)
    requires IsBlank(blank) && 1 <= |blank| <= 7
    ensures Demuxed(blank + LINE_A) == []
  {
    var input := blank + LINE_A;
    HeaderLost(blank);
    HeaderSkipped(input);
    if |blank| == 7 {
      assert input[8..] == LINE_A[1..];
      TailLost();
    }
  }

  lemma HeaderLost(blank: Bytes)
    requires IsBlank(blank) && 1 <= |blank| <= 7
    ensures var size := DecodeSize((blank + LINE_A)[..8]); size == 0 || size > MIB
  {
    var header := (blank + LINE_A)[..8];
    if |blank| > 4 {
      BreaksAreLarge(header);
    } else {
      assert header[4] == 0 && header[5] == 0 && header[6] == 0 && header[7] == 0;
      DecodedSize(header);
    }
  }

  lemma TailLost()
    ensures Demuxed(LINE_A[1..]) == []
  {
  }

  lemma FrameReadAsLinesIff(f: Frame)
    requires f.Valid()
    ensures (forall rest :: Demuxed(Encode(f) + rest) == LinesOf(f.kind, f.payload) + Demuxed(rest)) <==>
            |f.payload| <= MIB || (IsBlank(f.payload) && |f.payload| % 8 == 0)
  {
    if |f.payload| <= MIB {
      forall rest {
        FrameRead(f, rest);
      }
    } else {
      forall rest {
        OversizeRead(f, rest);
      }
      if IsBlank(f.payload) {
        OversizeBlankIff(f.payload);
      } else {
        NonBlankLost(f.kind, f.payload);
        assert f.payload + [] == f.payload;
      }
    }
  }

  /** The lines come first, and then those of what follows, whatever that is. */
  ghost predicate ComesFirst(input: Bytes, lines: seq<Line>) {
    forall rest :: Demuxed(input + rest) == lines + Demuxed(rest)
  }

  /** Whatever follows, a frame is read off and published properly exactly when it is no
      larger than 1 MiB, or else blank and a multiple of eight bytes long. */
  lemma FrameReadIff(f: Frame)
    requires f.Valid()
    ensures (exists lines :: Publishes(f, lines) && ComesFirst(Encode(f), lines)) <==>
            |f.payload| <= 0x10_0000 || (IsBlank(f.payload) && |f.payload| % 8 == 0)
  {
    var lines := LinesOf(f.kind, f.payload);
    FrameReadAsLinesIff(f);
    LinesOfFrame(f);
    if other :| Publishes(f, other) && ComesFirst(Encode(f), other) {
      PublishesOne(f, lines, other);
    }
    assert |f.payload| <= MIB || (IsBlank(f.payload) && |f.payload| % 8 == 0) ==> ComesFirst(Encode(f), lines);
  }

  lemma NonBlankLost(kind: Byte, payload: Bytes)
    requires !IsBlank(payload)
    ensures Demuxed(payload) != LinesOf(kind, payload) + Demuxed([])
  {
    assert TrimRight(payload) != [];
    if Demuxed(payload) != [] {
      LinesAreShort(payload, 0);
    }
  }

  lemma OversizeBlankIff(payload: Bytes)
    requires IsBlank(payload)
    ensures TrimRight(payload) == []
    ensures (forall rest :: Demuxed(payload + rest) == Demuxed(rest)) <==> |payload| % 8 == 0
  {
    var left := Remainder(payload);
    forall rest {
      BlankSkipped(payload, rest);
    }
    if left == [] {
      assert forall rest: Bytes :: left + rest == rest;
    } else {
      LineALost(left);
      LineARead();
      BlankSkipped(payload, LINE_A);
    }
  }

  /** A frame whose payload is one byte too long. */
  function LargeFrame(): Frame {
    Frame(1, [0, 0, 0], seq(0x10_0001, i => 97))
  }

  /** The failing case: on its own it is not published. */
  lemma LargeFrameIsLost()
    ensures LargeFrame().Valid() && |LargeFrame().payload| == 0x10_0001
    ensures !Publishes(LargeFrame(), Demuxed(Encode(LargeFrame())))
  {
    var f := LargeFrame();
    assert f.payload[0] == 97 && !IsBlank(f.payload);
    OversizeRead(f, []);
    NonBlankLost(f.kind, f.payload);
    assert Encode(f) + [] == Encode(f) && f.payload + [] == f.payload;
    LinesOfFrame(f);
    assert LinesOf(f.kind, f.payload) + Demuxed([]) == LinesOf(f.kind, f.payload);
    if Publishes(f, Demuxed(Encode(f))) {
      PublishesOne(f, LinesOf(f.kind, f.payload), Demuxed(Encode(f)));
    }
  }
}
