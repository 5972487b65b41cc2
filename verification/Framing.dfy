/** Messages of the base protocol on one byte stream: how they are framed, how
    the reader takes them apart, and what a stream of them costs. */
module Framing {
  import opened Wrappers

  type byte = x: int | 0 <= x < 256

  const CR: byte := 13
  const LF: byte := 10
  /** "Content-Length: " */
  const NAME: seq<byte> := [67, 111, 110, 116, 101, 110, 116, 45, 76, 101, 110, 103, 116, 104, 58, 32]
  const NEWLINE: seq<byte> := [CR, LF]
  const BLANK: seq<byte> := [CR, LF, CR, LF]
  const MAX_HEADER := 8192

  // ---- writing ----

  /** How many bytes a character has, from the first of them. */
  function Width(b: byte): nat {
    if b < 0x80 then 1 else if b < 0xE0 then 2 else if b < 0xF0 then 3 else 4
  }

  /** A character in UTF-8. */
  function EncodeChar(c: char): (bs: seq<byte>)
    ensures bs != [] && |bs| == Width(bs[0]) && (|bs| == 1 <==> c as int < 0x80)
  {
    var n := c as int;
    var m := n / 0x40;
    var l := m / 0x40;
    if n < 0x80 then [n]
    else if n < 0x800 then [0xC0 + m, 0x80 + n % 0x40]
    else if n < 0x10000 then [0xE0 + l, 0x80 + m % 0x40, 0x80 + n % 0x40]
    else [0xF0 + l / 0x40, 0x80 + l % 0x40, 0x80 + m % 0x40, 0x80 + n % 0x40]
  }

  predicate Continues(b: byte) { 0x80 <= b < 0xC0 }

  /** The encoding is that of section 3 of RFC 3629: the shortest of the four forms, with
      the bits of the character spread over the lead byte and the bytes that continue it. */
  lemma EncodeCharIsUtf8(c: char)
    ensures var n, bs := c as int, EncodeChar(c);
            && (|bs| == 1 <==> n < 0x80) && (|bs| == 2 <==> 0x80 <= n < 0x800)
            && (|bs| == 3 <==> 0x800 <= n < 0x10000) && (|bs| == 4 <==> 0x10000 <= n)
            && (forall i | 0 < i < |bs| :: Continues(bs[i]))
            && (|bs| == 1 ==> bs[0] == n)
            && (|bs| == 2 ==> 0xC0 <= bs[0] < 0xE0 && n == (bs[0] as int - 0xC0) * 0x40 + (bs[1] as int - 0x80))
            && (|bs| == 3 ==>
                  0xE0 <= bs[0] < 0xF0 &&
                  n == ((bs[0] as int - 0xE0) * 0x40 + (bs[1] as int - 0x80)) * 0x40 + (bs[2] as int - 0x80))
            && (|bs| == 4 ==>
                  0xF0 <= bs[0] < 0xF8 &&
                  n == (((bs[0] as int - 0xF0) * 0x40 + (bs[1] as int - 0x80)) * 0x40 + (bs[2] as int - 0x80)) * 0x40
                       + (bs[3] as int - 0x80))
  {
    var n := c as int;
    assert n < 0x110000;
  }

  function Encode(s: string): (bs: seq<byte>)
    ensures |bs| >= |s|
  {
    if s == [] then [] else EncodeChar(s[0]) + Encode(s[1..])
  }

  predicate IsAscii(s: string) { forall i | 0 <= i < |s| :: s[i] as int < 0x80 }

  predicate AllDigits(ds: seq<byte>) { forall i | 0 <= i < |ds| :: 48 <= ds[i] < 58 }

  function Digits(n: nat): (ds: seq<byte>)
    ensures ds != [] && AllDigits(ds)
  {
    if n < 10 then [48 + n] else Digits(n / 10) + [48 + n % 10]
  }

  function Header(text: string): seq<byte> { NAME + Digits(|text|) + BLANK }

  /** The length announced is the number of characters, not of bytes. */
  function MakeMessage(text: string): seq<byte> { Header(text) + Encode(text) }

  // ---- reading ----

  predicate Occurs(s: seq<byte>, pat: seq<byte>, i: nat) { i + |pat| <= |s| && s[i..i + |pat|] == pat }

  /** The first occurrence at or after `from`. */
  function IndexOf(s: seq<byte>, pat: seq<byte>, from: nat): (r: Option<nat>)
    ensures r.Some? ==> r.value + |pat| <= |s|
    decreases |s| - from
  {
    if Occurs(s, pat, from) then Some(from)
    else if from >= |s| then None
    else IndexOf(s, pat, from + 1)
  }

  lemma {:induction false} IndexOfIsFirst(s: seq<byte>, pat: seq<byte>, from: nat)
    ensures match IndexOf(s, pat, from)
            case Some(i) => from <= i && Occurs(s, pat, i) && forall j | from <= j < i :: !Occurs(s, pat, j)
            case None => forall j | from <= j :: !Occurs(s, pat, j)
    decreases |s| - from
  {
    if !Occurs(s, pat, from) && from < |s| {
      IndexOfIsFirst(s, pat, from + 1);
    }
  }

  /** What precedes the first occurrence, or everything. */
  function Cut(s: seq<byte>, pat: seq<byte>): seq<byte> {
    var i := IndexOf(s, pat, 0);
    if i.Some? then s[..i.value] else s
  }

  function Value(ds: seq<byte>): int {
    if ds == [] then 0 else Value(ds[..|ds| - 1]) * 10 + ds[|ds| - 1] - 48
  }

  lemma {:induction false} ValueIsNatural(ds: seq<byte>)
    requires AllDigits(ds)
    ensures Value(ds) >= 0
  {
    if ds != [] {
      ValueIsNatural(ds[..|ds| - 1]);
    }
  }

  /** The number written in decimal digits and nothing else. */
  function ParseNumber(ds: seq<byte>): (r: Option<nat>)
    ensures r.Some? <==> ds != [] && AllDigits(ds)
  {
    if ds == [] || !AllDigits(ds) then None
    else ValueIsNatural(ds); Some(Value(ds))
  }

  datatype Fault = EndOfStream | HeaderTooLong | NoLength | BadLength

  /** What a header announces. */
  function ContentLength(header: seq<byte>): Result<nat, Fault> {
    var i := IndexOf(header, NAME, 0);
    if i.None? then Failure(NoLength)
    else
      var n := ParseNumber(Cut(Cut(header[i.value + |NAME|..], NAME), NEWLINE));
      if n.None? then Failure(BadLength) else Success(n.value)
  }

  /** The number of bytes read when the header ends, `n` of them read already. */
  function HeaderEnd(data: seq<byte>, n: nat): (r: Result<nat, Fault>)
    requires n <= |data|
    ensures r.Success? ==> n <= r.value <= |data| && Ends(data[..r.value])
    decreases |data| - n
  {
    if Ends(data[..n]) then Success(n)
    else if n == |data| then Failure(EndOfStream)
    else if n + 1 > MAX_HEADER then Failure(HeaderTooLong)
    else HeaderEnd(data, n + 1)
  }

  /** The header read so far ends in a blank line. */
  predicate Ends(header: seq<byte>) {
    var n := |header|;
    n >= 4 && header[n - 4] == CR && header[n - 3] == LF && header[n - 2] == CR && header[n - 1] == LF
  }

  lemma EndsIsBlank(data: seq<byte>, k: nat)
    requires 4 <= k <= |data|
    ensures Ends(data[..k]) <==> Occurs(data, BLANK, k - 4)
  {
    var part := data[k - 4..k];
    assert part == BLANK <==> part[0] == CR && part[1] == LF && part[2] == CR && part[3] == LF;
  }

  lemma {:induction false} HeaderEndScans(data: seq<byte>, n: nat)
    requires n <= |data| && n <= MAX_HEADER && forall k | 0 <= k < n :: !Ends(data[..k])
    ensures match HeaderEnd(data, n)
            case Success(h) => h <= MAX_HEADER && Ends(data[..h]) && forall k | 0 <= k < h :: !Ends(data[..k])
            case Failure(e) =>
              && (forall k | 0 <= k <= |data| && k <= MAX_HEADER :: !Ends(data[..k]))
              && e == if |data| <= MAX_HEADER then EndOfStream else HeaderTooLong
    decreases |data| - n
  {
    if !Ends(data[..n]) && n < |data| && n + 1 <= MAX_HEADER {
      HeaderEndScans(data, n + 1);
    }
  }

  /** The header is everything up to the first blank line, at most 8192 bytes; without
      one there is none, because of the limit if the stream is longer than that. */
  lemma HeaderEndIsFirst(data: seq<byte>)
    ensures match HeaderEnd(data, 0)
            case Success(h) =>
              4 <= h <= 8192 && Occurs(data, BLANK, h - 4) && forall k | 0 <= k < h - 4 :: !Occurs(data, BLANK, k)
            case Failure(e) =>
              && (forall k | 0 <= k <= 8192 - 4 :: !Occurs(data, BLANK, k))
              && e == if |data| <= 8192 then EndOfStream else HeaderTooLong
  {
    HeaderEndScans(data, 0);
    forall k | 0 <= k <= |data| - 4 ensures Occurs(data, BLANK, k) ==> Ends(data[..k + 4]) {
      EndsIsBlank(data, k + 4);
    }
    var h := HeaderEnd(data, 0);
    if h.Success? {
      EndsIsBlank(data, h.value);
    }
  }

  /** The content after a header of `h` bytes that announces this length, and what follows it. */
  function Content(data: seq<byte>, h: nat, n: Result<nat, Fault>): (r: Result<(seq<byte>, seq<byte>), Fault>)
    requires 0 < h <= |data|
    ensures r.Success? ==> |r.value.1| < |data|
  {
    if n.Failure? then Failure(n.error)
    else if h + n.value > |data| then Failure(EndOfStream)
    else Success((data[h..h + n.value], data[h + n.value..]))
  }

  /** The same, given where the header ends and how headers announce lengths. */
  function ParseAfter(data: seq<byte>, h: Result<nat, Fault>, announced: seq<byte> -> Result<nat, Fault>):
    (r: Result<(seq<byte>, seq<byte>), Fault>)
    requires h.Success? ==> 0 < h.value <= |data|
    ensures r.Success? ==> |r.value.1| < |data|
  {
    if h.Failure? then Failure(h.error) else Content(data, h.value, announced(data[..h.value]))
  }

  /** The first message of the stream, as its bytes, and what follows it. */
  function Parse(data: seq<byte>): (r: Result<(seq<byte>, seq<byte>), Fault>)
    ensures r.Success? ==> |r.value.1| < |data|
  {
    ParseAfter(data, HeaderEnd(data, 0), ContentLength)
  }

  /** All messages up to the end of the stream or the first fault. */
  function Messages(data: seq<byte>): seq<seq<byte>>
    decreases |data|
  {
    var r := Parse(data);
    if r.Failure? then [] else [r.value.0] + Messages(r.value.1)
  }

  // ---- the reader, on a stream that delivers what it likes ----

  class Stream {
    var data: seq<byte>

    constructor (bytes: seq<byte>)
      ensures data == bytes
    {
      data := bytes;
    }

    method Read() returns (b: Option<byte>)
      modifies this
      ensures old(data) == [] ==> b == None && data == []
      ensures old(data) != [] ==> b == Some(old(data)[0]) && data == old(data)[1..]
    {
      if data == [] { return None; }
      b, data := Some(data[0]), data[1..];
    }

    /** Fill some of the buffer from `at` on: any number of bytes there are, but
        none only at the end of the stream. */
    method ReadInto(buf: array<byte>, at: nat) returns (k: nat)
      requires at < buf.Length
      modifies this, buf
      ensures k <= |old(data)| && at + k <= buf.Length && (k == 0 <==> old(data) == [])
      ensures data == old(data)[k..]
      ensures buf[..at + k] == old(buf[..at]) + old(data)[..k]
    {
      if data == [] { return 0; }
      k :| 1 <= k <= |data| && k <= buf.Length - at;
      forall i | 0 <= i < k { buf[at + i] := data[i]; }
      data := data[k..];
    }
  }

  /** Exactly `n` bytes, however the stream cuts them up. */
  method ReadExact(stream: Stream, n: nat) returns (r: Result<seq<byte>, Fault>)
    modifies stream
    ensures if n <= |old(stream.data)| then r == Success(old(stream.data)[..n]) && stream.data == old(stream.data)[n..]
            else r == Failure(EndOfStream) && stream.data == []
  {
    var buf := new byte[n];
    var left := n;
    while left > 0
      invariant 0 <= left <= n && n - left <= |old(stream.data)|
      invariant stream.data == old(stream.data)[n - left..]
      invariant buf[..n - left] == old(stream.data)[..n - left]
    {
      var k := stream.ReadInto(buf, n - left);
      if k == 0 { return Failure(EndOfStream); }
      left := left - k;
    }
    assert buf[..] == buf[..n];
    return Success(buf[..]);
  }

  /** Byte by byte up to the blank line. */
  method ReadHeader(stream: Stream) returns (r: Result<seq<byte>, Fault>)
    modifies stream
    ensures var h := HeaderEnd(old(stream.data), 0);
            if h.Success? then r == Success(old(stream.data)[..h.value]) && stream.data == old(stream.data)[h.value..]
            else r == Failure(h.error)
  {
    ghost var data := stream.data;
    var header: seq<byte> := [];
    while !Ends(header)
      invariant |header| <= |data| && header == data[..|header|] && stream.data == data[|header|..]
      invariant HeaderEnd(data, 0) == HeaderEnd(data, |header|)
      decreases |data| - |header|
    {
      var b := stream.Read();
      if b.None? { return Failure(EndOfStream); }
      header := header + [b.value];
      if |header| > MAX_HEADER { return Failure(HeaderTooLong); }
    }
    return Success(header);
  }

  method ReadMessage(stream: Stream) returns (r: Result<seq<byte>, Fault>)
    modifies stream
    ensures var p := Parse(old(stream.data));
            if p.Success? then r == Success(p.value.0) && stream.data == p.value.1 else r == Failure(p.error)
  {
    ghost var data := stream.data;
    var header := ReadHeader(stream);
    if header.Failure? { return Failure(header.error); }
    var n := ContentLength(header.value);
    if n.Failure? { return Failure(n.error); }
    ghost var left := stream.data;
    r := ReadExact(stream, n.value);
    ghost var h := |header.value|;
    assert left == data[h..];
    if h + n.value <= |data| {
      assert left[..n.value] == data[h..h + n.value] && left[n.value..] == data[h + n.value..];
    }
  }

  // ---- round trip ----

  /** A frame begins with the header field `Content-Length`, which says in decimal digits
      how many characters the text has, and a blank line. */
  lemma FrameBegins(text: string) returns (digits: seq<byte>)
    ensures var name := "Content-Length: ";
            && Header(text) <= MakeMessage(text) && |Header(text)| == |name| + |digits| + 4
            && (forall i | 0 <= i < |name| :: Header(text)[i] == name[i] as int)
            && Header(text)[|name|..|name| + |digits|] == digits && ParseNumber(digits) == Some(|text|)
            && Header(text)[|name| + |digits|..] == [13, 10, 13, 10]
  {
    digits := Digits(|text|);
    DigitsReadBack(|text|);
    var name := "Content-Length: ";
    forall i | 0 <= i < |name| ensures NAME[i] == name[i] as int {
    }
  }

  lemma {:induction false} DigitsReadBack(n: nat)
    ensures ParseNumber(Digits(n)) == Some(n)
  {
    var ds := Digits(n);
    if n < 10 {
      assert ds[..0] == [] && Value(ds) == Value(ds[..0]) * 10 + n;
    } else {
      DigitsReadBack(n / 10);
      assert ds[..|ds| - 1] == Digits(n / 10) && ds[|ds| - 1] == 48 + n % 10;
    }
  }

  /** No occurrence can start where the first byte is missing. */
  lemma NoOccurrence(s: seq<byte>, pat: seq<byte>, i: nat)
    requires pat != [] && i < |s| && s[i] != pat[0]
    ensures !Occurs(s, pat, i)
  {
    if i + |pat| <= |s| {
      assert s[i..i + |pat|][0] == s[i];
    }
  }

  lemma CutAtFirst(s: seq<byte>, pat: seq<byte>, i: nat)
    requires pat != [] && Occurs(s, pat, i) && forall j | 0 <= j < i :: s[j] != pat[0]
    ensures IndexOf(s, pat, 0) == Some(i) && Cut(s, pat) == s[..i]
  {
    IndexOfIsFirst(s, pat, 0);
    forall j | 0 <= j < i ensures !Occurs(s, pat, j) {
      NoOccurrence(s, pat, j);
    }
  }

  lemma CutNothing(s: seq<byte>, pat: seq<byte>)
    requires pat != [] && forall j | 0 <= j < |s| :: s[j] != pat[0]
    ensures Cut(s, pat) == s
  {
    IndexOfIsFirst(s, pat, 0);
    forall j: nat ensures !Occurs(s, pat, j) {
      if j < |s| {
        NoOccurrence(s, pat, j);
      }
    }
  }

  lemma HeaderAnnouncesLength(text: string)
    ensures ContentLength(Header(text)) == Success(|text|)
  {
    var h, ds := Header(text), Digits(|text|);
    assert h[..|NAME|] == NAME && Occurs(h, NAME, 0);
    assert IndexOf(h, NAME, 0) == Some(0);
    var tail := h[|NAME|..];
    assert tail == ds + BLANK;
    forall j | 0 <= j < |tail| ensures tail[j] != NAME[0] {
      if j < |ds| {
        assert tail[j] == ds[j];
      }
    }
    CutNothing(tail, NAME);
    assert tail[|ds|] == BLANK[0] && tail[|ds| + 1] == BLANK[1];
    assert tail[|ds|..|ds| + 2] == [CR, LF] == NEWLINE && Occurs(tail, NEWLINE, |ds|);
    forall j | 0 <= j < |ds| ensures tail[j] != NEWLINE[0] {
      assert tail[j] == ds[j];
    }
    CutAtFirst(tail, NEWLINE, |ds|);
    assert tail[..|ds|] == ds;
    DigitsReadBack(|text|);
  }

  /** The blank line ends the header, and nothing before it does. */
  lemma HeaderHasNoEarlierEnd(text: string, data: seq<byte>, n: nat)
    requires n < |Header(text)| && n <= |data| && data[..n] == Header(text)[..n]
    ensures !Ends(data[..n])
  {
    var h, ds := Header(text), Digits(|text|);
    if 4 <= n {
      assert data[..n][n - 4] == h[n - 4] && data[..n][n - 3] == h[n - 3];
      if n - 4 < |NAME| {
        assert h[n - 4] == NAME[n - 4];
      } else if n - 4 < |NAME| + |ds| {
        assert h[n - 4] == ds[n - 4 - |NAME|];
      }
    }
  }

  lemma {:induction false} HeaderIsFound(text: string, data: seq<byte>, n: nat)
    requires |Header(text)| <= MAX_HEADER && Header(text) <= data && n <= |Header(text)|
    ensures HeaderEnd(data, n) == Success(|Header(text)|)
    decreases |Header(text)| - n
  {
    var h := Header(text);
    if n == |h| {
      assert data[..n] == h;
    } else {
      assert data[..n] == h[..n];
      HeaderHasNoEarlierEnd(text, data, n);
      HeaderIsFound(text, data, n + 1);
    }
  }

  lemma {:induction false} HeaderIsCutShort(text: string, data: seq<byte>, n: nat)
    requires |Header(text)| <= MAX_HEADER && n <= |data| < |Header(text)| && data <= Header(text)
    ensures HeaderEnd(data, n) == Failure(EndOfStream)
    decreases |data| - n
  {
    assert data[..n] == Header(text)[..n];
    HeaderHasNoEarlierEnd(text, data, n);
    if n < |data| {
      HeaderIsCutShort(text, data, n + 1);
    }
  }

  lemma ParseIs(data: seq<byte>, announced: seq<byte> -> Result<nat, Fault>, h: nat, n: nat)
    requires 0 < h <= |data| && announced(data[..h]) == Success(n) && h + n <= |data|
    ensures ParseAfter(data, Success(h), announced) == Success((data[h..h + n], data[h + n..]))
  {
  }

  lemma Parts(h: seq<byte>, e: seq<byte>, rest: seq<byte>, n: nat)
    requires n <= |e|
    ensures var data := h + e + rest;
            data[..|h|] == h && data[|h|..|h| + n] == e[..n] && data[|h| + n..] == e[n..] + rest
  {
  }

  /** Reading a frame back takes as many bytes as the text has characters. */
  lemma FrameReadBack(text: string, rest: seq<byte>)
    requires |Header(text)| <= MAX_HEADER
    ensures Parse(MakeMessage(text) + rest)
            == Success((Encode(text)[..|text|], Encode(text)[|text|..] + rest))
  {
    var h, e, n := Header(text), Encode(text), |text|;
    var data := MakeMessage(text) + rest;
    Parts(h, e, rest, n);
    HeaderIsFound(text, data, 0);
    HeaderAnnouncesLength(text);
    assert data == h + e + rest;
    assert Parse(data) == ParseAfter(data, Success(|h|), ContentLength);
    ParseIs(data, ContentLength, |h|, n);
  }

  lemma {:induction false} AsciiEncodesBytewise(s: string)
    ensures |Encode(s)| == |s| <==> IsAscii(s)
  {
    if s != [] {
      AsciiEncodesBytewise(s[1..]);
      assert forall i | 0 < i < |s| :: s[i] == s[1..][i - 1];
    }
  }

  /** Reading a frame back gives the whole message and leaves the stream at the
      next frame if and only if the text is ASCII. */
  lemma RoundTrip(text: string, rest: seq<byte>)
    requires |Header(text)| <= MAX_HEADER
    ensures Parse(MakeMessage(text) + rest) == Success((Encode(text), rest)) <==> IsAscii(text)
  {
    FrameReadBack(text, rest);
    AsciiEncodesBytewise(text);
    if IsAscii(text) {
      assert Encode(text)[..|text|] == Encode(text) && Encode(text)[|text|..] + rest == rest;
    } else {
      assert |Encode(text)[..|text|]| == |text|;
    }
  }

  lemma CharIsDetermined(c: char, d: char)
    requires EncodeChar(c) == EncodeChar(d)
    ensures c == d
  {
    var m, n := c as int, d as int;
    assert EncodeChar(c)[0] == EncodeChar(d)[0];
    if m >= 0x80 {
      assert EncodeChar(c)[1] == EncodeChar(d)[1];
      if m >= 0x800 {
        assert EncodeChar(c)[2] == EncodeChar(d)[2];
        if m >= 0x10000 {
          assert EncodeChar(c)[3] == EncodeChar(d)[3];
        }
      }
    }
  }

  lemma FirstCharIsDetermined(c: char, d: char, x: seq<byte>, y: seq<byte>)
    requires EncodeChar(c) + x == EncodeChar(d) + y
    ensures c == d && x == y
  {
    var a, b := EncodeChar(c), EncodeChar(d);
    assert (a + x)[0] == a[0] && (b + y)[0] == b[0];
    assert a == (a + x)[..|a|] && b == (b + y)[..|b|];
    assert x == (a + x)[|a|..] && y == (b + y)[|b|..];
    CharIsDetermined(c, d);
  }

  /** The bytes determine the text. */
  lemma {:induction false} EncodeIsInjective(s: string, t: string)
    requires Encode(s) == Encode(t)
    ensures s == t
  {
    if s != [] && t != [] {
      FirstCharIsDetermined(s[0], t[0], Encode(s[1..]), Encode(t[1..]));
      EncodeIsInjective(s[1..], t[1..]);
      assert s == [s[0]] + s[1..] && t == [t[0]] + t[1..];
    }
  }

  // ---- many frames ----

  function Concat(frames: seq<seq<byte>>): seq<byte> {
    if frames == [] then [] else Concat(frames[..|frames| - 1]) + frames[|frames| - 1]
  }

  lemma {:induction false} ConcatFromTheFront(frames: seq<seq<byte>>)
    requires frames != []
    ensures Concat(frames) == frames[0] + Concat(frames[1..])
  {
    var n := |frames| - 1;
    if n == 0 {
      assert frames[..0] == [] && frames[1..] == [];
    } else {
      ConcatFromTheFront(frames[..n]);
      assert frames[..n][1..] == frames[1..][..n - 1] && frames[1..][n - 1] == frames[n];
    }
  }

  lemma FirstFrame(frames: seq<seq<byte>>, tail: seq<byte>)
    requires frames != []
    ensures Concat(frames) + tail == frames[0] + (Concat(frames[1..]) + tail)
  {
    ConcatFromTheFront(frames);
  }

  /** The reader `f` takes this frame, whatever follows it, as this message. */
  ghost predicate ReadsAs(f: seq<byte> -> seq<seq<byte>>, frame: seq<byte>, content: seq<byte>) {
    forall rest :: f(frame + rest) == [content] + f(rest)
  }

  ghost predicate AllReadAs(f: seq<byte> -> seq<seq<byte>>, frames: seq<seq<byte>>, contents: seq<seq<byte>>) {
    && |frames| == |contents|
    && (frames != [] ==> ReadsAs(f, frames[0], contents[0]) && AllReadAs(f, frames[1..], contents[1..]))
  }

  lemma {:induction false} FramesReadBack(f: seq<byte> -> seq<seq<byte>>,
                                          frames: seq<seq<byte>>, contents: seq<seq<byte>>, tail: seq<byte>)
    requires AllReadAs(f, frames, contents)
    ensures f(Concat(frames) + tail) == contents + f(tail)
    decreases |frames|
  {
    if frames == [] {
      assert Concat(frames) + tail == tail;
    } else {
      FirstFrame(frames, tail);
      FramesReadBack(f, frames[1..], contents[1..], tail);
      assert contents + f(tail) == [contents[0]] + (contents[1..] + f(tail));
    }
  }

  /** The reader takes this text as it was sent. */
  ghost predicate Sendable(text: string) { IsAscii(text) && |Header(text)| <= MAX_HEADER }

  lemma FrameReadsAs(text: string)
    requires Sendable(text)
    ensures ReadsAs(Messages, MakeMessage(text), Encode(text))
  {
    forall rest ensures Messages(MakeMessage(text) + rest) == [Encode(text)] + Messages(rest) {
      RoundTrip(text, rest);
    }
  }

  /** A frame that is not all there is no message yet. */
  lemma PartialFrame(text: string, written: nat)
    requires Sendable(text) && written < |MakeMessage(text)|
    ensures Messages(MakeMessage(text)[..written]) == []
  {
    var h := Header(text);
    var data := MakeMessage(text)[..written];
    AsciiEncodesBytewise(text);
    if written < |h| {
      assert data == h[..written];
      HeaderIsCutShort(text, data, 0);
    } else {
      assert data[..|h|] == h;
      HeaderIsFound(text, data, 0);
      HeaderAnnouncesLength(text);
    }
  }

  /** The frames of these texts. */
  ghost predicate FramesOf(frames: seq<seq<byte>>, texts: seq<string>) {
    |frames| == |texts| && forall i | 0 <= i < |frames| :: Sendable(texts[i]) && frames[i] == MakeMessage(texts[i])
  }

  function EncodeAll(texts: seq<string>): seq<seq<byte>> {
    seq(|texts|, i requires 0 <= i < |texts| => Encode(texts[i]))
  }

  lemma {:induction false} TextsReadBack(frames: seq<seq<byte>>, texts: seq<string>)
    requires FramesOf(frames, texts)
    ensures AllReadAs(Messages, frames, EncodeAll(texts))
    decreases |frames|
  {
    if frames != [] {
      FrameReadsAs(texts[0]);
      TextsReadBack(frames[1..], texts[1..]);
      assert EncodeAll(texts)[1..] == EncodeAll(texts[1..]);
    }
  }

  lemma LogReadsBack(frames: seq<seq<byte>>, texts: seq<string>, tail: seq<byte>)
    requires FramesOf(frames, texts)
    ensures Messages(Concat(frames) + tail) == EncodeAll(texts) + Messages(tail)
  {
    TextsReadBack(frames, texts);
    FramesReadBack(Messages, frames, EncodeAll(texts), tail);
  }

  lemma WholeFrame(text: string)
    requires Sendable(text)
    ensures Messages(MakeMessage(text)) == [Encode(text)]
  {
    FrameReadsAs(text);
    NothingReadsAsNothing();
    assert MakeMessage(text) + [] == MakeMessage(text);
  }

  lemma NothingReadsAsNothing()
    ensures Messages([]) == []
  {
    assert HeaderEnd([], 0) == Failure(EndOfStream);
  }

  // ---- no shorter stream reads as the same messages ----

  /** A number has no shorter spelling than its own. */
  lemma {:induction false} DigitsAreShortest(ds: seq<byte>, n: nat)
    requires ds != [] && AllDigits(ds) && Value(ds) == n
    ensures |Digits(n)| <= |ds|
  {
    var front := ds[..|ds| - 1];
    if n >= 10 {
      assert front == [] ==> Value(front) == 0;
      ValueIsNatural(front);
      assert n == Value(front) * 10 + (ds[|ds| - 1] - 48);
      assert n / 10 == Value(front);
      DigitsAreShortest(front, n / 10);
    }
  }

  lemma NumberIsLong(ds: seq<byte>, n: nat)
    requires ParseNumber(ds) == Some(n)
    ensures |Digits(n)| <= |ds| && ds != [] && AllDigits(ds)
  {
    DigitsAreShortest(ds, n);
  }

  lemma CutIsPrefix(s: seq<byte>, pat: seq<byte>)
    ensures Cut(s, pat) <= s
  {
  }

  /** Where a header's field name stands and which digits follow it. */
  lemma FieldOf(h: seq<byte>, n: nat) returns (i: nat, ds: seq<byte>)
    requires ContentLength(h) == Success(n)
    ensures Occurs(h, NAME, i) && ds <= h[i + |NAME|..] && ds != [] && AllDigits(ds) && |Digits(n)| <= |ds|
  {
    IndexOfIsFirst(h, NAME, 0);
    i := IndexOf(h, NAME, 0).value;
    var rest := h[i + |NAME|..];
    ds := Cut(Cut(rest, NAME), NEWLINE);
    CutIsPrefix(rest, NAME);
    CutIsPrefix(Cut(rest, NAME), NEWLINE);
    NumberIsLong(ds, n);
  }

  /** Neither a field name nor digits can reach into the blank line. */
  lemma BlankIsLast(h: seq<byte>, i: nat, ds: seq<byte>)
    requires Ends(h) && Occurs(h, NAME, i) && ds <= h[i + |NAME|..] && ds != [] && AllDigits(ds)
    ensures i + |NAME| + |ds| + |BLANK| <= |h|
  {
    var e := |h| - 4;
    forall j | i <= j < i + |NAME| ensures h[j] != CR {
      assert h[i..i + |NAME|][j - i] == NAME[j - i];
    }
    forall j | i + |NAME| <= j < i + |NAME| + |ds| ensures h[j] != CR {
      assert ds[j - i - |NAME|] == h[i + |NAME|..][j - i - |NAME|];
    }
    assert h[e] == CR;
  }

  /** The bytes that a message with this content takes at least. */
  function Cost(content: seq<byte>): nat { |NAME| + |Digits(|content|)| + |BLANK| + |content| }

  function Costs(contents: seq<seq<byte>>): nat {
    if contents == [] then 0 else Cost(contents[0]) + Costs(contents[1..])
  }

  lemma HeaderIsLong(h: seq<byte>, n: nat)
    requires Ends(h) && ContentLength(h) == Success(n)
    ensures |h| >= |NAME| + |Digits(n)| + |BLANK|
  {
    var i, ds := FieldOf(h, n);
    BlankIsLast(h, i, ds);
  }

  lemma ContentIsPaid(data: seq<byte>, h: nat, n: Result<nat, Fault>)
    requires 0 < h <= |data| && Content(data, h, n).Success?
    ensures n.Success? && |data| == h + n.value + |Content(data, h, n).value.1| && |Content(data, h, n).value.0| == n.value
  {
  }

  lemma MessageIsPaid(data: seq<byte>)
    requires Parse(data).Success?
    ensures |data| >= Cost(Parse(data).value.0) + |Parse(data).value.1|
  {
    var h := HeaderEnd(data, 0).value;
    var n := ContentLength(data[..h]);
    ContentIsPaid(data, h, n);
    HeaderIsLong(data[..h], n.value);
  }

  /** No stream is shorter than the messages read from it cost. */
  lemma {:induction false} MessagesArePaid(data: seq<byte>)
    ensures |data| >= Costs(Messages(data))
    decreases |data|
  {
    var r := Parse(data);
    if r.Success? {
      MessageIsPaid(data);
      MessagesArePaid(r.value.1);
      assert Messages(data) == [r.value.0] + Messages(r.value.1);
    }
  }

  lemma FrameCosts(text: string)
    requires IsAscii(text)
    ensures |MakeMessage(text)| == Cost(Encode(text))
  {
    AsciiEncodesBytewise(text);
  }

  lemma {:induction false} FramesCost(frames: seq<seq<byte>>, texts: seq<string>)
    requires FramesOf(frames, texts)
    ensures |Concat(frames)| == Costs(EncodeAll(texts))
    decreases |frames|
  {
    if frames != [] {
      ConcatFromTheFront(frames);
      FrameCosts(texts[0]);
      FramesCost(frames[1..], texts[1..]);
      assert EncodeAll(texts)[0] == Encode(texts[0]) && EncodeAll(texts)[1..] == EncodeAll(texts[1..]);
    }
  }
}
