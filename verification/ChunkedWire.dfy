/**
 The aws-chunked wire format and the incremental decoder's control, on values.

 `Decoded` is the one-shot meaning of a byte stream.  `Output` is what the incremental decoder
 emits when its raw buffer is filled `chunkSize` bytes at a time.  The format is that of
 "Transferring Payload in Multiple Chunks (Chunked Upload) (AWS Signature Version 4)" in the
 Amazon S3 API Reference.
 */
module ChunkedWire {
  import opened Common

  const CR: byte := 13
  const LF: byte := 10
  const SEMICOLON: byte := 59
  const LOOKAHEAD: nat := 128

  // ---------------------------------------------------------------- header lines

  /** Index of the first CRLF of `s`, or -1. */
  function FindCrlf(s: Bytes): (i: int)
    ensures -1 <= i && (i >= 0 ==> i + 1 < |s| && s[i] == CR && s[i + 1] == LF)
    ensures forall j :: 0 <= j < |s| - 1 && (i < 0 || j < i) ==> !(s[j] == CR && s[j + 1] == LF)
  {
    if |s| < 2 then -1
    else if s[0] == CR && s[1] == LF then 0
    else
      var i := FindCrlf(s[1..]);
      assert forall j :: 1 <= j < |s| - 1 ==> s[j] == s[1..][j - 1] && s[j + 1] == s[1..][j];
      if i < 0 then -1 else i + 1
  }

  function HexDigit(b: byte): Option<nat> {
    if 48 <= b <= 57 then Some(b - 48)
    else if 65 <= b <= 70 then Some(b - 55)
    else if 97 <= b <= 102 then Some(b - 87)
    else None
  }

  function ParseHex(s: Bytes): Option<nat> {
    if s == [] then None
    else
      var last := HexDigit(s[|s| - 1]);
      if last.None? then None
      else if |s| == 1 then last
      else
        var front := ParseHex(s[..|s| - 1]);
        if front.None? then None else Some(16 * front.value + last.value)
  }

  /** The part of a header line before its first semicolon. */
  function SizeField(header: Bytes): Bytes {
    if header == [] || header[0] == SEMICOLON then [] else [header[0]] + SizeField(header[1..])
  }

  /** The chunk size a header line announces, if it announces one. */
  function ChunkLength(header: Bytes): Option<nat> {
    ParseHex(SizeField(header))
  }

  // ---------------------------------------------------------------- one-shot meaning

  /** The payload carried by a complete byte stream. */
  function Decoded(s: Bytes): Bytes
    decreases |s|
  {
    var e := FindCrlf(s);
    if e < 0 then []
    else
      var length := ChunkLength(s[..e]);
      if length.None? || length.value == 0 then []
      else DecodedData(s[e + 2..], length.value)
  }

  /** The payload from the middle of a chunk that still owes `n` bytes. */
  function DecodedData(s: Bytes, n: nat): Bytes
    decreases |s|, 0
  {
    if |s| < n then s
    else if |s| < n + 2 then s[..n]
    else s[..n] + Decoded(s[n + 2..])
  }

  // ---------------------------------------------------------------- incremental decoder

  datatype Mode = ReadHeader | ReadData | ReadCrlf

  /** The decoder's raw buffer, the bytes the reader has still to deliver, and the control state. */
  datatype Cursor = Cursor(raw: Bytes, rest: Bytes, mode: Mode, remaining: nat, eof: bool) {
    predicate Valid() {
      mode.ReadData? ==> remaining > 0
    }

    function Unread(): Bytes {
      raw + rest
    }
  }

  function Start(stream: Bytes): Cursor {
    Cursor([], stream, ReadHeader, 0, false)
  }

  /** Pull `chunkSize` bytes at a time until `raw` holds `n` bytes or the reader is dry. */
  function Fill(raw: Bytes, rest: Bytes, chunkSize: nat, n: nat): (r: (Bytes, Bytes))
    requires chunkSize > 0
    ensures r.0 + r.1 == raw + rest
    ensures raw <= r.0
    ensures |r.0| >= n <==> |raw| + |rest| >= n
    ensures |r.0| < n ==> r.1 == []
    decreases |rest|
  {
    if |raw| >= n || rest == [] then (raw, rest)
    else
      var k := Min(chunkSize, |rest|);
      assert raw + rest == (raw + rest[..k]) + rest[k..];
      Fill(raw + rest[..k], rest[k..], chunkSize, n)
  }

  function HeaderStep(c: Cursor, chunkSize: nat): (d: Cursor)
    requires chunkSize > 0 && c.Valid() && c.mode.ReadHeader?
    ensures d.Valid()
  {
    var (raw, rest) := Fill(c.raw, c.rest, chunkSize, 1);
    if |raw| < 1 then c.(raw := raw, rest := rest, eof := true)
    else
      var e := FindCrlf(raw);
      if e < 0 then
        var (more, left) := Fill(raw, rest, chunkSize, |raw| + LOOKAHEAD);
        c.(raw := more, rest := left, eof := |more| < |raw| + LOOKAHEAD)
      else
        var length := ChunkLength(raw[..e]);
        if length.None? then c.(raw := raw[e + 2..], rest := rest, eof := true)
        else if length.value == 0 then
          c.(raw := raw[e + 2..], rest := rest, remaining := 0, eof := true)
        else
          c.(raw := raw[e + 2..], rest := rest, remaining := length.value, mode := ReadData)
  }

  function DataStep(c: Cursor, chunkSize: nat): (r: (Cursor, Bytes))
    requires chunkSize > 0 && c.Valid() && c.mode.ReadData?
    ensures r.0.Valid()
  {
    var (raw, rest) := Fill(c.raw, c.rest, chunkSize, 1);
    if |raw| < 1 then (c.(raw := raw, rest := rest, eof := true), [])
    else
      var take := Min(|raw|, c.remaining);
      (c.(raw := raw[take..], rest := rest, remaining := c.remaining - take,
          mode := if c.remaining == take then ReadCrlf else ReadData),
       raw[..take])
  }

  function CrlfStep(c: Cursor, chunkSize: nat): (d: Cursor)
    requires chunkSize > 0 && c.Valid() && c.mode.ReadCrlf?
    ensures d.Valid()
  {
    var (raw, rest) := Fill(c.raw, c.rest, chunkSize, 2);
    if |raw| < 2 then c.(raw := raw, rest := rest, eof := true)
    else c.(raw := raw[2..], rest := rest, mode := ReadHeader)
  }

  /** One turn of the decoder's loop: the next cursor and the bytes emitted. */
  function Turn(c: Cursor, chunkSize: nat): (r: (Cursor, Bytes))
    requires chunkSize > 0 && c.Valid() && !c.eof
    ensures r.0.Valid()
    ensures r.0.eof || |r.0.Unread()| < |c.Unread()|
            || (|r.0.Unread()| == |c.Unread()| && |r.0.rest| < |c.rest|)
  {
    match c.mode
    case ReadHeader => (HeaderStep(c, chunkSize), [])
    case ReadData => DataStep(c, chunkSize)
    case ReadCrlf => (CrlfStep(c, chunkSize), [])
  }

  /** Everything the decoder emits from `c` until it reports end of stream. */
  function Output(c: Cursor, chunkSize: nat): Bytes
    requires chunkSize > 0 && c.Valid()
    decreases if c.eof then 0 else 1, |c.Unread()|, |c.rest|, 1
  {
    if c.eof then [] else NextOutput(c, chunkSize)
  }

  /** The same, from the next turn on. */
  function NextOutput(c: Cursor, chunkSize: nat): Bytes
    requires chunkSize > 0 && c.Valid() && !c.eof
    decreases 1, |c.Unread()|, |c.rest|, 0
  {
    var (d, out) := Turn(c, chunkSize);
    out + Output(d, chunkSize)
  }

  /** A turn moves bytes from what is to come to what has been decoded. */
  lemma {:induction false} OutputTurn(c: Cursor, chunkSize: nat, before: Bytes, after: Bytes)
    requires chunkSize > 0 && c.Valid() && !c.eof
    requires after == before + Turn(c, chunkSize).1 || (after == before && !c.mode.ReadData?)
    ensures after + Output(Turn(c, chunkSize).0, chunkSize) == before + Output(c, chunkSize)
  {
    var (d, out) := Turn(c, chunkSize);
    assert NextOutput(c, chunkSize) == out + Output(d, chunkSize);
    Regroup(before, out, Output(d, chunkSize));
  }

  // ---------------------------------------------------------------- refinement

  /** What the unread bytes mean in the cursor's control state. */
  function Meaning(c: Cursor): Bytes {
    match c.mode
    case ReadHeader => Decoded(c.Unread())
    case ReadData => DecodedData(c.Unread(), c.remaining)
    case ReadCrlf => DecodedData(c.Unread(), 0)
  }

  /** The bytes start a chunk with data. */
  predicate BringsData(s: Bytes) {
    var e := FindCrlf(s);
    e >= 0 && e + 2 < |s| && ChunkLength(s[..e]).Some? && ChunkLength(s[..e]).value > 0
  }

  /** The decoder faces a header line that its raw buffer cuts, with fewer than 128 bytes of the
      stream behind the buffer. */
  predicate Stalls(c: Cursor, chunkSize: nat)
    requires chunkSize > 0
  {
    var (raw, rest) := Fill(c.raw, c.rest, chunkSize, 1);
    c.mode.ReadHeader? && |raw| >= 1 && FindCrlf(raw) < 0 && |rest| < 128
  }

  /** Some header line that brings data stalls the decoder. */
  predicate Cut(c: Cursor, chunkSize: nat)
    requires chunkSize > 0 && c.Valid()
    decreases if c.eof then 0 else 1, |c.Unread()|, |c.rest|
  {
    !c.eof &&
    if Stalls(c, chunkSize) then BringsData(c.Unread()) else Cut(Turn(c, chunkSize).0, chunkSize)
  }

  /** A CRLF in the buffer is the first CRLF of the stream. */
  lemma {:induction false} FindCrlfPrefix(raw: Bytes, rest: Bytes)
    requires FindCrlf(raw) >= 0
    ensures FindCrlf(raw + rest) == FindCrlf(raw)
  {
    var s, e := raw + rest, FindCrlf(raw);
    assert s[e] == CR && s[e + 1] == LF;
    assert forall j :: 0 <= j <= e ==> s[j] == raw[j];
  }

  lemma {:induction false} DecodedHeader(raw: Bytes, rest: Bytes)
    requires FindCrlf(raw) >= 0
    ensures var e := FindCrlf(raw);
            var length := ChunkLength(raw[..e]);
            Decoded(raw + rest) ==
            if length.None? || length.value == 0 then []
            else DecodedData(raw[e + 2..] + rest, length.value)
  {
    var e := FindCrlf(raw);
    FindCrlfPrefix(raw, rest);
    assert (raw + rest)[..e] == raw[..e];
    assert (raw + rest)[e + 2..] == raw[e + 2..] + rest;
  }

  lemma {:induction false} HeaderTurn(c: Cursor, chunkSize: nat)
    requires chunkSize > 0 && c.Valid() && !c.eof && c.mode.ReadHeader?
    requires !Stalls(c, chunkSize)
    ensures var d := HeaderStep(c, chunkSize);
            Meaning(c) == if d.eof then [] else Meaning(d)
  {
    var (raw, rest) := Fill(c.raw, c.rest, chunkSize, 1);
    if |raw| < 1 {
      assert c.Unread() == [];
    } else if FindCrlf(raw) >= 0 {
      DecodedHeader(raw, rest);
    }
  }

  lemma {:induction false} StallTurn(c: Cursor, chunkSize: nat)
    requires chunkSize > 0 && c.Valid() && !c.eof && Stalls(c, chunkSize)
    ensures HeaderStep(c, chunkSize).eof
    ensures |Meaning(c)| < 128
    ensures Meaning(c) == [] <==> !BringsData(c.Unread())
  {
    var (raw, rest) := Fill(c.raw, c.rest, chunkSize, 1);
    var s := c.Unread();
    assert s == raw + rest;
    var e := FindCrlf(s);
    if 0 <= e {
      assert forall j :: 0 <= j < |raw| ==> s[j] == raw[j];
      var length := ChunkLength(s[..e]);
      if length.Some? && length.value > 0 {
        DecodedDataLength(s[e + 2..], length.value);
      }
    }
  }

  /** Decoding never invents bytes, and loses none when data is there. */
  lemma {:induction false} DecodedLength(s: Bytes)
    ensures |Decoded(s)| <= |s|
    decreases |s|
  {
    var e := FindCrlf(s);
    if e >= 0 && ChunkLength(s[..e]).Some? && ChunkLength(s[..e]).value > 0 {
      DecodedDataLength(s[e + 2..], ChunkLength(s[..e]).value);
    }
  }

  lemma {:induction false} DecodedDataLength(s: Bytes, n: nat)
    ensures |DecodedData(s, n)| <= |s|
    ensures n > 0 && s != [] ==> DecodedData(s, n) != []
    decreases |s|, 0
  {
    if |s| >= n + 2 {
      DecodedLength(s[n + 2..]);
    }
  }

  lemma {:induction false} DropWithin(raw: Bytes, rest: Bytes, k: nat)
    requires k <= |raw|
    ensures raw[k..] + rest == (raw + rest)[k..] && raw[..k] == (raw + rest)[..k]
  {
  }

  lemma {:induction false} SplitTake(s: Bytes, front: Bytes, back: Bytes, n: nat)
    requires Splits(s, front, back) && |front| <= n <= |s|
    ensures s[..n] == front + back[..n - |front|]
    ensures |s| >= n + 2 ==> back[n - |front| + 2..] == s[n + 2..]
  {
  }

  lemma {:induction false} DecodedDataSplit(s: Bytes, front: Bytes, back: Bytes, n: nat)
    requires Splits(s, front, back) && |front| <= n
    ensures DecodedData(s, n) == front + DecodedData(back, n - |front|)
  {
    if |s| < n {
      assert s == front + back;
    } else {
      SplitTake(s, front, back, n);
      if |s| >= n + 2 {
        Regroup(front, back[..n - |front|], Decoded(s[n + 2..]));
      }
    }
  }

  /** `d` is `c` after taking the bytes `out` from the front of its chunk. */
  predicate Takes(c: Cursor, d: Cursor, out: Bytes) {
    && c.mode.ReadData?
    && Splits(c.Unread(), out, d.Unread())
    && |out| <= c.remaining
    && d.remaining == c.remaining - |out|
    && (if d.remaining == 0 then d.mode.ReadCrlf? else d.mode.ReadData?)
  }

  predicate Splits(s: Bytes, front: Bytes, back: Bytes) {
    |front| <= |s| && front == s[..|front|] && back == s[|front|..]
  }

  lemma {:induction false} DataStepTakes(c: Cursor, chunkSize: nat)
    requires chunkSize > 0 && c.Valid() && !c.eof && c.mode.ReadData?
    ensures var (d, out) := DataStep(c, chunkSize);
            if d.eof then out == [] && c.Unread() == [] else Takes(c, d, out)
  {
    var (raw, rest) := Fill(c.raw, c.rest, chunkSize, 1);
    if |raw| >= 1 {
      DropWithin(raw, rest, Min(|raw|, c.remaining));
    }
  }

  lemma {:induction false} TakesMeaning(c: Cursor, d: Cursor, out: Bytes)
    requires Takes(c, d, out)
    ensures Meaning(c) == out + Meaning(d)
  {
    DecodedDataSplit(c.Unread(), out, d.Unread(), c.remaining);
  }

  lemma {:induction false} DataTurn(c: Cursor, chunkSize: nat)
    requires chunkSize > 0 && c.Valid() && !c.eof && c.mode.ReadData?
    ensures var (d, out) := DataStep(c, chunkSize);
            Meaning(c) == if d.eof then out else out + Meaning(d)
  {
    var (d, out) := DataStep(c, chunkSize);
    DataStepTakes(c, chunkSize);
    if d.eof {
      assert DecodedData([], c.remaining) == [];
    } else {
      TakesMeaning(c, d, out);
    }
  }

  lemma {:induction false} CrlfTurn(c: Cursor, chunkSize: nat)
    requires chunkSize > 0 && c.Valid() && !c.eof && c.mode.ReadCrlf?
    ensures var d := CrlfStep(c, chunkSize);
            Meaning(c) == if d.eof then [] else Meaning(d)
  {
    var (raw, rest) := Fill(c.raw, c.rest, chunkSize, 2);
    var s := c.Unread();
    assert s == raw + rest;
    if |raw| >= 2 {
      assert raw[2..] + rest == s[2..];
      assert s[..0] + Decoded(s[0 + 2..]) == Decoded(s[2..]);
    } else {
      assert |s| < 2;
      assert DecodedData(s, 0) == [];
    }
  }

  /** The emitted bytes are a prefix of the meaning, fewer than 128 bytes short of it, and exactly
      the meaning if and only if no header line that brings data stalls the decoder. */
  lemma {:induction false} OutputMeaning(c: Cursor, chunkSize: nat)
    requires chunkSize > 0 && c.Valid() && !c.eof
    ensures Output(c, chunkSize) <= Meaning(c)
    ensures |Meaning(c)| - |Output(c, chunkSize)| < 128
    ensures Output(c, chunkSize) == Meaning(c) <==> !Cut(c, chunkSize)
    decreases |c.Unread()|, |c.rest|
  {
    var (d, out) := Turn(c, chunkSize);
    assert NextOutput(c, chunkSize) == out + Output(d, chunkSize);
    if Stalls(c, chunkSize) {
      StallTurn(c, chunkSize);
      assert Output(d, chunkSize) == [];
    } else {
      match c.mode {
        case ReadHeader => HeaderTurn(c, chunkSize);
        case ReadData => DataTurn(c, chunkSize);
        case ReadCrlf => CrlfTurn(c, chunkSize);
      }
      if !d.eof {
        OutputMeaning(d, chunkSize);
        PrefixShift(out, Output(d, chunkSize), Meaning(d));
      }
    }
  }

  lemma {:induction false} PrefixShift(a: Bytes, b: Bytes, c: Bytes)
    requires b <= c
    ensures a + b <= a + c
    ensures a + b == a + c <==> b == c
  {
    if a + b == a + c {
      assert b == (a + b)[|a|..];
      assert c == (a + c)[|a|..];
    }
  }

  /** Refinement of the one-shot meaning, for whole streams. */
  lemma {:induction false} DecoderRefines(stream: Bytes, chunkSize: nat)
    requires chunkSize > 0
    ensures var out := Output(Start(stream), chunkSize);
            && out <= Decoded(stream)
            && |Decoded(stream)| - |out| < 128
            && (out == Decoded(stream) <==> !Cut(Start(stream), chunkSize))
  {
    assert Start(stream).Unread() == stream;
    OutputMeaning(Start(stream), chunkSize);
  }

  // ---------------------------------------------------------------- when nothing is lost

  /** Every header line that brings data is followed by at least 127 bytes. */
  predicate LongTails(s: Bytes)
    decreases |s|
  {
    BringsData(s) ==>
      var e := FindCrlf(s);
      |s| - (e + 2) >= 127 && LongTailsData(s[e + 2..], ChunkLength(s[..e]).value)
  }

  predicate LongTailsData(s: Bytes, n: nat)
    decreases |s|, 0
  {
    |s| >= n + 2 ==> LongTails(s[n + 2..])
  }

  predicate LongTailsAt(c: Cursor) {
    match c.mode
    case ReadHeader => LongTails(c.Unread())
    case ReadData => LongTailsData(c.Unread(), c.remaining)
    case ReadCrlf => LongTailsData(c.Unread(), 0)
  }

  lemma {:induction false} StallIsShort(c: Cursor, chunkSize: nat)
    requires chunkSize > 0 && Stalls(c, chunkSize) && BringsData(c.Unread())
    ensures |c.Unread()| - (FindCrlf(c.Unread()) + 2) < 127
  {
    var (raw, rest) := Fill(c.raw, c.rest, chunkSize, 1);
    var s := c.Unread();
    assert s == raw + rest;
    assert forall j :: 0 <= j < |raw| ==> s[j] == raw[j];
  }

  /** The tail condition behind a header line that is in the buffer. */
  lemma {:induction false} TailsBehind(raw: Bytes, rest: Bytes, n: nat)
    requires FindCrlf(raw) >= 0 && LongTails(raw + rest)
    requires ChunkLength(raw[..FindCrlf(raw)]) == Some(n) && n > 0
    ensures LongTailsData(raw[FindCrlf(raw) + 2..] + rest, n)
  {
    var e := FindCrlf(raw);
    FindCrlfPrefix(raw, rest);
    assert (raw + rest)[..e] == raw[..e];
    assert (raw + rest)[e + 2..] == raw[e + 2..] + rest;
    if raw[e + 2..] + rest != [] {
      assert BringsData(raw + rest);
    }
  }

  lemma {:induction false} HeaderKeepsTails(c: Cursor, chunkSize: nat)
    requires chunkSize > 0 && c.Valid() && !c.eof && c.mode.ReadHeader?
    requires !Stalls(c, chunkSize) && LongTailsAt(c)
    requires !HeaderStep(c, chunkSize).eof
    ensures LongTailsAt(HeaderStep(c, chunkSize))
  {
    var (raw, rest) := Fill(c.raw, c.rest, chunkSize, 1);
    var e := FindCrlf(raw);
    assert c.Unread() == raw + rest;
    if e >= 0 {
      TailsBehind(raw, rest, ChunkLength(raw[..e]).value);
    }
  }

  lemma {:induction false} DataKeepsTails(c: Cursor, chunkSize: nat)
    requires chunkSize > 0 && c.Valid() && !c.eof && c.mode.ReadData?
    requires LongTailsAt(c)
    requires !DataStep(c, chunkSize).0.eof
    ensures LongTailsAt(DataStep(c, chunkSize).0)
  {
    var (d, out) := DataStep(c, chunkSize);
    DataStepTakes(c, chunkSize);
    LongTailsDataSplit(c.Unread(), out, d.Unread(), c.remaining);
  }

  lemma {:induction false} LongTailsDataSplit(s: Bytes, front: Bytes, back: Bytes, n: nat)
    requires Splits(s, front, back) && |front| <= n && LongTailsData(s, n)
    ensures LongTailsData(back, n - |front|)
  {
    if |s| >= n + 2 {
      SplitTake(s, front, back, n);
    }
  }

  lemma {:induction false} CrlfKeepsTails(c: Cursor, chunkSize: nat)
    requires chunkSize > 0 && c.Valid() && !c.eof && c.mode.ReadCrlf?
    requires LongTailsAt(c)
    requires !CrlfStep(c, chunkSize).eof
    ensures LongTailsAt(CrlfStep(c, chunkSize))
  {
    var s := c.Unread();
    var (raw, rest) := Fill(c.raw, c.rest, chunkSize, 2);
    assert s == raw + rest;
    assert raw[2..] + rest == s[2..];
    assert LongTails(s[0 + 2..]);
  }

  lemma {:induction false} LongTailsUncut(c: Cursor, chunkSize: nat)
    requires chunkSize > 0 && c.Valid() && !c.eof && LongTailsAt(c)
    ensures !Cut(c, chunkSize)
    decreases |c.Unread()|, |c.rest|
  {
    if Stalls(c, chunkSize) {
      if BringsData(c.Unread()) {
        StallIsShort(c, chunkSize);
      }
    } else {
      var d := Turn(c, chunkSize).0;
      if !d.eof {
        match c.mode {
          case ReadHeader => HeaderKeepsTails(c, chunkSize);
          case ReadData => DataKeepsTails(c, chunkSize);
          case ReadCrlf => CrlfKeepsTails(c, chunkSize);
        }
        LongTailsUncut(d, chunkSize);
      }
    }
  }

  /** Once the reader is dry nothing can be cut. */
  lemma {:induction false} DryUncut(c: Cursor, chunkSize: nat)
    requires chunkSize > 0 && c.Valid() && !c.eof
    requires c.rest == [] || (c.raw == [] && chunkSize >= |c.rest|)
    ensures !Cut(c, chunkSize)
    decreases |c.Unread()|, |c.rest|
  {
    var (raw, rest) := Fill(c.raw, c.rest, chunkSize, 1);
    assert rest == [];
    if Stalls(c, chunkSize) {
      assert c.Unread() == raw;
    } else {
      var d := Turn(c, chunkSize).0;
      if !d.eof {
        DryTurn(c, chunkSize);
        DryUncut(d, chunkSize);
      }
    }
  }

  lemma {:induction false} DryTurn(c: Cursor, chunkSize: nat)
    requires chunkSize > 0 && c.Valid() && !c.eof
    requires c.rest == [] || (c.raw == [] && chunkSize >= |c.rest|)
    ensures Turn(c, chunkSize).0.rest == []
  {
    var (raw, rest) := Fill(c.raw, c.rest, chunkSize, 1);
    var (raw2, rest2) := Fill(c.raw, c.rest, chunkSize, 2);
    assert rest == [] && rest2 == [];
  }

  // ---------------------------------------------------------------- round trip

  const NEWLINE: Bytes := ['\r' as int, '\n' as int]

  /** A hexadecimal digit as it is written; the case shows from ten on. */
  datatype Digit = Digit(value: Nibble, upper: bool)

  type Nibble = n: int | 0 <= n < 16

  /** The size of a chunk as it is written, and what may follow it on its line. */
  datatype Header = Header(digits: seq<Digit>, extension: Bytes)

  datatype Chunk = Chunk(header: Header, payload: Bytes)

  function DigitByte(d: Digit): byte {
    if d.value < 10 then '0' as int + d.value
    else (if d.upper then 'A' as int else 'a' as int) + d.value - 10
  }

  function Hex(digits: seq<Digit>): (text: Bytes)
    ensures |text| == |digits|
  {
    seq(|digits|, i requires 0 <= i < |digits| => DigitByte(digits[i]))
  }

  function Number(digits: seq<Digit>): nat {
    if digits == [] then 0 else 16 * Number(digits[..|digits| - 1]) + digits[|digits| - 1].value
  }

  function HeaderLine(header: Header): Bytes {
    Hex(header.digits) + header.extension + NEWLINE
  }

  function Encode(chunks: seq<Chunk>, last: Header): Bytes {
    if chunks == [] then HeaderLine(last) + NEWLINE
    else HeaderLine(chunks[0].header) + chunks[0].payload + NEWLINE + Encode(chunks[1..], last)
  }

  function Payload(chunks: seq<Chunk>): Bytes {
    if chunks == [] then [] else chunks[0].payload + Payload(chunks[1..])
  }

  /** Nothing, or `;` and any text without a CRLF, such as `;chunk-signature=...`. */
  predicate GoodExtension(x: Bytes) {
    (x == [] || x[0] == ';' as int) && FindCrlf(x) < 0
  }

  /** The header of a chunk of `n` bytes: any digits that say so, zeros in front included. */
  predicate GoodHeader(header: Header, n: nat) {
    header.digits != [] && Number(header.digits) == n && GoodExtension(header.extension)
  }

  predicate GoodChunks(chunks: seq<Chunk>) {
    forall i :: 0 <= i < |chunks| ==> chunks[i].payload != [] && GoodHeader(chunks[i].header, |chunks[i].payload|)
  }

  lemma {:induction false} HexDigits(digits: seq<Digit>)
    requires digits != []
    ensures ParseHex(Hex(digits)) == Some(Number(digits))
    ensures forall i :: 0 <= i < |digits| ==> HexDigit(Hex(digits)[i]).Some?
  {
    var n := |digits| - 1;
    var text := Hex(digits);
    assert text[..n] == Hex(digits[..n]);
    if n > 0 {
      HexDigits(digits[..n]);
      assert forall i :: 0 <= i < n ==> text[i] == Hex(digits[..n])[i];
    } else {
      assert digits[..0] == [];
    }
  }

  /** How a text that reads as a number is written. */
  lemma {:induction false} DigitsOf(text: Bytes) returns (digits: seq<Digit>)
    requires ParseHex(text).Some?
    ensures digits != [] && Hex(digits) == text
  {
    var n := |text| - 1;
    var last := Digit(HexDigit(text[n]).value, text[n] < 97);
    if n == 0 {
      digits := [last];
    } else {
      var front := DigitsOf(text[..n]);
      digits := front + [last];
      assert text == text[..n] + [text[n]];
    }
  }

  /** The size field is read exactly when it is written in hexadecimal digits, of either case. */
  lemma {:induction false} ParseHexIff(text: Bytes, n: nat)
    ensures ParseHex(text) == Some(n) <==> exists digits :: digits != [] && Hex(digits) == text && Number(digits) == n
  {
    if ParseHex(text).Some? {
      var digits := DigitsOf(text);
      HexDigits(digits);
    }
    forall digits | digits != [] && Hex(digits) == text ensures ParseHex(text) == Some(Number(digits)) {
      HexDigits(digits);
    }
  }

  /** A line whose size is written in no such way ends the stream. */
  lemma {:induction false} BadSizeEnds(s: Bytes)
    requires FindCrlf(s) >= 0
    requires forall digits :: digits != [] ==> SizeField(s[..FindCrlf(s)]) != Hex(digits)
    ensures Decoded(s) == []
  {
    var length := ChunkLength(s[..FindCrlf(s)]);
    if length.Some? {
      ParseHexIff(SizeField(s[..FindCrlf(s)]), length.value);
    }
  }

  /** A header for every size. */
  lemma {:induction false} Spelled(n: nat, upper: bool) returns (digits: seq<Digit>)
    ensures digits != [] && Number(digits) == n
    ensures forall i :: 0 <= i < |digits| ==> digits[i].upper == upper
  {
    if n < 16 {
      digits := [Digit(n, upper)];
    } else {
      var front := Spelled(n / 16, upper);
      digits := front + [Digit(n % 16, upper)];
    }
  }

  lemma {:induction false} SizeFieldOf(digits: Bytes, extension: Bytes)
    requires forall i :: 0 <= i < |digits| ==> digits[i] != ';' as int
    requires extension == [] || extension[0] == ';' as int
    ensures SizeField(digits + extension) == digits
  {
    if digits == [] {
      assert digits + extension == extension;
    } else {
      SizeFieldOf(digits[1..], extension);
      assert (digits + extension)[1..] == digits[1..] + extension;
    }
  }

  /** A CRLF-free text is found to end exactly where its terminator starts. */
  lemma {:induction false} FindCrlfAfter(text: Bytes, rest: Bytes)
    requires FindCrlf(text) < 0
    ensures FindCrlf(text + NEWLINE + rest) == |text|
  {
    var s, e := text + NEWLINE + rest, |text|;
    assert s[e] == CR && s[e + 1] == LF;
    assert forall j :: 0 <= j < e ==> s[j] == text[j];
  }

  lemma {:induction false} DigitsThenExtension(digits: Bytes, extension: Bytes)
    requires forall i :: 0 <= i < |digits| ==> HexDigit(digits[i]).Some?
    requires FindCrlf(extension) < 0
    ensures FindCrlf(digits + extension) < 0
  {
    var s := digits + extension;
    forall j | 0 <= j < |s| - 1 ensures !(s[j] == CR && s[j + 1] == LF) {
      var i := j - |digits|;
      assert s[j] == if i < 0 then digits[j] else extension[i];
      assert i >= 0 ==> s[j + 1] == extension[i + 1];
    }
  }

  lemma {:induction false} HeaderLineRead(header: Header, n: nat, rest: Bytes)
    requires GoodHeader(header, n)
    ensures var line := HeaderLine(header);
            var e := FindCrlf(line + rest);
            && e == |line| - 2
            && ChunkLength((line + rest)[..e]) == Some(n)
            && (line + rest)[e + 2..] == rest
  {
    var digits := Hex(header.digits);
    HexDigits(header.digits);
    var text := digits + header.extension;
    DigitsThenExtension(digits, header.extension);
    FindCrlfAfter(text, rest);
    SizeFieldOf(digits, header.extension);
    var s := text + NEWLINE + rest;
    assert s[..|text|] == text && s[|text| + 2..] == rest;
  }

  lemma {:induction false} DecodedLine(header: Header, n: nat, s: Bytes)
    requires GoodHeader(header, n)
    ensures Decoded(HeaderLine(header) + s) == if n == 0 then [] else DecodedData(s, n)
  {
    HeaderLineRead(header, n, s);
  }

  /** The two bytes behind the data are passed over, whatever they are. */
  lemma {:induction false} DecodedFramed(p: Bytes, two: Bytes, tail: Bytes)
    requires |two| == 2
    ensures DecodedData(p + (two + tail), |p|) == p + Decoded(tail)
  {
    var s := p + (two + tail);
    assert s[..|p|] == p && s[|p| + 2..] == tail;
  }

  /** A stream that breaks off within a chunk still gives the data that is there. */
  lemma {:induction false} DecodedBroken(header: Header, n: nat, s: Bytes)
    requires GoodHeader(header, n) && |s| < n + 2
    ensures Decoded(HeaderLine(header) + s) == if |s| < n then s else s[..n]
  {
    DecodedLine(header, n, s);
  }

  lemma {:induction false} EncodeUnfold(chunks: seq<Chunk>, last: Header)
    requires chunks != []
    ensures Encode(chunks, last) == HeaderLine(chunks[0].header)
                                    + (chunks[0].payload + (NEWLINE + Encode(chunks[1..], last)))
  {
    var line, p := HeaderLine(chunks[0].header), chunks[0].payload;
    var tail := Encode(chunks[1..], last);
    assert line + p + NEWLINE + tail == line + (p + (NEWLINE + tail));
  }

  /** The one-shot decoder inverts the encoder. */
  lemma {:induction false} DecodedEncode(chunks: seq<Chunk>, last: Header)
    requires GoodChunks(chunks) && GoodHeader(last, 0)
    ensures Decoded(Encode(chunks, last)) == Payload(chunks)
  {
    if chunks == [] {
      DecodedLine(last, 0, NEWLINE);
    } else {
      var p := chunks[0].payload;
      var tail := Encode(chunks[1..], last);
      DecodedEncode(chunks[1..], last);
      EncodeUnfold(chunks, last);
      DecodedLine(chunks[0].header, |p|, p + (NEWLINE + tail));
      DecodedFramed(p, NEWLINE, tail);
    }
  }

  /** At least 127 bytes follow the header line of every data chunk. */
  predicate Roomy(chunks: seq<Chunk>, last: Header) {
    chunks != [] ==>
      && |chunks[0].payload| + 2 + |Encode(chunks[1..], last)| >= 127
      && Roomy(chunks[1..], last)
  }

  lemma {:induction false} RoomyLongTails(chunks: seq<Chunk>, last: Header)
    requires GoodChunks(chunks) && GoodHeader(last, 0) && Roomy(chunks, last)
    ensures LongTails(Encode(chunks, last))
  {
    if chunks == [] {
      HeaderLineRead(last, 0, NEWLINE);
    } else {
      var p := chunks[0].payload;
      var tail := Encode(chunks[1..], last);
      var s := p + (NEWLINE + tail);
      RoomyLongTails(chunks[1..], last);
      EncodeUnfold(chunks, last);
      HeaderLineRead(chunks[0].header, |p|, s);
      assert s[|p| + 2..] == tail;
    }
  }

  /** Encoding and then decoding incrementally gives the payload back, for every chunk size when
      each data chunk's header has 127 bytes behind it, and whatever the chunks are when one pull
      takes the whole stream. */
  lemma {:induction false} RoundTrip(chunks: seq<Chunk>, last: Header, chunkSize: nat)
    requires chunkSize > 0 && GoodChunks(chunks) && GoodHeader(last, 0)
    requires Roomy(chunks, last) || chunkSize >= |Encode(chunks, last)|
    ensures Output(Start(Encode(chunks, last)), chunkSize) == Payload(chunks)
  {
    var stream := Encode(chunks, last);
    var c := Start(stream);
    assert c.Unread() == stream;
    DecodedEncode(chunks, last);
    DecoderRefines(stream, chunkSize);
    if chunkSize >= |stream| {
      DryUncut(c, chunkSize);
    } else {
      RoomyLongTails(chunks, last);
      LongTailsUncut(c, chunkSize);
    }
  }

  /** The side condition matters: one chunk with payload "A" does not survive a decoder that fills
      its raw buffer one byte at a time. */
  lemma {:induction false} CutExample()
    ensures var one, none := Header([Digit(1, false)], []), Header([Digit(0, false)], []);
            var stream := Encode([Chunk(one, [65])], none);
            Decoded(stream) == [65] && Output(Start(stream), 1) == []
  {
    var one, none := Header([Digit(1, false)], []), Header([Digit(0, false)], []);
    var chunks := [Chunk(one, [65])];
    var stream := Encode(chunks, none);
    DecodedEncode(chunks, none);
    assert Payload(chunks) == [65] + Payload(chunks[1..]);
    EncodeUnfold(chunks, none);
    assert stream[0] == 49 && |stream| == 11;
    FillOne(stream);
    StallTurn(Start(stream), 1);
    var (d, out) := Turn(Start(stream), 1);
    assert NextOutput(Start(stream), 1) == out + Output(d, 1);
  }

  lemma {:induction false} FillOne(stream: Bytes)
    requires |stream| >= 1
    ensures Fill([], stream, 1, 1) == ([stream[0]], stream[1..])
  {
    assert [] + stream[..1] == [stream[0]];
  }
}
