/**
 The request-body readers: the reader over the ASGI receive channel and the aws-chunked decoder
 on top of it.  Both are specified by the bytes they have still to deliver.
 */
module Streaming {
  import opened Common
  import opened ChunkedWire

  /** What the receive channel delivers: a body event, a disconnect, or an event of another type. */
  datatype Event = Request(body: Bytes, moreBody: bool) | Disconnect | OtherEvent

  /** The body bytes the events still carry. */
  function BodyOf(events: seq<Event>): Bytes {
    if events == [] then []
    else match events[0]
      case Request(body, moreBody) => body + if moreBody then BodyOf(events[1..]) else []
      case Disconnect => []
      case OtherEvent => BodyOf(events[1..])
  }

  class AsgiStreamReader {
    var events: seq<Event>
    var buffer: Bytes
    var moreBody: bool

    /** The bytes this reader has still to deliver. */
    ghost function Rest(): Bytes
      reads this
    {
      buffer + if moreBody then BodyOf(events) else []
    }

    constructor (events: seq<Event>)
      ensures Rest() == BodyOf(events)
    {
      this.events := events;
      buffer := [];
      moreBody := true;
    }

    /** Await one event; a channel with nothing left reports a disconnect. */
    method Receive() returns (event: Event)
      modifies this`events
      ensures if old(events) == [] then event == Disconnect && events == []
              else event == old(events)[0] && events == old(events)[1..]
    {
      if events == [] {
        event := Disconnect;
      } else {
        event, events := events[0], events[1..];
      }
    }

    /** Take in one event; what was to be delivered still is. */
    method Absorb()
      requires moreBody
      modifies this
      ensures Rest() == old(Rest()) && old(buffer) <= buffer
      ensures |events| <= |old(events)| && (!moreBody || |events| < |old(events)|)
    {
      ghost var before := Rest();
      var event := Receive();
      match event {
        case Request(body, more) =>
          Regroup(buffer, body, if more then BodyOf(events) else []);
          buffer := buffer + body;
          moreBody := more;
        case Disconnect =>
          moreBody := false;
        case OtherEvent =>
      }
    }

    /** Read `n` bytes, fewer only at the end of the body; -1 reads everything. */
    method Read(n: int) returns (chunk: Bytes)
      requires n >= -1
      modifies this
      ensures chunk == old(Rest())[..if n < 0 then |old(Rest())| else Min(n, |old(Rest())|)]
      ensures Rest() == old(Rest())[|chunk|..]
    {
      if n == -1 {
        while moreBody
          invariant Rest() == old(Rest())
          decreases |events|, moreBody
        {
          Absorb();
        }
        chunk, buffer := buffer, [];
        return;
      }
      while |buffer| < n && moreBody
        invariant Rest() == old(Rest())
        decreases |events|, moreBody
      {
        Absorb();
      }
      var k := Min(n, |buffer|);
      chunk := buffer[..k];
      buffer := buffer[k..];
    }
  }

  class AwsChunkedDecoder {
    const reader: AsgiStreamReader
    const chunkSize: nat
    var raw: Bytes
    var decoded: Bytes
    var eof: bool
    var remaining: nat
    var mode: Mode

    ghost predicate Valid()
      reads this
    {
      chunkSize > 0 && (mode.ReadData? ==> remaining > 0)
    }

    ghost function Cur(): (c: Cursor)
      requires Valid()
      reads this, reader
      ensures c.Valid()
    {
      Cursor(raw, reader.Rest(), mode, remaining, eof)
    }

    /** The payload bytes this decoder has still to deliver. */
    ghost function Pending(): Bytes
      requires Valid()
      reads this, reader
    {
      decoded + Output(Cur(), chunkSize)
    }

    constructor (reader: AsgiStreamReader, chunkSize: nat)
      requires chunkSize > 0
      ensures Valid() && this.reader == reader && this.chunkSize == chunkSize
      ensures Pending() == Output(Start(reader.Rest()), chunkSize)
    {
      this.reader := reader;
      this.chunkSize := chunkSize;
      raw, decoded, eof, remaining, mode := [], [], false, 0, ReadHeader;
    }

    method FillRawBuffer(n: nat) returns (ok: bool)
      requires Valid()
      modifies this`raw, reader
      ensures (raw, reader.Rest()) == Fill(old(raw), old(reader.Rest()), chunkSize, n)
      ensures ok <==> |raw| >= n
    {
      while |raw| < n
        invariant Fill(raw, reader.Rest(), chunkSize, n)
               == Fill(old(raw), old(reader.Rest()), chunkSize, n)
        decreases |reader.Rest()|
      {
        var chunk := reader.Read(chunkSize);
        if chunk == [] {
          return false;
        }
        raw := raw + chunk;
      }
      ok := true;
    }

    /** Take a header line that ends at `e` off the raw buffer. */
    method TakeHeader(e: nat) returns (ok: bool)
      requires Valid() && mode.ReadHeader? && e + 2 <= |raw|
      modifies this`raw, this`remaining, this`mode
      ensures Valid() && raw == old(raw)[e + 2..]
      ensures var length := ChunkLength(old(raw)[..e]);
              && ok == (length.Some? && length.value > 0)
              && remaining == (if length.Some? then length.value else old(remaining))
              && mode == (if ok then ReadData else ReadHeader)
    {
      var length := ChunkLength(raw[..e]);
      raw := raw[e + 2..];
      if length.None? {
        return false;
      }
      remaining := length.value;
      if remaining == 0 {
        return false;
      }
      mode := ReadData;
      ok := true;
    }

    method HandleReadHeader() returns (ok: bool)
      requires Valid() && !eof && mode.ReadHeader?
      modifies this`raw, this`remaining, this`mode, reader
      ensures Valid()
      ensures Cur().(eof := !ok) == HeaderStep(old(Cur()), chunkSize)
    {
      var filled := FillRawBuffer(1);
      if !filled {
        return false;
      }
      var e := FindCrlf(raw);
      if e == -1 {
        ok := FillRawBuffer(|raw| + LOOKAHEAD);
        return;
      }
      ok := TakeHeader(e);
    }

    method HandleReadData() returns (ok: bool)
      requires Valid() && !eof && mode.ReadData?
      modifies this`raw, this`decoded, this`remaining, this`mode, reader
      ensures Valid()
      ensures Cur().(eof := !ok) == DataStep(old(Cur()), chunkSize).0
      ensures decoded == old(decoded) + DataStep(old(Cur()), chunkSize).1
    {
      var filled := FillRawBuffer(1);
      if !filled {
        assert decoded + [] == decoded;
        return false;
      }
      var take := Min(|raw|, remaining);
      decoded := decoded + raw[..take];
      raw := raw[take..];
      remaining := remaining - take;
      if remaining == 0 {
        mode := ReadCrlf;
      }
      ok := true;
    }

    method HandleReadCrlf() returns (ok: bool)
      requires Valid() && !eof && mode.ReadCrlf?
      modifies this`raw, this`mode, reader
      ensures Valid()
      ensures Cur().(eof := !ok) == CrlfStep(old(Cur()), chunkSize)
    {
      var filled := FillRawBuffer(2);
      if !filled {
        return false;
      }
      raw := raw[2..];
      mode := ReadHeader;
      ok := true;
    }

    /** One turn of the read loop; the pending bytes stay what they were. */
    method RunTurn()
      requires Valid() && !eof
      modifies this, reader
      ensures Valid()
      ensures Pending() == old(Pending())
      ensures Cur() == Turn(old(Cur()), chunkSize).0
    {
      ghost var c, before := Cur(), decoded;
      var ok;
      match mode {
        case ReadHeader => ok := HandleReadHeader();
        case ReadData => ok := HandleReadData();
        case ReadCrlf => ok := HandleReadCrlf();
      }
      if !ok {
        eof := true;
      }
      OutputTurn(c, chunkSize, before, decoded);
    }

    /** Read `n` bytes of payload, fewer only at the end. */
    method ReadSome(n: nat) returns (chunk: Bytes)
      requires Valid()
      modifies this, reader
      ensures Valid()
      ensures chunk == old(Pending())[..Min(n, |old(Pending())|)]
      ensures Pending() == old(Pending())[|chunk|..]
    {
      while |decoded| < n && !eof
        invariant Valid()
        invariant Pending() == old(Pending())
        decreases if eof then 0 else 1, |Cur().Unread()|, |Cur().rest|
      {
        RunTurn();
      }
      var k := Min(n, |decoded|);
      chunk := decoded[..k];
      decoded := decoded[k..];
    }

    /** Read `n` bytes of payload, or all of it for -1. */
    method Read(n: int) returns (chunk: Bytes)
      requires Valid() && n >= -1
      modifies this, reader
      ensures Valid()
      ensures chunk == old(Pending())[..if n < 0 then |old(Pending())| else Min(n, |old(Pending())|)]
      ensures Pending() == old(Pending())[|chunk|..]
    {
      if n != -1 {
        chunk := ReadSome(n);
        return;
      }
      chunk := [];
      while !eof || decoded != []
        invariant Valid()
        invariant chunk + Pending() == old(Pending())
        decreases |Pending()|
      {
        ghost var pending := Pending();
        var piece := ReadSome(chunkSize);
        if piece == [] {
          break;
        }
        Regroup(chunk, piece, Pending());
        assert piece + Pending() == pending;
        chunk := chunk + piece;
      }
    }
  }

  // ---------------------------------------------------------------- split independence

  /** A body cut into messages, all but the last announcing more. */
  function Messages(pieces: seq<Bytes>): seq<Event> {
    if pieces == [] then []
    else [Request(pieces[0], |pieces| > 1)] + Messages(pieces[1..])
  }

  /** However a body is cut into messages, empty ones included, it is the same body. */
  lemma {:induction false} BodyOfMessages(pieces: seq<Bytes>)
    ensures BodyOf(Messages(pieces)) == Concat(pieces)
  {
    if pieces != [] {
      BodyOfMessages(pieces[1..]);
      assert Messages(pieces)[1..] == Messages(pieces[1..]);
    }
  }

  lemma {:induction false} TakeDrop(total: Bytes, before: Bytes, k: nat)
    requires k <= |before|
    ensures (total + before[..k]) + before[k..] == total + before
    ensures k == |before| ==> total + before[..k] == total + before && before[k..] == []
  {
  }

  /** Read once and append. */
  method ReadOn(decoder: AwsChunkedDecoder, n: int, total: Bytes) returns (more: Bytes)
    requires decoder.Valid() && n >= -1
    modifies decoder, decoder.reader
    ensures decoder.Valid()
    ensures more + decoder.Pending() == total + old(decoder.Pending())
    ensures n == -1 ==> more == total + old(decoder.Pending())
  {
    var chunk := decoder.Read(n);
    more := total + chunk;
    TakeDrop(total, old(decoder.Pending()), |chunk|);
  }

  /** Decode a body with reads of the given sizes and one last read of everything: the total is
      decided by the body's bytes and the chunk size alone. */
  method DecodeInReads(events: seq<Event>, chunkSize: nat, sizes: seq<int>) returns (total: Bytes)
    requires chunkSize > 0 && forall i :: 0 <= i < |sizes| ==> sizes[i] >= -1
    ensures total == Output(Start(BodyOf(events)), chunkSize)
  {
    var reader := new AsgiStreamReader(events);
    var decoder := new AwsChunkedDecoder(reader, chunkSize);
    ghost var whole := decoder.Pending();
    total := [];
    for i := 0 to |sizes|
      invariant decoder.Valid() && fresh(decoder) && fresh(decoder.reader)
      invariant total + decoder.Pending() == whole
    {
      total := ReadOn(decoder, sizes[i], total);
    }
    total := ReadOn(decoder, -1, total);
  }
}
