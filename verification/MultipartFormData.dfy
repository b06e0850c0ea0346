/** `MultipartFormData` with its parts, flags and streams, and its two ways to encode. */
module Multipart {
  import opened Basics
  import opened ByteSearch
  import opened MultipartFormat

  datatype Error = BodyPartError | InputStreamReadFailed | OutputStreamFileAlreadyExists
    | OutputStreamURLInvalid | OutputStreamCreationFailed | OutputStreamWriteFailed

  datatype Result<+T> = Ok(value: T) | Err(error: Error)

  const STREAM_BUFFER_SIZE: nat := 1024

  /** A stream that hands out its bytes in pieces of any size; a broken one fails behind them. */
  class InputStream {
    const broken: bool
    var remaining: Bytes
    var streamError: bool

    constructor (data: Bytes, broken: bool)
      ensures remaining == data && this.broken == broken && !streamError
    {
      this.broken := broken;
      remaining := data;
      streamError := false;
    }

    predicate HasBytesAvailable()
      reads this
    {
      remaining != [] || broken
    }

    method Read(maxLength: nat) returns (chunk: Bytes)
      requires maxLength > 0
      modifies this
      ensures old(remaining) == chunk + remaining && |chunk| <= maxLength
      ensures old(remaining) != [] ==> chunk != [] && streamError == old(streamError)
      ensures old(remaining) == [] ==> streamError == (old(streamError) || broken)
    {
      if remaining == [] {
        chunk := [];
        streamError := streamError || broken;
      } else {
        var available := Min(maxLength, |remaining|);
        var n: int :| 1 <= n <= available;
        chunk := remaining[..n];
        remaining := remaining[n..];
      }
    }
  }

  /** A stream that takes at least one byte a write, or fails, and may run out of space. */
  class OutputStream {
    const capacity: Option<nat>
    var written: Bytes
    var streamError: bool

    constructor (capacity: Option<nat>)
      ensures written == [] && this.capacity == capacity && !streamError
    {
      this.capacity := capacity;
      written := [];
      streamError := false;
    }

    predicate HasSpaceAvailable()
      reads this
    {
      capacity.None? || |written| < capacity.value
    }

    method Write(buffer: Bytes, maxLength: nat) returns (n: nat)
      requires 0 < maxLength <= |buffer| && HasSpaceAvailable() && !streamError
      modifies this
      ensures streamError ==> written == old(written)
      ensures !streamError ==> 1 <= n <= maxLength && written == old(written) + buffer[..n]
      ensures old(Within(this)) ==> Within(this)
    {
      if * {
        streamError := true;
        return 0;
      }
      var space := if capacity.None? then maxLength else Min(maxLength, capacity.value - |written|);
      n :| 1 <= n <= space;
      written := written + buffer[..n];
    }
  }

  predicate Within(out: OutputStream)
    reads out
  {
    out.capacity.None? || |out.written| <= out.capacity.value
  }

  /** What a stream of this capacity keeps of `data`. */
  function Fit(data: Bytes, capacity: Option<nat>): Bytes {
    if Fits(data, capacity) then data else data[..capacity.value]
  }

  predicate Fits(data: Bytes, capacity: Option<nat>) { capacity.None? || |data| <= capacity.value }

  lemma FitExtends(a: Bytes, b: Bytes, capacity: Option<nat>)
    ensures Fit(Fit(a, capacity) + b, capacity) == Fit(a + b, capacity)
  {
  }

  /** A write of `data` behind `base` ended as `ok` says: all of it that fits, or the front of that. */
  predicate Wrote(written: Bytes, base: Bytes, data: Bytes, capacity: Option<nat>, ok: bool) {
    if ok then written == Fit(base + data, capacity) else written <= Fit(base + data, capacity)
  }

  /** Two writes, one after the other, are one write of both. */
  lemma WroteBoth(base: Bytes, a: Bytes, b: Bytes, capacity: Option<nat>, written: Bytes, ok: bool)
    requires Wrote(written, Fit(base + a, capacity), b, capacity, ok)
    ensures Wrote(written, base, a + b, capacity, ok)
  {
    FitExtends(base + a, b, capacity);
    Join2(base, a, b);
  }

  /** A write that failed early also failed to write more. */
  lemma WroteLess(base: Bytes, a: Bytes, b: Bytes, capacity: Option<nat>, written: Bytes)
    requires Wrote(written, base, a, capacity, false)
    ensures Wrote(written, base, a + b, capacity, false)
  {
    Join2(base, a, b);
  }

  lemma WroteMuchLess(base: Bytes, a: Bytes, b: Bytes, c: Bytes, capacity: Option<nat>, written: Bytes)
    requires Wrote(written, base, a, capacity, false)
    ensures Wrote(written, base, a + b + c, capacity, false)
  {
    WroteLess(base, a, b, capacity, written);
    WroteLess(base, a + b, c, capacity, written);
  }

  class BodyPart {
    const headers: seq<Header>
    const bodyStream: InputStream
    var hasInitialBoundary: bool
    var hasFinalBoundary: bool

    constructor (headers: seq<Header>, bodyStream: InputStream)
      ensures this.headers == headers && this.bodyStream == bodyStream && !hasInitialBoundary && !hasFinalBoundary
    {
      this.headers, this.bodyStream := headers, bodyStream;
      hasInitialBoundary, hasFinalBoundary := false, false;
    }

    function Value(): Part
      reads this, bodyStream
    {
      Part(headers, bodyStream.remaining)
    }
  }

  class MultipartFormData {
    const boundary: Bytes
    var bodyParts: seq<BodyPart>
    var bodyPartError: Option<Error>

    /** The parts appended so far are different objects, not yet encoded; streams may be shared. */
    ghost predicate Fresh()
      reads this, bodyParts, Streams()
    {
      && (forall i, j | 0 <= i < j < |bodyParts| :: bodyParts[i] != bodyParts[j])
      && (forall p <- bodyParts :: !p.hasInitialBoundary && !p.hasFinalBoundary && !p.bodyStream.streamError)
    }

    ghost function Streams(): set<InputStream>
      reads this
    {
      set p | p in bodyParts :: p.bodyStream
    }

    /** An earlier part, but none before `from`, has the same stream as part `i`. */
    ghost predicate SharedSince(from: nat, i: nat)
      requires i < |bodyParts|
      reads this`bodyParts
    {
      exists j :: from <= j < i && bodyParts[j].bodyStream == bodyParts[i].bodyStream
    }

    /** The part as one pass over the parts reads it: nothing is left of a stream that was read before. */
    ghost function ReadPart(i: nat, from: nat): Part
      requires i < |bodyParts|
      reads this, bodyParts, Streams()
    {
      Part(bodyParts[i].headers, if SharedSince(from, i) then [] else bodyParts[i].bodyStream.remaining)
    }

    ghost function Parts(): seq<Part>
      reads this, bodyParts, Streams()
    {
      seq(|bodyParts|, i requires 0 <= i < |bodyParts| reads this, bodyParts, Streams() => ReadPart(i, 0))
    }

    ghost predicate AnyBroken()
      reads this
    {
      exists p :: p in bodyParts && p.bodyStream.broken
    }

    constructor (boundary: Bytes)
      ensures Fresh() && bodyParts == [] && Parts() == [] && this.boundary == boundary && bodyPartError == None
    {
      this.boundary := boundary;
      bodyParts, bodyPartError := [], None;
    }

    /** Appends one part; a stream that another part has already will have nothing left for this one. */
    method Append(stream: InputStream, headers: seq<Header>)
      requires Fresh() && !stream.streamError
      modifies this`bodyParts
      ensures Fresh() && Streams() == old(Streams()) + {stream} && bodyPartError == old(bodyPartError)
      ensures Parts() == old(Parts()) + [Part(headers, if stream in old(Streams()) then [] else stream.remaining)]
      ensures AnyBroken() == (old(AnyBroken()) || stream.broken)
      ensures forall p <- bodyParts :: p in old(bodyParts) || fresh(p)
    {
      var part := new BodyPart(headers, stream);
      bodyParts := bodyParts + [part];
      AppendedParts(part);
    }

    /** The parts before an appended one are read as before. */
    twostate lemma AppendedParts(new part: BodyPart)
      requires bodyParts == old(bodyParts) + [part]
      requires forall p <- old(bodyParts) :: unchanged(p) && unchanged(p.bodyStream)
      ensures Parts() == old(Parts()) + [Part(part.headers,
        if part.bodyStream in old(Streams()) then [] else part.bodyStream.remaining)]
    {
      var n := |old(bodyParts)|;
      assert forall i :: 0 <= i < n ==> bodyParts[i] == old(bodyParts)[i] && old(bodyParts)[i] in old(bodyParts);
      forall i | 0 <= i < n ensures ReadPart(i, 0) == old(ReadPart(i, 0)) {
        assert SharedSince(0, i) == old(SharedSince(0, i));
      }
      assert SharedSince(0, n) <==> part.bodyStream in old(Streams());
    }

    method AppendData(data: Bytes, headers: seq<Header>)
      requires Fresh()
      modifies this`bodyParts
      ensures Fresh() && Parts() == old(Parts()) + [Part(headers, data)] && AnyBroken() == old(AnyBroken())
      ensures bodyPartError == old(bodyPartError) && forall x <- Streams() :: x in old(Streams()) || fresh(x)
      ensures forall p <- bodyParts :: p in old(bodyParts) || fresh(p)
    {
      var stream := new InputStream(data, false);
      Append(stream, headers);
    }

    /** Only the first error is kept. */
    method SetBodyPartError(error: Error)
      modifies this`bodyPartError
      ensures bodyPartError == if old(bodyPartError).None? then Some(error) else old(bodyPartError)
    {
      if bodyPartError.None? { bodyPartError := Some(error); }
    }

    method EncodeBodyStream(stream: InputStream) returns (r: Result<Bytes>)
      requires !stream.streamError
      modifies stream
      ensures if stream.broken then r == Err(InputStreamReadFailed)
              else r == Ok(old(stream.remaining)) && !stream.streamError && stream.remaining == []
    {
      var encoded: Bytes := [];
      while stream.HasBytesAvailable()
        invariant encoded + stream.remaining == old(stream.remaining) && !stream.streamError
        decreases |stream.remaining|
      {
        var chunk := stream.Read(STREAM_BUFFER_SIZE);
        if stream.streamError {
          return Err(InputStreamReadFailed);
        }
        encoded := encoded + chunk;
      }
      assert encoded + [] == encoded;
      r := Ok(encoded);
    }

    method EncodePart(part: BodyPart) returns (r: Result<Bytes>)
      requires !part.bodyStream.streamError
      modifies part.bodyStream
      ensures if part.bodyStream.broken then r == Err(InputStreamReadFailed)
              else r == Ok(PartData(old(part.Value()), part.hasInitialBoundary, part.hasFinalBoundary, boundary))
      ensures !part.bodyStream.broken ==> part.bodyStream.remaining == [] && !part.bodyStream.streamError
    {
      var encoded := BoundaryData(if part.hasInitialBoundary then Initial else Encapsulated, boundary);
      var headerData := EncodeHeaders(part.headers);
      var start := encoded;
      encoded := encoded + headerData;
      ghost var body := part.bodyStream.remaining;
      var body' := EncodeBodyStream(part.bodyStream);
      if body'.Err? { return body'; }
      encoded := encoded + body'.value;
      Join2(start, headerData, body);
      if part.hasFinalBoundary {
        encoded := encoded + BoundaryData(Final, boundary);
      } else {
        assert encoded + [] == encoded;
      }
      r := Ok(encoded);
    }

    method EncodeHeaders(headers: seq<Header>) returns (text: Bytes)
      ensures text == EncodedHeaders(headers)
    {
      text := [];
      for i := 0 to |headers|
        invariant text == HeaderLines(headers[..i])
      {
        assert headers[..i + 1][..i] == headers[..i];
        text := text + HeaderLine(headers[i]) + CRLF;
      }
      assert headers[..|headers|] == headers;
      text := text + CRLF;
    }

    /** Sets the first part's initial flag and the last part's final flag. */
    method MarkBoundaries()
      requires Fresh()
      modifies bodyParts
      ensures forall i | 0 <= i < |bodyParts| ::
        bodyParts[i].hasInitialBoundary == (i == 0) && bodyParts[i].hasFinalBoundary == (i == |bodyParts| - 1)
    {
      if bodyParts != [] {
        bodyParts[0].hasInitialBoundary := true;
        bodyParts[|bodyParts| - 1].hasFinalBoundary := true;
      }
    }

    /** The parts carry the flags that one encoding gives them; those before `from` have been read
        without an error and the others not at all. */
    ghost predicate Marked(parts: seq<Part>, from: nat)
      reads this, bodyParts, Streams()
    {
      && |parts| == |bodyParts|
      && (forall i | 0 <= i < |bodyParts| ::
            bodyParts[i].hasInitialBoundary == (i == 0) && bodyParts[i].hasFinalBoundary == (i == |bodyParts| - 1))
      && (forall i | 0 <= i < |bodyParts| && i < from :: !bodyParts[i].bodyStream.broken)
      && (forall i | from <= i < |bodyParts| :: ReadPart(i, from) == parts[i] && !bodyParts[i].bodyStream.streamError)
    }

    ghost function Remaining(): seq<Bytes>
      reads this, bodyParts, Streams()
    {
      seq(|bodyParts|, i requires 0 <= i < |bodyParts| reads this, bodyParts, Streams() =>
        assert bodyParts[i] in bodyParts; bodyParts[i].bodyStream.remaining)
    }

    /** When part `n` has been read to its end, the later parts are as the pass will find them.
        `before` is what was left of each stream when it was not. */
    lemma ReadNext(parts: seq<Part>, n: nat, before: seq<Bytes>)
      requires n < |bodyParts| == |parts| == |before|
      requires forall i | n <= i < |parts| ::
        parts[i] == Part(bodyParts[i].headers, if SharedSince(n, i) then [] else before[i])
      requires bodyParts[n].bodyStream.remaining == []
      requires forall i | n <= i < |parts| :: bodyParts[i].bodyStream != bodyParts[n].bodyStream ==>
        bodyParts[i].bodyStream.remaining == before[i]
      ensures forall i | n < i < |parts| :: ReadPart(i, n + 1) == parts[i]
    {
      forall i | n < i < |parts| ensures ReadPart(i, n + 1) == parts[i] {
        if bodyParts[i].bodyStream != bodyParts[n].bodyStream {
          assert SharedSince(n, i) <==> SharedSince(n + 1, i);
        } else {
          assert SharedSince(n, i);
        }
      }
    }

    lemma MarkedNext(parts: seq<Part>, n: nat)
      requires n < |bodyParts| == |parts|
      requires forall i | 0 <= i < |bodyParts| ::
        bodyParts[i].hasInitialBoundary == (i == 0) && bodyParts[i].hasFinalBoundary == (i == |bodyParts| - 1)
      requires forall i | 0 <= i <= n :: !bodyParts[i].bodyStream.broken
      requires forall i | n < i < |bodyParts| :: ReadPart(i, n + 1) == parts[i] && !bodyParts[i].bodyStream.streamError
      ensures Marked(parts, n + 1)
    {
    }

    method EncodeNext(ghost parts: seq<Part>, i: nat, encoded: Bytes) returns (r: Result<Bytes>)
      requires i < |bodyParts| && Marked(parts, i) && encoded == EncodedTo(parts, boundary, i)
      modifies bodyParts[i].bodyStream
      ensures if bodyParts[i].bodyStream.broken then r == Err(InputStreamReadFailed)
              else r == Ok(EncodedTo(parts, boundary, i + 1)) && Marked(parts, i + 1)
    {
      ghost var before := Remaining();
      var part := bodyParts[i];
      assert ReadPart(i, i) == part.Value() == parts[i];
      var data := EncodePart(part);
      if data.Ok? {
        ReadNext(parts, i, before);
        MarkedNext(parts, i);
        r := Ok(encoded + data.value);
      } else {
        r := data;
      }
    }

    /** After `n` parts: their encoding, or the error of a part that is broken. */
    ghost predicate Collected(parts: seq<Part>, n: nat, r: Result<Bytes>)
      reads this, bodyParts, Streams()
    {
      && n <= |bodyParts| == |parts|
      && if r.Ok? then Marked(parts, n) && r.value == EncodedTo(parts, boundary, n)
         else r == Err(InputStreamReadFailed) && AnyBroken()
    }

    method CollectNext(ghost parts: seq<Part>, i: nat, encoded: Result<Bytes>) returns (r: Result<Bytes>)
      requires i < |bodyParts| && Collected(parts, i, encoded) && encoded.Ok?
      modifies bodyParts[i].bodyStream
      ensures Collected(parts, i + 1, r)
    {
      assert bodyParts[i] in bodyParts;
      r := EncodeNext(parts, i, encoded.value);
    }

    lemma AllCollected(parts: seq<Part>, n: nat, r: Result<Bytes>)
      requires Collected(parts, n, r) && (r.Ok? ==> n == |bodyParts|)
      ensures r == if AnyBroken() then Err(InputStreamReadFailed) else Ok(Encoded(parts, boundary))
    {
    }

    method EncodeParts(ghost parts: seq<Part>, ghost streams: set<InputStream>) returns (r: Result<Bytes>)
      requires Marked(parts, 0) && forall p <- bodyParts :: p.bodyStream in streams
      modifies streams
      ensures r == if AnyBroken() then Err(InputStreamReadFailed) else Ok(Encoded(parts, boundary))
    {
      r := Ok([]);
      var i := 0;
      var count := |bodyParts|;
      while i < count && r.Ok?
        invariant i <= count && Collected(parts, i, r)
      {
        assert bodyParts[i] in bodyParts;
        r := CollectNext(parts, i, r);
        i := i + 1;
      }
      AllCollected(parts, i, r);
    }

    method Encode() returns (r: Result<Bytes>)
      requires Fresh()
      modifies bodyParts, Streams()
      ensures r == if bodyPartError.Some? then Err(bodyPartError.value)
                   else if AnyBroken() then Err(InputStreamReadFailed)
                   else Ok(Encoded(old(Parts()), boundary))
    {
      if bodyPartError.Some? { return Err(bodyPartError.value); }
      ghost var parts := Parts();
      MarkBoundaries();
      r := EncodeParts(parts, Streams());
    }

    // ---- streaming ----

    /** The partial-write loop. Without space it ends silently, and the rest of the buffer is lost. */
    method WriteBuffer(data: Bytes, out: OutputStream) returns (r: Result<()>)
      requires !out.streamError && Within(out)
      modifies out
      ensures Within(out) && r.Ok? == !out.streamError && (out.capacity == Some(0) ==> r.Ok?)
      ensures Wrote(out.written, old(out.written), data, out.capacity, r.Ok?)
      ensures r.Err? ==> r.error == OutputStreamWriteFailed
    {
      var buffer := data;
      var bytesToWrite := |buffer|;
      while bytesToWrite > 0 && out.HasSpaceAvailable()
        invariant Within(out) && !out.streamError
        invariant 0 <= bytesToWrite <= |buffer|
        invariant if bytesToWrite > 0 then |buffer| == bytesToWrite && out.written + buffer == old(out.written) + data
                  else out.written == old(out.written) + data
        decreases bytesToWrite
      {
        var bytesWritten := out.Write(buffer, bytesToWrite);
        if out.streamError {
          return Err(OutputStreamWriteFailed);
        }
        bytesToWrite := bytesToWrite - bytesWritten;
        if bytesToWrite > 0 {
          buffer := buffer[bytesWritten..];
        } else {
          assert buffer[..bytesWritten] == buffer;
        }
      }
      r := Ok(());
    }

    method WriteBodyStream(stream: InputStream, out: OutputStream) returns (r: Result<()>)
      requires !stream.streamError && !out.streamError && Within(out)
      modifies stream, out
      ensures Within(out) && (r.Ok? ==> !out.streamError && !stream.broken)
      ensures out.capacity == Some(0) ==> !out.streamError
      ensures r.Ok? ==> stream.remaining == [] && !stream.streamError
      ensures Wrote(out.written, old(out.written), old(stream.remaining), out.capacity, r.Ok?)
      ensures r.Err? ==> r.error == if out.streamError then OutputStreamWriteFailed else InputStreamReadFailed
      ensures r.Err? && !out.streamError ==> stream.broken
    {
      ghost var done: Bytes := [];
      while stream.HasBytesAvailable()
        invariant Within(out) && !out.streamError && !stream.streamError
        invariant done + stream.remaining == old(stream.remaining)
        invariant Wrote(out.written, old(out.written), done, out.capacity, true)
        decreases |stream.remaining|
      {
        var buffer := stream.Read(STREAM_BUFFER_SIZE);
        if stream.streamError {
          WroteLess(old(out.written), done, stream.remaining, out.capacity, out.written);
          return Err(InputStreamReadFailed);
        }
        r := WriteBuffer(buffer, out);
        WroteBoth(old(out.written), done, buffer, out.capacity, out.written, r.Ok?);
        Join2(done, buffer, stream.remaining);
        done := done + buffer;
        if r.Err? {
          WroteLess(old(out.written), done, stream.remaining, out.capacity, out.written);
          return;
        }
      }
      assert done + [] == done;
      r := Ok(());
    }

    /** Initial boundary, headers and body. */
    method WriteFront(part: BodyPart, start: Bytes, headerData: Bytes, out: OutputStream) returns (r: Result<()>)
      requires !part.bodyStream.streamError && !out.streamError && Within(out)
      modifies part.bodyStream, out
      ensures Within(out) && (r.Ok? ==> !out.streamError && !part.bodyStream.broken)
      ensures out.capacity == Some(0) ==> !out.streamError
      ensures r.Ok? ==> part.bodyStream.remaining == [] && !part.bodyStream.streamError
      ensures Wrote(out.written, old(out.written), start + headerData + old(part.bodyStream.remaining),
                    out.capacity, r.Ok?)
      ensures r.Err? ==> r.error == if out.streamError then OutputStreamWriteFailed else InputStreamReadFailed
      ensures r.Err? && !out.streamError ==> part.bodyStream.broken
    {
      ghost var w, cap := out.written, out.capacity;
      ghost var body := part.bodyStream.remaining;
      r := WriteBuffer(start, out);
      if r.Err? {
        WroteMuchLess(w, start, headerData, body, cap, out.written);
        return;
      }
      r := WriteBuffer(headerData, out);
      WroteBoth(w, start, headerData, cap, out.written, r.Ok?);
      if r.Err? {
        WroteLess(w, start + headerData, body, cap, out.written);
        return;
      }
      r := WriteBodyStream(part.bodyStream, out);
      WroteBoth(w, start + headerData, body, cap, out.written, r.Ok?);
    }

    method WritePart(part: BodyPart, out: OutputStream) returns (r: Result<()>)
      requires !part.bodyStream.streamError && !out.streamError && Within(out)
      modifies part.bodyStream, out
      ensures Within(out) && (r.Ok? ==> !out.streamError && !part.bodyStream.broken)
      ensures out.capacity == Some(0) ==> !out.streamError
      ensures r.Ok? ==> part.bodyStream.remaining == [] && !part.bodyStream.streamError
      ensures Wrote(out.written, old(out.written),
                    PartData(old(part.Value()), part.hasInitialBoundary, part.hasFinalBoundary, boundary),
                      out.capacity, r.Ok?)
      ensures r.Err? ==> r.error == if out.streamError then OutputStreamWriteFailed else InputStreamReadFailed
      ensures r.Err? && !out.streamError ==> part.bodyStream.broken
    {
      ghost var w, cap := out.written, out.capacity;
      var start := BoundaryData(if part.hasInitialBoundary then Initial else Encapsulated, boundary);
      var headerData := EncodeHeaders(part.headers);
      ghost var front := start + headerData + part.bodyStream.remaining;
      var final := if part.hasFinalBoundary then BoundaryData(Final, boundary) else [];
      Join2(start, headerData, part.bodyStream.remaining);
      r := WriteFront(part, start, headerData, out);
      if r.Err? {
        WroteLess(w, front, final, cap, out.written);
        return;
      }
      if part.hasFinalBoundary {
        r := WriteBuffer(final, out);
        WroteBoth(w, front, final, cap, out.written, r.Ok?);
      } else {
        assert front + [] == front;
      }
    }

    /** `n` parts have been tried; `ok` says whether the last of them succeeded. */
    ghost predicate Progress(parts: seq<Part>, n: nat, out: OutputStream, r: Result<()>)
      requires n <= |parts|
      reads this, bodyParts, Streams(), out
    {
      && Within(out) && (out.capacity == Some(0) ==> !out.streamError)
      && Wrote(out.written, [], EncodedTo(parts, boundary, n), out.capacity, r.Ok?)
      && match r
         case Ok(_) => Marked(parts, n) && !out.streamError
         case Err(error) =>
           && (error == if out.streamError then OutputStreamWriteFailed else InputStreamReadFailed)
           && (!out.streamError ==> AnyBroken())
    }

    /** Writes one part; after a success the later parts are as the pass will find them. */
    method WriteMarked(ghost parts: seq<Part>, i: nat, out: OutputStream) returns (r: Result<()>)
      requires i < |bodyParts| == |parts| && Marked(parts, i) && !out.streamError && Within(out)
      modifies bodyParts[i].bodyStream, out
      ensures Within(out) && (out.capacity == Some(0) ==> !out.streamError)
      ensures Wrote(out.written, old(out.written), PartData(parts[i], i == 0, i == |parts| - 1, boundary),
                    out.capacity, r.Ok?)
      ensures r.Ok? ==> !out.streamError && Marked(parts, i + 1)
      ensures r.Err? ==> r.error == if out.streamError then OutputStreamWriteFailed else InputStreamReadFailed
      ensures r.Err? && !out.streamError ==> bodyParts[i].bodyStream.broken
    {
      ghost var before := Remaining();
      var part := bodyParts[i];
      assert ReadPart(i, i) == part.Value() == parts[i];
      assert part.hasInitialBoundary == (i == 0) && part.hasFinalBoundary == (i == |parts| - 1);
      r := WritePart(part, out);
      if r.Ok? {
        ReadNext(parts, i, before);
        MarkedNext(parts, i);
      }
    }

    method WriteNext(ghost parts: seq<Part>, i: nat, out: OutputStream, ghost last: Result<()>) returns (r: Result<()>)
      requires i < |bodyParts| == |parts| && last.Ok? && Progress(parts, i, out, last)
      modifies bodyParts[i].bodyStream, out
      ensures Progress(parts, i + 1, out, r)
    {
      assert bodyParts[i] in bodyParts;
      r := WriteMarked(parts, i, out);
      WroteBoth([], EncodedTo(parts, boundary, i), PartData(parts[i], i == 0, i == |parts| - 1, boundary),
                out.capacity, out.written, r.Ok?);
    }

    lemma NothingTried(parts: seq<Part>, out: OutputStream)
      requires Marked(parts, 0) && out.written == [] && !out.streamError
      ensures Progress(parts, 0, out, Ok(()))
    {
    }

    /** Writes part after part until one fails; `n` parts were tried. */
    method WriteParts(ghost parts: seq<Part>, ghost streams: set<InputStream>, out: OutputStream)
        returns (r: Result<()>, n: nat)
      requires Marked(parts, 0) && forall p <- bodyParts :: p.bodyStream in streams
      requires out.written == [] && !out.streamError
      modifies streams, out
      ensures n <= |parts| && Progress(parts, n, out, r) && (r.Ok? ==> n == |parts|)
    {
      NothingTried(parts, out);
      r, n := Ok(()), 0;
      var count := |bodyParts|;
      while n < count && r.Ok?
        invariant n <= count == |parts| && Progress(parts, n, out, r)
      {
        assert bodyParts[n] in bodyParts;
        r := WriteNext(parts, n, out, r);
        n := n + 1;
      }
    }

    /** Writes the file. Past the checks it succeeds exactly when no part and no write failed. Then the
        file holds what `Encode` would have returned, cut off where the stream ran out of space: all of
        it if and only if it fits. After an error it holds the front of that. */
    method WriteEncodedData(fileExists: bool, isFileURL: bool, stream: Option<OutputStream>) returns (r: Result<()>)
      requires Fresh() && (stream.Some? ==> stream.value.written == [] && !stream.value.streamError)
      modifies bodyParts, Streams(), if stream.Some? then {stream.value} else {}
      ensures bodyPartError.Some? ==> r == Err(bodyPartError.value)
      ensures bodyPartError.None? && fileExists ==> r == Err(OutputStreamFileAlreadyExists)
      ensures bodyPartError.None? && !fileExists && !isFileURL ==> r == Err(OutputStreamURLInvalid)
      ensures bodyPartError.None? && !fileExists && isFileURL && stream.None? ==> r == Err(OutputStreamCreationFailed)
      ensures bodyPartError.None? && !fileExists && isFileURL && stream.Some? ==>
        && Wrote(stream.value.written, [], Encoded(old(Parts()), boundary), stream.value.capacity, r.Ok?)
        && (r.Ok? <==> !AnyBroken() && !stream.value.streamError)
        && (r.Ok? ==> (stream.value.written == Encoded(old(Parts()), boundary)
                       <==> Fits(Encoded(old(Parts()), boundary), stream.value.capacity)))
        && (stream.value.capacity == Some(0) ==> !stream.value.streamError)
        && (r.Err? ==> r.error == if stream.value.streamError then OutputStreamWriteFailed else InputStreamReadFailed)
    {
      if bodyPartError.Some? { return Err(bodyPartError.value); }
      if fileExists { return Err(OutputStreamFileAlreadyExists); }
      if !isFileURL { return Err(OutputStreamURLInvalid); }
      if stream.None? { return Err(OutputStreamCreationFailed); }
      r := WriteAll(stream.value);
    }

    /** The writing itself. */
    method WriteAll(out: OutputStream) returns (r: Result<()>)
      requires Fresh() && out.written == [] && !out.streamError
      modifies bodyParts, Streams(), out
      ensures Wrote(out.written, [], Encoded(old(Parts()), boundary), out.capacity, r.Ok?)
      ensures r.Ok? <==> !AnyBroken() && !out.streamError
      ensures r.Ok? ==>
        (out.written == Encoded(old(Parts()), boundary) <==> Fits(Encoded(old(Parts()), boundary), out.capacity))
      ensures out.capacity == Some(0) ==> !out.streamError
      ensures r.Err? ==> r.error == if out.streamError then OutputStreamWriteFailed else InputStreamReadFailed
    {
      ghost var parts := Parts();
      MarkBoundaries();
      var n;
      r, n := WriteParts(parts, Streams(), out);
      if r.Err? {
        EncodedGrows(parts, boundary, n, out);
      } else {
        WholeOrCut(out, Encoded(parts, boundary));
      }
    }
  }

  /** The front of a prefix of the encoding is a front of the encoding. */
  lemma EncodedGrows(parts: seq<Part>, boundary: Bytes, n: nat, out: OutputStream)
    requires n <= |parts| && Wrote(out.written, [], EncodedTo(parts, boundary, n), out.capacity, false)
    ensures Wrote(out.written, [], Encoded(parts, boundary), out.capacity, false)
    decreases |parts| - n
  {
    if n < |parts| {
      WroteLess([], EncodedTo(parts, boundary, n), PartData(parts[n], n == 0, n == |parts| - 1, boundary),
        out.capacity, out.written);
      EncodedGrows(parts, boundary, n + 1, out);
    }
  }

  lemma WholeOrCut(out: OutputStream, data: Bytes)
    requires Wrote(out.written, [], data, out.capacity, true)
    ensures out.written == data <==> Fits(data, out.capacity)
  {
    assert [] + data == data;
  }

  /** A run that reports success and has dropped everything: the file has no space at all. */
  method WriteToFullFile(boundary: Bytes, data: Bytes, headers: seq<Header>) returns (r: Result<()>, written: Bytes)
    ensures r.Ok? && written == [] && Encoded([Part(headers, data)], boundary) != []
  {
    var form := new MultipartFormData(boundary);
    assert form.Streams() == {};
    form.AppendData(data, headers);
    assert form.Parts() == [Part(headers, data)];
    var file := new OutputStream(Some(0));
    assert forall i | 0 <= i < |form.bodyParts| :: form.bodyParts[i] in form.bodyParts && fresh(form.bodyParts[i]);
    assert forall x <- form.Streams() :: fresh(x);
    r := form.WriteEncodedData(false, true, Some(file));
    written := file.written;
    EncodedIsNotEmpty(Part(headers, data), boundary);
  }

  lemma EncodedIsNotEmpty(p: Part, boundary: Bytes)
    ensures |Encoded([p], boundary)| >= 4
  {
    assert EncodedTo([p], boundary, 1) == EncodedTo([p], boundary, 0) + PartData(p, true, true, boundary);
  }
}
