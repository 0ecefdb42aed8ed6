/**
 Streaming extraction of a canonical archive.  The decompressed stream arrives in
 reads of arbitrary length; a whole-stream function says what must come out, and a
 writer says which streams are canonical.
 */
module Extraction {
  import opened Ustar
  import opened UstarHeader
  import opened Inventory

  const CHUNK: nat := 65_536
  const TAIL_LIMIT: nat := 1024 * 1024
  const END_MARKERS: nat := 1024

  /** The lowercase hexadecimal SHA-256 of a byte string, as an unknown function. */
  type Digest = bytes -> bytes

  datatype Rejection =
    | TruncatedHeader | WrongHeader | TruncatedPayload | WrongChecksum
    | TruncatedPadding | NonzeroPadding | BadTail

  datatype Result<T> = Ok(value: T) | Err(error: Rejection)

  function Padding(size: nat): nat {
    (512 - size % 512) % 512
  }

  predicate AllZero(s: bytes) {
    forall i :: 0 <= i < |s| ==> s[i] == 0
  }

  /** At least two zero blocks, only zero blocks, and no more than one mebibyte of them. */
  predicate IsTail(s: bytes) {
    END_MARKERS <= |s| <= TAIL_LIMIT && |s| % 512 == 0 && AllZero(s)
  }

  predicate Extractable(a: Artifact) {
    |a.filename| <= 100 && a.size <= FILE_LIMIT
  }

  // ---------------------------------------------------- whole-stream meaning

  /** The payload of an entry and its padding, once the header was recognised. */
  function ExtractPayload(a: Artifact, s: bytes, digest: Digest): Result<(bytes, bytes)> {
    if |s| < a.size then Err(TruncatedPayload)
    else if digest(s[..a.size]) != a.sha256 then Err(WrongChecksum)
    else
      var rest := s[a.size..];
      if |rest| < Padding(a.size) then Err(TruncatedPadding)
      else if !AllZero(rest[..Padding(a.size)]) then Err(NonzeroPadding)
      else Ok((s[..a.size], rest[Padding(a.size)..]))
  }

  function ExtractOne(a: Artifact, stream: bytes, digest: Digest): Result<(bytes, bytes)>
    requires Extractable(a)
  {
    if |stream| < BLOCK then Err(TruncatedHeader)
    else if stream[..BLOCK] != Header(a.filename, a.size) then Err(WrongHeader)
    else ExtractPayload(a, stream[BLOCK..], digest)
  }

  function Extract(artifacts: seq<Artifact>, stream: bytes, digest: Digest): Result<seq<bytes>>
    requires forall i :: 0 <= i < |artifacts| ==> Extractable(artifacts[i])
  {
    if artifacts == [] then (if IsTail(stream) then Ok([]) else Err(BadTail))
    else
      match ExtractOne(artifacts[0], stream, digest)
      case Err(e) => Err(e)
      case Ok(one) =>
        match Extract(artifacts[1..], one.1, digest)
        case Err(e) => Err(e)
        case Ok(rest) => Ok([one.0] + rest)
  }

  // ---------------------------------------------------------------- writer

  function Entry(a: Artifact, payload: bytes): bytes
    requires Extractable(a)
  {
    Header(a.filename, a.size) + payload + Zeros(Padding(a.size))
  }

  function Written(artifacts: seq<Artifact>, payloads: seq<bytes>): bytes
    requires |artifacts| == |payloads|
    requires forall i :: 0 <= i < |artifacts| ==> Extractable(artifacts[i])
  {
    if artifacts == [] then []
    else Entry(artifacts[0], payloads[0]) + Written(artifacts[1..], payloads[1..])
  }

  /** The payloads are the declared ones: one per artifact, of its size and checksum. */
  ghost predicate Declared(artifacts: seq<Artifact>, payloads: seq<bytes>, digest: Digest) {
    && |payloads| == |artifacts|
    && forall i :: 0 <= i < |artifacts| ==>
         |payloads[i]| == artifacts[i].size && digest(payloads[i]) == artifacts[i].sha256
  }

  lemma ExtractEntry(a: Artifact, payload: bytes, rest: bytes, digest: Digest)
    requires Extractable(a) && |payload| == a.size && digest(payload) == a.sha256
    ensures ExtractOne(a, Entry(a, payload) + rest, digest) == Ok((payload, rest))
  {
    HeaderIsOneBlock(a.filename, a.size);
    var h, z := Header(a.filename, a.size), Zeros(Padding(a.size));
    Nest(h, payload, z, rest);
    TakeDrop(h, payload + (z + rest), BLOCK);
    TakeDrop(payload, z + rest, a.size);
    TakeDrop(z, rest, Padding(a.size));
  }

  lemma Nest(a: bytes, b: bytes, c: bytes, d: bytes)
    ensures a + b + c + d == a + (b + (c + d))
  {
  }

  lemma TakeDrop(front: bytes, back: bytes, n: nat)
    requires |front| == n
    ensures (front + back)[..n] == front && (front + back)[n..] == back
  {
  }

  lemma EntryExtracted(a: Artifact, stream: bytes, digest: Digest)
    requires Extractable(a) && ExtractOne(a, stream, digest).Ok?
    ensures var (payload, rest) := ExtractOne(a, stream, digest).value;
      stream == Entry(a, payload) + rest && |payload| == a.size && digest(payload) == a.sha256
  {
    var h, body := stream[..BLOCK], stream[BLOCK..];
    var payload, after := body[..a.size], body[a.size..];
    var z, rest := after[..Padding(a.size)], after[Padding(a.size)..];
    assert z == Zeros(Padding(a.size));
    Rejoin(stream, BLOCK);
    Rejoin(body, a.size);
    Rejoin(after, Padding(a.size));
    Nest(h, payload, z, rest);
  }

  lemma Rejoin(s: bytes, n: nat)
    requires n <= |s|
    ensures s == s[..n] + s[n..]
  {
  }

  /** Everything written is extracted: exactly the written payloads come out. */
  lemma {:induction false} ExtractWritten(artifacts: seq<Artifact>, payloads: seq<bytes>, tail: bytes, digest: Digest)
    requires forall i :: 0 <= i < |artifacts| ==> Extractable(artifacts[i])
    requires Declared(artifacts, payloads, digest) && IsTail(tail)
    ensures Extract(artifacts, Written(artifacts, payloads) + tail, digest) == Ok(payloads)
  {
    if artifacts == [] {
      assert Written(artifacts, payloads) + tail == tail;
    } else {
      var rest := Written(artifacts[1..], payloads[1..]) + tail;
      ExtractWritten(artifacts[1..], payloads[1..], tail, digest);
      assert Extract(artifacts[1..], rest, digest) == Ok(payloads[1..]);
      ExtractEntry(artifacts[0], payloads[0], rest, digest);
      WrittenStep(artifacts, payloads, tail);
      assert payloads == [payloads[0]] + payloads[1..];
    }
  }

  lemma WrittenStep(artifacts: seq<Artifact>, payloads: seq<bytes>, tail: bytes)
    requires |artifacts| == |payloads| && artifacts != []
    requires forall i :: 0 <= i < |artifacts| ==> Extractable(artifacts[i])
    ensures Written(artifacts, payloads) + tail
         == Entry(artifacts[0], payloads[0]) + (Written(artifacts[1..], payloads[1..]) + tail)
  {
  }

  /** Only written streams are accepted: the stream is the writing of what came out, plus a zero tail. */
  lemma {:induction false} OnlyWrittenExtracts(artifacts: seq<Artifact>, stream: bytes, digest: Digest)
    returns (tail: bytes)
    requires forall i :: 0 <= i < |artifacts| ==> Extractable(artifacts[i])
    requires Extract(artifacts, stream, digest).Ok?
    ensures var payloads := Extract(artifacts, stream, digest).value;
      && Declared(artifacts, payloads, digest) && IsTail(tail)
      && stream == Written(artifacts, payloads) + tail
  {
    if artifacts == [] {
      tail := stream;
    } else {
      EntryExtracted(artifacts[0], stream, digest);
      var (payload, rest) := ExtractOne(artifacts[0], stream, digest).value;
      tail := OnlyWrittenExtracts(artifacts[1..], rest, digest);
      var payloads := Extract(artifacts, stream, digest).value;
      assert payloads[1..] == Extract(artifacts[1..], rest, digest).value;
      assert stream == Entry(artifacts[0], payload) + (Written(artifacts[1..], payloads[1..]) + tail);
      DeclaredStep(artifacts, payloads, digest);
    }
  }

  lemma DeclaredStep(artifacts: seq<Artifact>, payloads: seq<bytes>, digest: Digest)
    requires artifacts != [] && payloads != []
    requires Declared(artifacts[1..], payloads[1..], digest)
    requires |payloads[0]| == artifacts[0].size && digest(payloads[0]) == artifacts[0].sha256
    ensures Declared(artifacts, payloads, digest)
  {
    forall i | 0 <= i < |artifacts|
      ensures |payloads[i]| == artifacts[i].size && digest(payloads[i]) == artifacts[i].sha256
    {
      if i > 0 {
        assert payloads[i] == payloads[1..][i - 1] && artifacts[i] == artifacts[1..][i - 1];
      }
    }
  }

  /** A manifest that passed the inventory scan can be extracted. */
  lemma InventoryExtractable(artifacts: seq<Artifact>)
    requires GoodInventory(artifacts)
    ensures forall i :: 0 <= i < |artifacts| ==> Extractable(artifacts[i]) && Plain(artifacts[i].filename)
  {
    forall i | 0 <= i < |artifacts| ensures Extractable(artifacts[i]) && Plain(artifacts[i].filename) {
      assert GoodEntry(artifacts[i], i);
    }
  }

  // ------------------------------------------------------ streaming reader

  lemma Regroup3(a: bytes, b: bytes, c: bytes)
    ensures a + (b + c) == a + b + c
  {
  }

  /** A reader that returns between one and the requested number of bytes, as it likes. */
  class ChunkReader {
    const stream: bytes
    var position: nat

    constructor (stream: bytes)
      ensures this.stream == stream && position == 0
    {
      this.stream, position := stream, 0;
    }

    predicate Valid()
      reads this
    {
      position <= |stream|
    }

    ghost function Rest(): bytes
      reads this
      requires Valid()
    {
      stream[position..]
    }

    method Read(max: nat) returns (chunk: bytes)
      requires Valid()
      modifies this
      ensures Valid() && |chunk| <= max
      ensures old(Rest()) == chunk + Rest()
      ensures chunk == [] <==> max == 0 || old(Rest()) == []
    {
      var available := if max < |stream| - position then max else |stream| - position;
      var count := 0;
      if available > 0 {
        count :| 1 <= count <= available;
      }
      chunk := stream[position..position + count];
      position := position + count;
    }

    method ReadExact(n: nat) returns (ok: bool, data: bytes)
      requires Valid()
      modifies this
      ensures Valid()
      ensures ok <==> |old(Rest())| >= n
      ensures ok ==> data == old(Rest())[..n] && Rest() == old(Rest())[n..]
    {
      data := [];
      while |data| < n
        invariant Valid() && |data| <= n
        invariant old(Rest()) == data + Rest()
        decreases n - |data|
      {
        var chunk := Read(n - |data|);
        if chunk == [] {
          return false, data;
        }
        Regroup3(data, chunk, Rest());
        data := data + chunk;
      }
      TakeDrop(data, Rest(), n);
      ok := true;
    }

    /** The bounded copy loop; a read of nothing means the archive is truncated. */
    method ReadPayload(size: nat) returns (ok: bool, data: bytes)
      requires Valid()
      modifies this
      ensures Valid()
      ensures ok <==> |old(Rest())| >= size
      ensures ok ==> data == old(Rest())[..size] && Rest() == old(Rest())[size..]
    {
      ghost var whole := Rest();
      var remaining := size;
      data := [];
      while remaining > 0
        invariant Valid() && remaining >= 0 && remaining == size - |data|
        invariant whole == data + Rest()
      {
        var want := if remaining < CHUNK then remaining else CHUNK;
        var chunk := Read(want);
        if chunk == [] {
          return false, data;
        }
        Regroup3(data, chunk, Rest());
        data := data + chunk;
        remaining := remaining - |chunk|;
      }
      TakeDrop(data, Rest(), size);
      ok := true;
    }

    /** Reads to the end, but at most one byte more than the tail limit. */
    method ReadTail() returns (tail: bytes)
      requires Valid()
      modifies this
      ensures Valid()
      ensures |old(Rest())| <= TAIL_LIMIT ==> tail == old(Rest())
      ensures |old(Rest())| > TAIL_LIMIT ==> |tail| == TAIL_LIMIT + 1
    {
      tail := [];
      var done := false;
      while !done
        invariant Valid() && |tail| <= TAIL_LIMIT + 1
        invariant old(Rest()) == tail + Rest()
        invariant done ==> |tail| == TAIL_LIMIT + 1 || Rest() == []
        decreases TAIL_LIMIT + 1 - |tail|, !done
      {
        var chunk := Read(TAIL_LIMIT + 1 - |tail|);
        if chunk == [] {
          done := true;
        }
        tail := tail + chunk;
      }
      assert Rest() == [] ==> tail + Rest() == tail;
    }
  }

  method ExtractPayloadFrom(reader: ChunkReader, a: Artifact, digest: Digest) returns (r: Result<bytes>)
    requires reader.Valid()
    modifies reader
    ensures reader.Valid()
    ensures match ExtractPayload(a, old(reader.Rest()), digest)
            case Err(e) => r == Err(e)
            case Ok(one) => r == Ok(one.0) && reader.Rest() == one.1
  {
    var gotPayload, payload := reader.ReadPayload(a.size);
    if !gotPayload {
      return Err(TruncatedPayload);
    }
    if digest(payload) != a.sha256 {
      return Err(WrongChecksum);
    }
    var gotPadding, padding := reader.ReadExact(Padding(a.size));
    if !gotPadding {
      return Err(TruncatedPadding);
    }
    if !AllZero(padding) {
      return Err(NonzeroPadding);
    }
    return Ok(payload);
  }

  method ExtractEntryFrom(reader: ChunkReader, a: Artifact, digest: Digest) returns (r: Result<bytes>)
    requires reader.Valid() && Extractable(a)
    modifies reader
    ensures reader.Valid()
    ensures match ExtractOne(a, old(reader.Rest()), digest)
            case Err(e) => r == Err(e)
            case Ok(one) => r == Ok(one.0) && reader.Rest() == one.1
  {
    var gotHeader, block := reader.ReadExact(BLOCK);
    if !gotHeader {
      return Err(TruncatedHeader);
    }
    var expected := WriteHeader(a.filename, a.size);
    if block != expected[..] {
      return Err(WrongHeader);
    }
    r := ExtractPayloadFrom(reader, a, digest);
  }

  function Prepend(done: seq<bytes>, rest: Result<seq<bytes>>): Result<seq<bytes>> {
    match rest
    case Ok(more) => Ok(done + more)
    case Err(e) => Err(e)
  }

  lemma LoopStep(artifacts: seq<Artifact>, stream: bytes, done: seq<bytes>, digest: Digest)
    requires artifacts != [] && forall i :: 0 <= i < |artifacts| ==> Extractable(artifacts[i])
    requires ExtractOne(artifacts[0], stream, digest).Ok?
    ensures var one := ExtractOne(artifacts[0], stream, digest).value;
      Prepend(done, Extract(artifacts, stream, digest)) == Prepend(done + [one.0], Extract(artifacts[1..], one.1, digest))
  {
    var one := ExtractOne(artifacts[0], stream, digest).value;
    match Extract(artifacts[1..], one.1, digest)
    case Err(_) =>
    case Ok(rest) => assert done + ([one.0] + rest) == done + [one.0] + rest;
  }

  /** What is left to do after `done` was extracted. */
  ghost function Remaining(artifacts: seq<Artifact>, i: nat, rest: bytes, done: seq<bytes>, digest: Digest): Result<seq<bytes>>
    requires i <= |artifacts| && forall k :: 0 <= k < |artifacts| ==> Extractable(artifacts[k])
  {
    Prepend(done, Extract(artifacts[i..], rest, digest))
  }

  lemma RemainingStart(artifacts: seq<Artifact>, stream: bytes, digest: Digest)
    requires forall k :: 0 <= k < |artifacts| ==> Extractable(artifacts[k])
    ensures Remaining(artifacts, 0, stream, [], digest) == Extract(artifacts, stream, digest)
  {
    assert artifacts[0..] == artifacts;
    var whole := Extract(artifacts, stream, digest);
    assert whole.Ok? ==> [] + whole.value == whole.value;
  }

  lemma RemainingStep(artifacts: seq<Artifact>, i: nat, stream: bytes, done: seq<bytes>, digest: Digest)
    requires i < |artifacts| && forall k :: 0 <= k < |artifacts| ==> Extractable(artifacts[k])
    ensures match ExtractOne(artifacts[i], stream, digest)
            case Err(e) => Remaining(artifacts, i, stream, done, digest) == Err(e)
            case Ok(one) => Remaining(artifacts, i, stream, done, digest)
                            == Remaining(artifacts, i + 1, one.1, done + [one.0], digest)
  {
    assert artifacts[i..][0] == artifacts[i] && artifacts[i..][1..] == artifacts[i + 1..];
    if ExtractOne(artifacts[i], stream, digest).Ok? {
      LoopStep(artifacts[i..], stream, done, digest);
    }
  }

  /** The extraction loop computes `Extract` of the stream, however its reads were split. */
  method InstallTransport(reader: ChunkReader, artifacts: seq<Artifact>, digest: Digest) returns (r: Result<seq<bytes>>)
    requires reader.Valid()
    requires forall i :: 0 <= i < |artifacts| ==> Extractable(artifacts[i])
    modifies reader
    ensures r == Extract(artifacts, old(reader.Rest()), digest)
  {
    ghost var whole := Extract(artifacts, reader.Rest(), digest);
    RemainingStart(artifacts, reader.Rest(), digest);
    var payloads := [];
    for i := 0 to |artifacts|
      invariant reader.Valid()
      invariant whole == Remaining(artifacts, i, reader.Rest(), payloads, digest)
    {
      RemainingStep(artifacts, i, reader.Rest(), payloads, digest);
      var one := ExtractEntryFrom(reader, artifacts[i], digest);
      if one.Err? {
        return Err(one.error);
      }
      payloads := payloads + [one.value];
    }
    assert artifacts[|artifacts|..] == [] && payloads + [] == payloads;
    var ok := CheckTail(reader);
    return if ok then Ok(payloads) else Err(BadTail);
  }

  method CheckTail(reader: ChunkReader) returns (ok: bool)
    requires reader.Valid()
    modifies reader
    ensures ok <==> IsTail(old(reader.Rest()))
  {
    var tail := reader.ReadTail();
    ok := END_MARKERS <= |tail| && |tail| <= TAIL_LIMIT && |tail| % 512 == 0 && AllZero(tail);
  }
}
