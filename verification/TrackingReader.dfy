/**
 The reader that watches a USTAR stream go by and keeps what follows the last
 declared entry, bounded at one mebibyte.
 */
module TrackingReader {
  import opened Numbers
  import opened Options
  import opened Ustar
  import opened Extraction

  /** The part of the stream seen so far that lies behind the declared end. */
  function Suffix(stream: bytes, position: nat, end: nat): bytes
    requires position <= |stream|
  {
    if position > end then stream[end..position] else []
  }

  function Clip(s: bytes): bytes {
    s[..Min(|s|, TAIL_LIMIT)]
  }

  class UstarTrackingReader {
    const stream: bytes
    var position: nat
    var captureFrom: Option<nat>
    var trailing: bytes
    var overflowed: bool

    /**
     Whatever reads and end declarations happened: the captured bytes are the clipped
     suffix behind the last declared end, and overflow is flagged exactly when it was clipped.
     */
    ghost predicate Valid()
      reads this
    {
      && position <= |stream|
      && match captureFrom
         case None => trailing == [] && !overflowed
         case Some(end) =>
           && trailing == Clip(Suffix(stream, position, end))
           && (overflowed <==> |Suffix(stream, position, end)| > TAIL_LIMIT)
    }

    constructor (stream: bytes)
      ensures Valid() && this.stream == stream && position == 0 && captureFrom == None
    {
      this.stream, position, captureFrom, trailing, overflowed := stream, 0, None, [], false;
    }

    method SetLastEntryEnd(end: nat) returns (ok: bool)
      requires Valid()
      modifies this
      ensures Valid() && position == old(position)
      ensures ok <==> end >= position
      ensures captureFrom == if ok then Some(end) else old(captureFrom)
    {
      if end < position {
        return false;
      }
      captureFrom := Some(end);
      trailing := [];
      overflowed := false;
      return true;
    }

    method Read(max: nat) returns (chunk: bytes)
      requires Valid()
      modifies this
      ensures Valid() && captureFrom == old(captureFrom)
      ensures position == old(position) + |chunk| && |chunk| <= max
      ensures chunk == stream[old(position)..position]
    {
      var available := Min(max, |stream| - position);
      var count :| 0 <= count <= available;
      chunk := stream[position..position + count];
      var start := position;
      position := position + count;
      if captureFrom.Some? && position > captureFrom.value {
        var end := captureFrom.value;
        var offset := Min(if end < start then 0 else end - start, count);
        var room := if |trailing| < TAIL_LIMIT then TAIL_LIMIT - |trailing| else 0;
        var captured := chunk[offset..];
        Keep(captured, room, start, end);
      }
    }

    /** Keeps as much of the new bytes behind the end as there is room for. */
    method Keep(captured: bytes, room: nat, ghost start: nat, ghost end: nat)
      requires start <= position <= |stream| && end < position && captureFrom == Some(end)
      requires captured == stream[start..position][Min(if end < start then 0 else end - start, position - start)..]
      requires trailing == Clip(Suffix(stream, start, end)) && (overflowed <==> |Suffix(stream, start, end)| > TAIL_LIMIT)
      requires room == if |trailing| < TAIL_LIMIT then TAIL_LIMIT - |trailing| else 0
      modifies this`trailing, this`overflowed
      ensures Valid()
    {
      CaptureStep(stream, start, position, end, captured);
      trailing := trailing + captured[..Min(|captured|, room)];
      if |captured| > room {
        overflowed := true;
      }
    }

    method ValidateEndMarkers() returns (ok: bool)
      requires Valid()
      ensures position == |stream| ==>
        (ok <==> captureFrom.Some? && captureFrom.value <= |stream| && IsTail(stream[captureFrom.value..]))
    {
      ok := captureFrom.Some? && TrackerAccepts(trailing, overflowed);
      if captureFrom.Some? && position == |stream| {
        TailChecksAgree(Suffix(stream, position, captureFrom.value));
        if captureFrom.value <= |stream| {
          assert Suffix(stream, position, captureFrom.value) == stream[captureFrom.value..];
        }
      }
    }
  }

  /** Appending the new bytes behind the end to the clipped suffix gives the next clipped suffix. */
  lemma CaptureStep(stream: bytes, start: nat, position: nat, end: nat, captured: bytes)
    requires start <= position <= |stream| && end < position
    requires captured == stream[start..position][Min(if end < start then 0 else end - start, position - start)..]
    ensures var before := Suffix(stream, start, end);
      var room := if |Clip(before)| < TAIL_LIMIT then TAIL_LIMIT - |Clip(before)| else 0;
      && Suffix(stream, position, end) == before + captured
      && Clip(Suffix(stream, position, end)) == Clip(before) + captured[..Min(|captured|, room)]
      && (|before + captured| > TAIL_LIMIT <==> |before| > TAIL_LIMIT || |captured| > room)
  {
    var before := Suffix(stream, start, end);
    if end < start {
      assert captured == stream[start..position];
      assert stream[end..position] == stream[end..start] + stream[start..position];
    } else {
      assert captured == stream[end..position];
    }
  }

  predicate TrackerAccepts(trailing: bytes, overflowed: bool) {
    !overflowed && |trailing| >= END_MARKERS && |trailing| % 512 == 0 && AllZero(trailing)
  }

  /** The clipped check and the whole-suffix check accept the same suffixes. */
  lemma TailChecksAgree(suffix: bytes)
    ensures TrackerAccepts(Clip(suffix), |suffix| > TAIL_LIMIT) <==> IsTail(suffix)
  {
    if |suffix| <= TAIL_LIMIT {
      assert Clip(suffix) == suffix;
    }
  }

  function PaddedSize(size: nat): nat {
    (size + 511) / 512 * 512
  }

  /** Rounding up and adding explicit padding give the same block boundary. */
  lemma PaddedSizesAgree(size: nat)
    ensures PaddedSize(size) == size + Padding(size)
  {
    var q, r := size / 512, size % 512;
    assert size == 512 * q + r;
    assert (size + 511) / 512 == if r == 0 then q else q + 1;
  }
}
