/** The durable runner's bounded log (src/remrun/_durable_runner.py, `_BoundedWriter`): a
    stream is written through in chunks; once it exceeds the cap, the file keeps a head, a
    marker and a tail. `Rendered` is the same file as a function of the whole stream. */
module BoundedLog {
  import opened Wrappers
  import opened Files

  const TRUNCATION_MARKER: string := "\n...[remrun durable log truncated]...\n"

  const KEPT_TAIL := 256 * 1024

  function Ascii(text: string): (r: Bytes)
    ensures |r| == |text|
    ensures forall i :: 0 <= i < |r| ==> r[i] == text[i] as int % 256
  {
    seq(|text|, i requires 0 <= i < |text| => text[i] as int % 256)
  }

  function TailLimit(cap: nat): nat {
    Min(KEPT_TAIL, cap / 2)
  }

  function Marker(cap: nat): Bytes {
    Ascii(TRUNCATION_MARKER)[..Min(|TRUNCATION_MARKER|, cap - TailLimit(cap))]
  }

  function HeadLimit(cap: nat): nat {
    cap - TailLimit(cap) - |Marker(cap)|
  }

  function LastBytes(s: Bytes, n: nat): Bytes {
    s[|s| - Min(n, |s|)..]
  }

  /** What the closed file must hold for a stream: all of it if it fits, otherwise its
      first bytes, the marker and its last bytes. */
  function Rendered(stream: Bytes, cap: nat): (r: Bytes)
    ensures |r| == Min(|stream|, cap)
  {
    if |stream| <= cap then stream
    else stream[..HeadLimit(cap)] + Marker(cap) + LastBytes(stream, TailLimit(cap))
  }

  /** What the file shows, byte by byte: a stream that fits is the file; of a longer one the file has
      the last 256 KiB, or half the cap if that is less, before them as much of the marker as there is
      room for, and the start of the stream in front. */
  ghost predicate Shows(file: Bytes, stream: Bytes, cap: nat) {
    if |stream| <= cap then file == stream
    else
      var tail := if cap < 2 * 262144 then cap / 2 else 262144;
      var marker := if cap - tail < |TRUNCATION_MARKER| then cap - tail else |TRUNCATION_MARKER|;
      var head := cap - tail - marker;
      && |file| == cap
      && file[..head] == stream[..head]
      && file[head..cap - tail] == Ascii(TRUNCATION_MARKER)[..marker]
      && file[cap - tail..] == stream[|stream| - tail..]
  }

  lemma RenderedShows(stream: Bytes, cap: nat)
    ensures Shows(Rendered(stream, cap), stream, cap)
  {
    if |stream| > cap {
      var head, tail := HeadLimit(cap), TailLimit(cap);
      var rendered := Rendered(stream, cap);
      assert rendered[..head] == stream[..head];
      assert rendered[head..cap - tail] == Marker(cap);
      assert rendered[cap - tail..] == LastBytes(stream, tail);
    }
  }

  /** No other file shows the same. */
  lemma ShownOnce(file: Bytes, other: Bytes, stream: Bytes, cap: nat)
    requires Shows(file, stream, cap) && Shows(other, stream, cap)
    ensures file == other
  {
    if |stream| > cap {
      var tail := if cap < 2 * 262144 then cap / 2 else 262144;
      var marker := if cap - tail < |TRUNCATION_MARKER| then cap - tail else |TRUNCATION_MARKER|;
      InThree(file, cap - tail - marker, cap - tail);
      InThree(other, cap - tail - marker, cap - tail);
    }
  }

  lemma InThree(file: Bytes, i: nat, j: nat)
    requires i <= j <= |file|
    ensures file == file[..i] + file[i..j] + file[j..]
  {
  }

  lemma LastOfConcat(s: Bytes, t: Bytes, n: nat)
    ensures LastBytes(LastBytes(s, n) + t, n) == LastBytes(s + t, n)
  {
  }

  class BoundedWriter {
    const cap: nat
    const handle: File
    var written: nat
    var truncated: bool
    var tail: Bytes
    const tailLimit: nat
    const headLimit: nat
    const marker: Bytes
    ghost var stream: Bytes

    /** While the stream fits, the file is the stream. Afterwards the file is the head and
        `tail` holds the last bytes. */
    ghost predicate Valid()
      reads this, handle
    {
      && handle.Valid()
      && tailLimit == TailLimit(cap) && marker == Marker(cap) && headLimit == HeadLimit(cap)
      && truncated == (|stream| > cap)
      && (!truncated ==>
            handle.data == stream && handle.pos == |stream| == written && tail == [])
      && (truncated ==>
            handle.data == stream[..headLimit] && handle.pos == headLimit == written
            && tail == LastBytes(stream, tailLimit))
    }

    constructor (maxBytes: nat)
      ensures Valid() && fresh(handle) && cap == maxBytes && stream == []
    {
      var file := new File();
      cap := maxBytes;
      handle := file;
      written, truncated, tail := 0, false, [];
      tailLimit := Min(KEPT_TAIL, maxBytes / 2);
      marker := Marker(maxBytes);
      headLimit := HeadLimit(maxBytes);
      stream := [];
    }

    method RetainTail(bytes: Bytes)
      modifies this`tail
      ensures tailLimit > 0 ==> tail == LastBytes(old(tail) + bytes, tailLimit) || (bytes == [] && tail == old(tail))
      ensures tailLimit == 0 ==> tail == old(tail)
    {
      if bytes == [] || tailLimit == 0 {
        return;
      }
      tail := tail + bytes;
      if |tail| > tailLimit {
        tail := tail[|tail| - tailLimit..];
      }
    }

    /** The file has just been filled to the cap with `seen`; `overflow` comes after it. */
    method StartTruncation(overflow: Bytes, ghost seen: Bytes)
      requires handle.Valid() && !truncated && tail == []
      requires tailLimit == TailLimit(cap) && marker == Marker(cap) && headLimit == HeadLimit(cap)
      requires handle.data == seen && |seen| == cap == written && overflow != []
      modifies this, handle
      ensures Valid() && stream == seen + overflow
    {
      if tailLimit > 0 {
        var tailStart := written - tailLimit;
        handle.Seek(tailStart);
        var kept := handle.Read(written - tailStart);
        tail := tail + kept;
      }
      assert tail == LastBytes(seen, tailLimit);
      handle.Seek(headLimit);
      handle.Truncate();
      written := headLimit;
      truncated := true;
      RetainTail(overflow);
      stream := seen + overflow;
      LastOfConcat(seen, overflow, tailLimit);
      assert stream[..headLimit] == seen[..headLimit];
    }

    /** The chunk that crosses the cap: fill the file, then switch to head and tail. */
    method Overflow(bytes: Bytes)
      requires Valid() && !truncated && |bytes| > cap - written
      modifies this, handle
      ensures Valid() && stream == old(stream) + bytes
    {
      var remaining := cap - written;
      ghost var seen := stream + bytes[..remaining];
      if remaining > 0 {
        handle.Write(bytes[..remaining]);
        written := written + remaining;
      }
      assert handle.data == seen;
      assert stream + bytes == seen + bytes[remaining..];
      StartTruncation(bytes[remaining..], seen);
    }

    method Write(bytes: Bytes)
      requires Valid()
      modifies this, handle
      ensures Valid() && stream == old(stream) + bytes
    {
      if bytes == [] {
        assert stream == stream + bytes;
        return;
      }
      if truncated {
        LastOfConcat(stream, bytes, tailLimit);
        RetainTail(bytes);
        assert (stream + bytes)[..headLimit] == stream[..headLimit];
        stream := stream + bytes;
      } else if |bytes| <= cap - written {
        handle.Write(bytes);
        written := written + |bytes|;
        stream := stream + bytes;
      } else {
        Overflow(bytes);
      }
    }

    /** The closed file is the rendering of everything that was written. */
    method Close()
      requires Valid()
      modifies this, handle
      ensures handle.data == Rendered(stream, cap)
      ensures |handle.data| == written == Min(|stream|, cap)
      ensures truncated <==> |stream| > cap
      ensures stream == old(stream)
    {
      if truncated {
        handle.Seek(headLimit);
        handle.Write(marker);
        handle.Write(tail);
        handle.Truncate();
        written := handle.pos;
        assert handle.data == stream[..headLimit] + marker + tail;
      }
    }
  }

  function Flatten(chunks: seq<Bytes>): Bytes {
    if chunks == [] then [] else Flatten(chunks[..|chunks| - 1]) + chunks[|chunks| - 1]
  }

  /** The pump: however the stream is cut into reads, the file depends on the stream only. */
  method Pump(chunks: seq<Bytes>, cap: nat) returns (file: Bytes, truncated: bool)
    ensures file == Rendered(Flatten(chunks), cap)
    ensures Shows(file, Flatten(chunks), cap)
    ensures truncated <==> |Flatten(chunks)| > cap
  {
    var writer := new BoundedWriter(cap);
    for i := 0 to |chunks|
      invariant writer.Valid() && fresh(writer) && fresh(writer.handle) && writer.cap == cap
      invariant writer.stream == Flatten(chunks[..i])
    {
      writer.Write(chunks[i]);
      assert chunks[..i + 1][..i] == chunks[..i];
    }
    assert chunks[..|chunks|] == chunks;
    writer.Close();
    file, truncated := writer.handle.data, writer.truncated;
    RenderedShows(Flatten(chunks), cap);
  }
}
