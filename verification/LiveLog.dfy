/** UTF-8 as defined in sections 3 and 4 of RFC 3629, and what decoding with errors
    ignored does to a cut text. */
module Utf8 {
  import opened Files

  type CodePoint = c: int | 0 <= c < 0x110000

  /** Lone surrogates have no encoding; the `replace` handler turns each into `?`. */
  function EncodeChar(c: CodePoint): (r: Bytes)
    ensures 1 <= |r| <= 4
  {
    if 0xD800 <= c < 0xE000 then [0x3F]
    else if c < 0x80 then [c]
    else if c < 0x800 then [0xC0 + c / 64, 0x80 + c % 64]
    else if c < 0x10000 then [0xE0 + c / 4096, 0x80 + c / 64 % 64, 0x80 + c % 64]
    else [0xF0 + c / 262144, 0x80 + c / 4096 % 64, 0x80 + c / 64 % 64, 0x80 + c % 64]
  }

  function EncodeText(text: seq<CodePoint>): Bytes {
    if text == [] then [] else EncodeChar(text[0]) + EncodeText(text[1..])
  }

  predicate Continuation(b: Byte) {
    0x80 <= b <= 0xBF
  }

  /** The length of the well-formed character at the front, zero if there is none. */
  function FirstChar(b: Bytes): (n: nat)
    ensures n <= |b|
  {
    if |b| >= 1 && b[0] <= 0x7F then 1
    else if |b| >= 2 && 0xC2 <= b[0] <= 0xDF && Continuation(b[1]) then 2
    else if && |b| >= 3 && 0xE0 <= b[0] <= 0xEF && Continuation(b[1]) && Continuation(b[2])
            && (b[0] == 0xE0 ==> b[1] >= 0xA0) && (b[0] == 0xED ==> b[1] <= 0x9F) then 3
    else if && |b| >= 4 && 0xF0 <= b[0] <= 0xF4 && Continuation(b[1]) && Continuation(b[2]) && Continuation(b[3])
            && (b[0] == 0xF0 ==> b[1] >= 0x90) && (b[0] == 0xF4 ==> b[1] <= 0x8F) then 4
    else 0
  }

  /** `decode("utf-8", "ignore")` followed by `encode`: bytes that belong to no
      well-formed character are dropped. */
  function KeepWellFormed(b: Bytes): Bytes
    decreases |b|
  {
    if b == [] then []
    else if FirstChar(b) == 0 then KeepWellFormed(b[1..])
    else b[..FirstChar(b)] + KeepWellFormed(b[FirstChar(b)..])
  }

  /** How many characters of the text fit into `limit` bytes. */
  function Fit(text: seq<CodePoint>, limit: nat): (m: nat)
    ensures m <= |text|
  {
    if text == [] || |EncodeChar(text[0])| > limit then 0
    else 1 + Fit(text[1..], limit - |EncodeChar(text[0])|)
  }

  lemma {:induction false} EncodeAppend(a: seq<CodePoint>, b: seq<CodePoint>)
    ensures EncodeText(a + b) == EncodeText(a) + EncodeText(b)
  {
    if a == [] {
      assert a + b == b;
    } else {
      EncodeAppend(a[1..], b);
      assert (a + b)[1..] == a[1..] + b;
    }
  }

  /** The fitting characters stay within the limit, and one more character would not. */
  lemma {:induction false} FitIsLongest(text: seq<CodePoint>, limit: nat)
    ensures |EncodeText(text[..Fit(text, limit)])| <= limit
    ensures forall m :: Fit(text, limit) < m <= |text| ==> |EncodeText(text[..m])| > limit
  {
    if text != [] {
      var n := |EncodeChar(text[0])|;
      if n <= limit {
        FitIsLongest(text[1..], limit - n);
        var f := Fit(text[1..], limit - n);
        assert text[..f + 1][1..] == text[1..][..f];
      }
      forall m | Fit(text, limit) < m <= |text| ensures |EncodeText(text[..m])| > limit {
        assert text[..m][0] == text[0] && text[..m][1..] == text[1..][..m - 1];
      }
    }
  }

  /** Text that comes after a text that does not fit has no effect. */
  lemma {:induction false} FitIsStable(text: seq<CodePoint>, more: seq<CodePoint>, limit: nat)
    requires |EncodeText(text)| > limit
    ensures Fit(text + more, limit) == Fit(text, limit)
    ensures (text + more)[..Fit(text, limit)] == text[..Fit(text, limit)]
  {
    var n := |EncodeChar(text[0])|;
    if n <= limit {
      FitIsStable(text[1..], more, limit - n);
      assert (text + more)[1..] == text[1..] + more;
    }
  }

  /** The number that the payload bits of an encoded character spell, by the table in section 3 of RFC 3629. */
  function Spelled(b: Bytes): int
    requires 1 <= |b| <= 4
  {
    if |b| == 1 then b[0] as int
    else if |b| == 2 then b[0] as int % 32 * 64 + b[1] as int % 64
    else if |b| == 3 then b[0] as int % 16 * 4096 + b[1] as int % 64 * 64 + b[2] as int % 64
    else b[0] as int % 8 * 262144 + b[1] as int % 64 * 4096 + b[2] as int % 64 * 64 + b[3] as int % 64
  }

  /** A scalar value is spelled by its encoding, in as few bytes as can hold it; the lead byte tells
      how many, and each other byte is a continuation. */
  lemma EncodingOfScalar(c: CodePoint)
    requires !(0xD800 <= c < 0xE000)
    ensures
      var b := EncodeChar(c);
      && Spelled(b) == c
      && |b| == (if c < 0x80 then 1 else if c < 0x800 then 2 else if c < 0x10000 then 3 else 4)
      && (|b| == 1 ==> b[0] < 0x80)
      && (|b| == 2 ==> 0xC0 <= b[0] < 0xE0)
      && (|b| == 3 ==> 0xE0 <= b[0] < 0xF0)
      && (|b| == 4 ==> 0xF0 <= b[0] < 0xF8)
      && forall i :: 1 <= i < |b| ==> 0x80 <= b[i] < 0xC0
  {
    if 0x800 <= c < 0x10000 {
      ThreeDigits(c);
      assert EncodeChar(c) == [0xE0 + c / 4096, 0x80 + c / 64 % 64, 0x80 + c % 64];
    } else if c >= 0x10000 {
      FourDigits(c);
      assert EncodeChar(c) == [0xF0 + c / 262144, 0x80 + c / 4096 % 64, 0x80 + c / 64 % 64, 0x80 + c % 64];
    }
  }

  lemma ThreeDigits(c: int)
    requires 0 <= c < 0x10000
    ensures (0xE0 + c / 4096) % 16 * 4096 + (0x80 + c / 64 % 64) % 64 * 64 + (0x80 + c % 64) % 64 == c
  {
    assert c / 64 / 64 == c / 4096;
  }

  lemma FourDigits(c: int)
    requires 0 <= c < 0x110000
    ensures (0xF0 + c / 262144) % 8 * 262144 + (0x80 + c / 4096 % 64) % 64 * 4096
          + (0x80 + c / 64 % 64) % 64 * 64 + (0x80 + c % 64) % 64 == c
  {
    assert c / 64 / 64 == c / 4096 && c / 4096 / 64 == c / 262144;
  }

  lemma EncodedIsWellFormed(c: CodePoint, rest: Bytes)
    ensures FirstChar(EncodeChar(c) + rest) == |EncodeChar(c)|
  {
  }

  lemma {:induction false} ContinuationsAreDropped(b: Bytes)
    requires forall i :: 0 <= i < |b| ==> Continuation(b[i])
    ensures KeepWellFormed(b) == []
  {
    if b != [] {
      ContinuationsAreDropped(b[1..]);
    }
  }

  /** A character cut short leaves nothing behind. */
  lemma CutCharIsDropped(c: CodePoint, k: nat)
    requires k < |EncodeChar(c)|
    ensures KeepWellFormed(EncodeChar(c)[..k]) == []
  {
    var b := EncodeChar(c)[..k];
    if k >= 1 {
      assert FirstChar(b) == 0;
      ContinuationsAreDropped(b[1..]);
    }
  }

  lemma KeepsFirst(c: CodePoint, rest: Bytes)
    ensures KeepWellFormed(EncodeChar(c) + rest) == EncodeChar(c) + KeepWellFormed(rest)
  {
    var e := EncodeChar(c);
    EncodedIsWellFormed(c, rest);
    assert (e + rest)[..|e|] == e && (e + rest)[|e|..] == rest;
  }

  /** Cutting an encoded text anywhere and dropping what is not well formed leaves its
      longest whole-character prefix within the cut. */
  lemma {:induction false} CutKeepsWholeCharacters(text: seq<CodePoint>, limit: nat)
    requires limit <= |EncodeText(text)|
    ensures KeepWellFormed(EncodeText(text)[..limit]) == EncodeText(text[..Fit(text, limit)])
  {
    if text != [] {
      var c := EncodeChar(text[0]);
      var rest := EncodeText(text[1..]);
      if |c| <= limit {
        var cut := rest[..limit - |c|];
        assert EncodeText(text)[..limit] == c + cut;
        KeepsFirst(text[0], cut);
        CutKeepsWholeCharacters(text[1..], limit - |c|);
        var f := Fit(text[1..], limit - |c|);
        assert text[..f + 1][1..] == text[1..][..f];
      } else {
        assert EncodeText(text)[..limit] == c[..limit];
        CutCharIsDropped(text[0], limit);
      }
    }
  }
}

/** The controller's live log (src/remrun/cli.py, `_LiveStdoutLog`): output is appended as
    it arrives; once it exceeds the cap, the file keeps a head on a character boundary and
    a marker. */
module LiveLog {
  import opened Wrappers
  import opened Files
  import opened Utf8
  import BoundedLog

  const MARKER: string := "\n...[remrun truncated live log output]...\n"
  const SHORT_MARKER: string := "...[remrun truncated]..."

  function MarkerFor(cap: nat): (r: Bytes)
    ensures |r| <= cap
  {
    if |MARKER| > cap then BoundedLog.Ascii(SHORT_MARKER)[..Min(cap, |SHORT_MARKER|)]
    else BoundedLog.Ascii(MARKER)
  }

  function HeadLimit(cap: nat): nat {
    if |MARKER| > cap then 0 else cap - |MARKER|
  }

  predicate Fits(text: seq<CodePoint>, cap: int) {
    cap <= 0 || |EncodeText(text)| <= cap
  }

  /** The file as a function of all the text appended so far. */
  function Rendered(text: seq<CodePoint>, cap: int): Bytes {
    if Fits(text, cap) then EncodeText(text)
    else EncodeText(text[..Fit(text, HeadLimit(cap))]) + MarkerFor(cap)
  }

  /** What the file shows: all of a text that fits or has no cap; of any other its longest whole-character
      start that leaves room for the marker, and the marker; under a cap too small for that, only as much
      as there is room for of the short marker. */
  ghost predicate Shows(file: Bytes, text: seq<CodePoint>, cap: int) {
    if cap <= 0 || |EncodeText(text)| <= cap then file == EncodeText(text)
    else if cap < |MARKER| then
      && |file| == (if cap < |SHORT_MARKER| then cap else |SHORT_MARKER|)
      && forall i :: 0 <= i < |file| ==> file[i] == SHORT_MARKER[i] as int % 256
    else
      exists k :: 0 <= k < |text| && StartThenMarker(file, text, k, cap)
  }

  ghost predicate StartThenMarker(file: Bytes, text: seq<CodePoint>, k: nat, cap: nat)
    requires k < |text|
  {
    var head := |EncodeText(text[..k])|;
    && head + |MARKER| <= cap < |EncodeText(text[..k + 1])| + |MARKER|
    && |file| == head + |MARKER| && file[..head] == EncodeText(text[..k])
    && forall i :: 0 <= i < |MARKER| ==> file[head + i] == MARKER[i] as int % 256
  }

  lemma {:induction false} NothingFitsInNothing(text: seq<CodePoint>)
    ensures Fit(text, 0) == 0
  {
  }

  lemma RenderedShows(text: seq<CodePoint>, cap: int)
    ensures Shows(Rendered(text, cap), text, cap)
  {
    if !Fits(text, cap) {
      var k := Fit(text, HeadLimit(cap));
      if cap < |MARKER| {
        NothingFitsInNothing(text);
      } else {
        FitIsLongest(text, HeadLimit(cap));
        assert text[..|text|] == text;
        assert |EncodeText(text[..k + 1])| > HeadLimit(cap);
        assert StartThenMarker(Rendered(text, cap), text, k, cap);
      }
    }
  }

  lemma RenderedWithinCap(text: seq<CodePoint>, cap: int)
    requires cap > 0
    ensures |Rendered(text, cap)| <= cap
  {
    FitIsLongest(text, HeadLimit(cap));
  }

  lemma OverflowIsFinal(text: seq<CodePoint>, more: seq<CodePoint>, cap: int)
    requires !Fits(text, cap)
    ensures !Fits(text + more, cap) && Rendered(text + more, cap) == Rendered(text, cap)
  {
    EncodeAppend(text, more);
    FitIsStable(text, more, HeadLimit(cap));
  }

  class LiveStdoutLog {
    const cap: int
    var handle: File?
    var written: nat
    var truncated: bool
    ghost var text: seq<CodePoint>

    ghost predicate Valid()
      reads this, handle
    {
      handle != null ==>
        && handle.Valid()
        && handle.data == Rendered(text, cap) && written == |handle.data|
        && truncated == !Fits(text, cap)
        && (!truncated ==> handle.pos == written)
    }

    constructor (maxBytes: int, opens: bool)
      ensures Valid() && cap == maxBytes && text == [] && (handle != null <==> opens)
      ensures handle != null ==> fresh(handle)
    {
      cap := maxBytes;
      written, truncated, text := 0, false, [];
      handle := null;
      new;
      if opens {
        handle := new File();
      }
    }

    /** Appends a chunk; afterwards the file is the rendering of all the text so far. */
    method Append(chunk: seq<CodePoint>)
      requires Valid()
      modifies this`written, this`truncated, this`text, handle
      ensures Valid() && text == old(text) + chunk
      ensures handle != null && cap > 0 ==> |handle.data| <= cap
    {
      ghost var all := text + chunk;
      if handle == null || truncated {
        if handle != null {
          OverflowIsFinal(text, chunk, cap);
          RenderedWithinCap(text, cap);
        }
        text := all;
        return;
      }
      var bytes := EncodeText(chunk);
      EncodeAppend(text, chunk);
      if cap <= 0 || written + |bytes| <= cap {
        handle.Write(bytes);
        written := written + |bytes|;
        text := all;
        return;
      }
      Overflow(bytes, all);
      RenderedWithinCap(text, cap);
    }

    /** The chunk that crosses the cap: keep a head on a character boundary, then mark. */
    method Overflow(bytes: Bytes, ghost all: seq<CodePoint>)
      requires handle != null && handle.Valid() && cap > 0 && !Fits(all, cap)
      requires handle.data + bytes == EncodeText(all)
      modifies this`written, this`truncated, this`text, handle
      ensures Valid() && text == all
    {
      var headLimit := HeadLimit(cap);
      handle.Seek(0);
      var head := handle.Read(headLimit);
      if |head| < headLimit {
        head := head + bytes[..headLimit - |head|];
      }
      assert head == (handle.data + bytes)[..headLimit];
      CutKeepsWholeCharacters(all, headLimit);
      Rewrite(KeepWellFormed(head), MarkerFor(cap));
      text := all;
    }

    method Rewrite(head: Bytes, marker: Bytes)
      requires handle != null && handle.Valid()
      modifies this`written, this`truncated, handle
      ensures handle.Valid() && handle.data == head + marker && written == |handle.data| && truncated
    {
      handle.Seek(0);
      handle.Write(head);
      handle.Write(marker);
      handle.Truncate();
      written := |head| + |marker|;
      truncated := true;
      assert handle.data == head + marker;
    }
  }

  /** A whole stream in arbitrary chunks. */
  method Tee(chunks: seq<seq<CodePoint>>, cap: int) returns (file: Bytes)
    ensures file == Rendered(Concat(chunks), cap)
    ensures Shows(file, Concat(chunks), cap)
    ensures cap > 0 ==> |file| <= cap
  {
    var log := new LiveStdoutLog(cap, true);
    for i := 0 to |chunks|
      invariant log.Valid() && fresh(log) && log.cap == cap && log.handle != null && fresh(log.handle)
      invariant log.text == Concat(chunks[..i])
    {
      log.Append(chunks[i]);
      assert chunks[..i + 1][..i] == chunks[..i];
    }
    assert chunks[..|chunks|] == chunks;
    file := log.handle.data;
    RenderedShows(Concat(chunks), cap);
    if cap > 0 {
      RenderedWithinCap(Concat(chunks), cap);
    }
  }

  function Concat(chunks: seq<seq<CodePoint>>): seq<CodePoint> {
    if chunks == [] then [] else Concat(chunks[..|chunks| - 1]) + chunks[|chunks| - 1]
  }
}
