/** Reading blobs through one `git cat-file --batch` process
    (scripts/public_release_check.py, `_read_git_blobs`). */
module GitBatch {
  import opened Wrappers
  import opened Files

  const NEWLINE: Byte := 10
  const SPACE: Byte := 32
  const BLOB: Bytes := [98, 108, 111, 98]

  // ---------- header syntax ----------

  /** The ASCII characters at which Python's `str.split()` splits. */
  predicate IsSpace(b: Byte) {
    9 <= b <= 13 || 28 <= b <= 32
  }

  predicate IsDigit(b: Byte) {
    48 <= b <= 57
  }

  function TokenLength(s: Bytes): (n: nat)
    ensures n <= |s|
  {
    if s == [] || IsSpace(s[0]) then 0 else 1 + TokenLength(s[1..])
  }

  function Fields(s: Bytes): seq<Bytes>
    decreases |s|
  {
    if s == [] then []
    else if IsSpace(s[0]) then Fields(s[1..])
    else [s[..TokenLength(s)]] + Fields(s[TokenLength(s)..])
  }

  /** Decimal digits with single underscores between them, as `int()` accepts them. */
  function Unsigned(s: Bytes): Option<nat>
    decreases |s|
  {
    if s == [] || !IsDigit(s[|s| - 1]) then None
    else
      var digit := s[|s| - 1] - 48;
      var before := s[..|s| - 1];
      if before == [] then Some(digit)
      else
        var joined := if before[|before| - 1] == 95 then before[..|before| - 1] else before;
        match Unsigned(joined)
        case None => None
        case Some(v) => Some(10 * v + digit)
  }

  function ParseInt(s: Bytes): Option<int> {
    if s != [] && (s[0] == 43 || s[0] == 45) then
      match Unsigned(s[1..])
      case None => None
      case Some(v) => Some(if s[0] == 45 then 0 - (v as int) else v as int)
    else
      match Unsigned(s)
      case None => None
      case Some(v) => Some(v)
  }

  /** The position of the first newline, or the length if there is none. */
  function FirstNewline(s: Bytes): (n: nat)
    ensures n <= |s|
  {
    if s == [] || s[0] == NEWLINE then 0 else 1 + FirstNewline(s[1..])
  }

  // ---------- the batch format ----------

  datatype Record = Record(raw: Bytes, length: nat)

  /** The size announced by a header line for the requested object. */
  function HeaderSize(header: Bytes, id: Bytes): Option<int> {
    var fields := Fields(header);
    if |fields| != 3 || fields[0] != id || fields[1] != BLOB then None else ParseInt(fields[2])
  }

  function ParseRecord(s: Bytes, id: Bytes): (r: Option<Record>)
    ensures r.Some? ==> 0 < r.value.length <= |s|
  {
    var end := FirstNewline(s);
    if end == |s| then None
    else
      match HeaderSize(s[..end], id)
      case None => None
      case Some(size) =>
        var body := end + 1;
        if size < 0 || body + size >= |s| || s[body + size] != NEWLINE then None
        else Some(Record(s[body..body + size], body + size + 1))
  }

  /** The blobs of the requested objects in order; nothing may be missing or left over. */
  function Parse(s: Bytes, ids: seq<Bytes>): (r: Option<seq<Bytes>>)
    ensures r.Some? ==> |r.value| == |ids|
    decreases |ids|
  {
    if ids == [] then if s == [] then Some([]) else None
    else
      match ParseRecord(s, ids[0])
      case None => None
      case Some(record) =>
        match Parse(s[record.length..], ids[1..])
        case None => None
        case Some(rest) => Some([record.raw] + rest)
  }

  function Decimal(n: nat): (r: Bytes)
    ensures |r| > 0 && forall i :: 0 <= i < |r| ==> IsDigit(r[i])
  {
    if n < 10 then [48 + n] else Decimal(n / 10) + [48 + n % 10]
  }

  function Header(id: Bytes, size: nat): Bytes {
    id + ([SPACE] + (BLOB + ([SPACE] + Decimal(size))))
  }

  function PrintRecord(id: Bytes, raw: Bytes): Bytes {
    Header(id, |raw|) + [NEWLINE] + (raw + [NEWLINE])
  }

  function Print(ids: seq<Bytes>, blobs: seq<Bytes>): Bytes
    requires |ids| == |blobs|
  {
    if ids == [] then [] else PrintRecord(ids[0], blobs[0]) + Print(ids[1..], blobs[1..])
  }

  /** An object name is one word of the header. */
  predicate IsName(id: Bytes) {
    |id| > 0 && forall i :: 0 <= i < |id| ==> !IsSpace(id[i])
  }

  // ---------- parsing undoes printing ----------

  lemma {:induction false} TokenLengthOf(t: Bytes, rest: Bytes)
    requires forall i :: 0 <= i < |t| ==> !IsSpace(t[i])
    requires rest == [] || IsSpace(rest[0])
    ensures TokenLength(t + rest) == |t|
  {
    if t == [] {
      assert t + rest == rest;
    } else {
      TokenLengthOf(t[1..], rest);
      assert (t + rest)[1..] == t[1..] + rest;
    }
  }

  lemma FirstField(t: Bytes, rest: Bytes)
    requires IsName(t)
    requires rest == [] || IsSpace(rest[0])
    ensures Fields(t + rest) == [t] + Fields(rest)
  {
    TokenLengthOf(t, rest);
    assert (t + rest)[0] == t[0];
    assert (t + rest)[..|t|] == t && (t + rest)[|t|..] == rest;
  }

  lemma {:induction false} UnsignedDecimal(n: nat)
    ensures Unsigned(Decimal(n)) == Some(n)
  {
    var s := Decimal(n);
    if n >= 10 {
      UnsignedDecimal(n / 10);
      assert s[..|s| - 1] == Decimal(n / 10);
    } else {
      assert s[..|s| - 1] == [];
    }
  }

  lemma SkipSpace(rest: Bytes)
    ensures Fields([SPACE] + rest) == Fields(rest)
  {
    assert ([SPACE] + rest)[1..] == rest;
  }

  lemma TwoFields(a: Bytes, b: Bytes)
    requires IsName(a) && IsName(b)
    ensures Fields(a + ([SPACE] + b)) == [a, b]
  {
    FirstField(a, [SPACE] + b);
    SkipSpace(b);
    assert b + [] == b;
    FirstField(b, []);
  }

  lemma HeaderOf(id: Bytes, n: nat)
    requires IsName(id)
    ensures HeaderSize(Header(id, n), id) == Some(n)
  {
    var digits := Decimal(n);
    var rest := BLOB + ([SPACE] + digits);
    TwoFields(BLOB, digits);
    SkipSpace(rest);
    FirstField(id, [SPACE] + rest);
    assert Fields(Header(id, n)) == [id, BLOB, digits];
    UnsignedDecimal(n);
    assert IsDigit(digits[0]);
  }

  lemma {:induction false} FirstNewlineOf(line: Bytes, rest: Bytes)
    requires forall i :: 0 <= i < |line| ==> line[i] != NEWLINE
    ensures FirstNewline(line + [NEWLINE] + rest) == |line|
  {
    if line != [] {
      FirstNewlineOf(line[1..], rest);
      assert (line + [NEWLINE] + rest)[1..] == line[1..] + [NEWLINE] + rest;
    }
  }

  lemma RecordRoundTrip(id: Bytes, raw: Bytes, rest: Bytes)
    requires IsName(id)
    ensures ParseRecord(PrintRecord(id, raw) + rest, id) == Some(Record(raw, |PrintRecord(id, raw)|))
  {
    var header := Header(id, |raw|);
    var after := raw + [NEWLINE] + rest;
    var s := PrintRecord(id, raw) + rest;
    assert s == header + [NEWLINE] + after;
    HeaderOf(id, |raw|);
    HeaderHasNoNewline(id, |raw|);
    FirstNewlineOf(header, after);
    assert s[..|header|] == header;
    var body := |header| + 1;
    assert s[body..] == after;
    assert s[body..body + |raw|] == raw;
    assert s[body + |raw|] == NEWLINE;
  }

  lemma HeaderHasNoNewline(id: Bytes, n: nat)
    requires IsName(id)
    ensures forall i :: 0 <= i < |Header(id, n)| ==> Header(id, n)[i] != NEWLINE
  {
    assert forall i :: 0 <= i < |id| ==> id[i] != NEWLINE;
    assert forall i :: 0 <= i < |Decimal(n)| ==> Decimal(n)[i] != NEWLINE;
  }

  lemma ParseStep(s: Bytes, ids: seq<Bytes>, raw: Bytes, n: nat, rest: seq<Bytes>)
    requires ids != [] && n <= |s|
    requires ParseRecord(s, ids[0]) == Some(Record(raw, n))
    requires Parse(s[n..], ids[1..]) == Some(rest)
    ensures Parse(s, ids) == Some([raw] + rest)
  {
  }

  lemma DropPrefix(a: Bytes, b: Bytes)
    ensures (a + b)[|a|..] == b
  {
  }

  /** Parsing the output for these objects gives back the bytes of each, whatever they
      hold: newlines, text that looks like a header, or nothing at all. */
  lemma {:induction false} RoundTrip(ids: seq<Bytes>, blobs: seq<Bytes>)
    requires |ids| == |blobs| && forall i :: 0 <= i < |ids| ==> IsName(ids[i])
    ensures Parse(Print(ids, blobs), ids) == Some(blobs)
  {
    if ids != [] {
      var rest := Print(ids[1..], blobs[1..]);
      RoundTrip(ids[1..], blobs[1..]);
      RecordRoundTrip(ids[0], blobs[0], rest);
      DropPrefix(PrintRecord(ids[0], blobs[0]), rest);
      ParseStep(Print(ids, blobs), ids, blobs[0], |PrintRecord(ids[0], blobs[0])|, blobs[1..]);
      assert blobs == [blobs[0]] + blobs[1..];
    }
  }

  /** Byte for byte, a record is the object name, the word `blob` between two spaces, the decimal length,
      a newline, the content and a newline. */
  lemma RecordLayout(id: Bytes, raw: Bytes)
    ensures PrintRecord(id, raw) == id + [32, 98, 108, 111, 98, 32] + Decimal(|raw|) + [10] + raw + [10]
  {
    Spaced(Decimal(|raw|));
    Associate(id, [32, 98, 108, 111, 98, 32], Decimal(|raw|));
    Associate(Header(id, |raw|) + [10], raw, [10]);
  }

  lemma Spaced(size: Bytes)
    ensures [SPACE] + (BLOB + ([SPACE] + size)) == [32, 98, 108, 111, 98, 32] + size
  {
    Associate([SPACE], BLOB, [SPACE] + size);
    Associate([SPACE] + BLOB, [SPACE], size);
    assert [SPACE] + BLOB + [SPACE] == [32, 98, 108, 111, 98, 32];
  }

  lemma Associate(a: Bytes, b: Bytes, c: Bytes)
    ensures a + (b + c) == a + b + c
  {
  }

  /** The decimal length has its usual value, and no leading zero. */
  lemma {:induction false} DecimalIsPositional(n: nat)
    ensures |Decimal(n)| > 1 ==> Decimal(n)[0] != 48
    ensures n == (if |Decimal(n)| == 1 then 0 else n / 10) * 10 + (Decimal(n)[|Decimal(n)| - 1] - 48) as int
    ensures n >= 10 ==> Decimal(n)[..|Decimal(n)| - 1] == Decimal(n / 10)
  {
    if n >= 10 {
      DecimalIsPositional(n / 10);
      assert Decimal(n)[..|Decimal(n)| - 1] == Decimal(n / 10);
      assert Decimal(n)[0] == Decimal(n / 10)[0];
    }
  }

  /** An accepted record starts with such a line of three words: no other object and no other kind of
      object is taken for the one requested. */
  lemma AcceptedHeader(s: Bytes, id: Bytes)
    requires ParseRecord(s, id).Some?
    ensures
      var line := s[..FirstNewline(s)];
      var size := |ParseRecord(s, id).value.raw|;
      && |Fields(line)| == 3 && Fields(line)[0] == id && Fields(line)[1] == [98, 108, 111, 98]
      && ParseInt(Fields(line)[2]) == Some(size)
      && ParseRecord(s, id).value.length == |line| + 1 + size + 1
      && s[..|line| + 1 + size + 1] == line + [10] + ParseRecord(s, id).value.raw + [10]
  {
    NewlineFound(s);
  }

  lemma {:induction false} NewlineFound(s: Bytes)
    requires FirstNewline(s) < |s|
    ensures s[FirstNewline(s)] == 10
  {
    if s[0] != NEWLINE {
      NewlineFound(s[1..]);
    }
  }

  // ---------- no accepted output is a prefix of another ----------

  lemma {:induction false} FirstNewlineIsLocal(a: Bytes, b: Bytes)
    requires a <= b && FirstNewline(a) < |a|
    ensures FirstNewline(b) == FirstNewline(a)
  {
    if a[0] != NEWLINE {
      FirstNewlineIsLocal(a[1..], b[1..]);
    }
  }

  lemma RecordIsLocal(a: Bytes, b: Bytes, id: Bytes)
    requires a <= b && ParseRecord(a, id).Some?
    ensures ParseRecord(b, id) == ParseRecord(a, id)
  {
    FirstNewlineIsLocal(a, b);
    var end := FirstNewline(a);
    assert a[..end] == b[..end];
    var size := HeaderSize(a[..end], id).value;
    assert a[end + 1..end + 1 + size] == b[end + 1..end + 1 + size];
  }

  lemma ParseInverts(s: Bytes, ids: seq<Bytes>)
    requires ids != [] && Parse(s, ids).Some?
    ensures ParseRecord(s, ids[0]).Some? && Parse(s[ParseRecord(s, ids[0]).value.length..], ids[1..]).Some?
  {
  }

  lemma SamePrefixSameRest(a: Bytes, b: Bytes, n: nat)
    requires a <= b && n <= |a| && (a[n..] <= b[n..] ==> a[n..] == b[n..])
    ensures a == b
  {
    assert a[n..] <= b[n..];
    assert a == a[..n] + a[n..] && b == b[..n] + b[n..];
  }

  lemma {:induction false} AcceptedIsPrefixFree(a: Bytes, b: Bytes, ids: seq<Bytes>)
    requires a <= b && Parse(a, ids).Some? && Parse(b, ids).Some?
    ensures a == b
    decreases |ids|
  {
    if ids != [] {
      ParseInverts(a, ids);
      ParseInverts(b, ids);
      RecordIsLocal(a, b, ids[0]);
      var n := ParseRecord(a, ids[0]).value.length;
      if a[n..] <= b[n..] {
        AcceptedIsPrefixFree(a[n..], b[n..], ids[1..]);
      }
      SamePrefixSameRest(a, b, n);
    }
  }

  /** Every proper prefix and every proper extension of the output is rejected. */
  lemma TruncatedOrExtendedIsRejected(ids: seq<Bytes>, blobs: seq<Bytes>, other: Bytes)
    requires |ids| == |blobs| && forall i :: 0 <= i < |ids| ==> IsName(ids[i])
    requires other < Print(ids, blobs) || Print(ids, blobs) < other
    ensures Parse(other, ids).None?
  {
    RoundTrip(ids, blobs);
    if Parse(other, ids).Some? {
      if other < Print(ids, blobs) {
        AcceptedIsPrefixFree(other, Print(ids, blobs), ids);
      } else {
        AcceptedIsPrefixFree(Print(ids, blobs), other, ids);
      }
    }
  }

  // ---------- the loop over the requested objects ----------

  ghost function Prepend(done: seq<Bytes>, rest: Option<seq<Bytes>>): Option<seq<Bytes>> {
    match rest
    case None => None
    case Some(blobs) => Some(done + blobs)
  }

  lemma PrependNothing(rest: Option<seq<Bytes>>)
    ensures Prepend([], rest) == rest
  {
    if rest.Some? {
      assert [] + rest.value == rest.value;
    }
  }

  /** The dictionary that maps each requested object to its bytes. */
  function Named(ids: seq<Bytes>, blobs: seq<Bytes>): map<Bytes, Bytes>
    requires |ids| == |blobs|
  {
    if ids == [] then map[]
    else
      var n := |ids| - 1;
      Named(ids[..n], blobs[..n])[ids[n] := blobs[n]]
  }

  lemma NamedStep(ids: seq<Bytes>, i: nat, done: seq<Bytes>, raw: Bytes)
    requires i < |ids| && |done| == i
    ensures Named(ids[..i + 1], done + [raw]) == Named(ids[..i], done)[ids[i] := raw]
  {
    assert ids[..i + 1][..i] == ids[..i] && (done + [raw])[..i] == done;
  }

  lemma {:induction false} NamedLookup(ids: seq<Bytes>, blobs: seq<Bytes>, i: nat)
    requires |ids| == |blobs| && i < |ids| && Distinct(ids)
    ensures ids[i] in Named(ids, blobs) && Named(ids, blobs)[ids[i]] == blobs[i]
  {
    var n := |ids| - 1;
    if i < n {
      NamedLookup(ids[..n], blobs[..n], i);
    }
  }

  ghost predicate Distinct(ids: seq<Bytes>) {
    forall i, j :: 0 <= i < j < |ids| ==> ids[i] != ids[j]
  }

  method Find(output: Bytes, from: nat) returns (at: nat)
    requires from <= |output|
    ensures at == from + FirstNewline(output[from..])
  {
    at := from;
    while at < |output| && output[at] != NEWLINE
      invariant from <= at <= |output|
      invariant at + FirstNewline(output[at..]) == from + FirstNewline(output[from..])
    {
      assert output[at..][1..] == output[at + 1..];
      at := at + 1;
    }
  }

  /** One step of the loop: the record that starts at `offset`. */
  method ReadRecord(output: Bytes, offset: nat, requested: Bytes) returns (r: Option<Record>)
    requires offset <= |output|
    ensures r == ParseRecord(output[offset..], requested)
  {
    ghost var s := output[offset..];
    var headerEnd := Find(output, offset);
    if headerEnd == |output| {
      return None;
    }
    var header := output[offset..headerEnd];
    assert s[..headerEnd - offset] == header;
    var size := HeaderSize(header, requested);
    if size.None? {
      return None;
    }
    var body := headerEnd + 1;
    if size.value < 0 || body + size.value >= |output| || output[body + size.value] != NEWLINE {
      return None;
    }
    var raw := output[body..body + size.value];
    assert s[body - offset..body - offset + size.value] == raw;
    r := Some(Record(raw, body + size.value + 1 - offset));
  }

  /** The parse of `output[offset..]` for `ids[i..]`, with the blobs found so far. */
  function Continue(output: Bytes, offset: nat, ids: seq<Bytes>, i: nat, done: seq<Bytes>): Option<seq<Bytes>>
    requires offset <= |output| && i <= |ids|
    decreases |ids| - i
  {
    if i == |ids| then if offset == |output| then Some(done) else None
    else
      match ParseRecord(output[offset..], ids[i])
      case None => None
      case Some(record) => Continue(output, offset + record.length, ids, i + 1, done + [record.raw])
  }

  lemma ParseTail(output: Bytes, offset: nat, ids: seq<Bytes>, i: nat)
    requires offset <= |output| && i < |ids|
    ensures
      var record := ParseRecord(output[offset..], ids[i]);
      Parse(output[offset..], ids[i..]) ==
        if record.None? then None
        else Prepend([record.value.raw], Parse(output[offset + record.value.length..], ids[i + 1..]))
  {
    assert ids[i..][0] == ids[i] && ids[i..][1..] == ids[i + 1..];
    var record := ParseRecord(output[offset..], ids[i]);
    if record.Some? {
      assert output[offset..][record.value.length..] == output[offset + record.value.length..];
    }
  }

  lemma PrependTwice(done: seq<Bytes>, raw: Bytes, rest: Option<seq<Bytes>>)
    ensures Prepend(done, Prepend([raw], rest)) == Prepend(done + [raw], rest)
  {
    if rest.Some? {
      assert done + [raw] + rest.value == done + ([raw] + rest.value);
    }
  }

  lemma {:induction false} ContinueIsParse(output: Bytes, offset: nat, ids: seq<Bytes>, i: nat, done: seq<Bytes>)
    requires offset <= |output| && i <= |ids|
    ensures Continue(output, offset, ids, i, done) == Prepend(done, Parse(output[offset..], ids[i..]))
    decreases |ids| - i
  {
    if i == |ids| {
      assert done + [] == done;
    } else {
      var record := ParseRecord(output[offset..], ids[i]);
      ParseTail(output, offset, ids, i);
      if record.Some? {
        var raw, next := record.value.raw, offset + record.value.length;
        ContinueIsParse(output, next, ids, i + 1, done + [raw]);
        PrependTwice(done, raw, Parse(output[next..], ids[i + 1..]));
      }
    }
  }

  lemma ContinueStep(output: Bytes, offset: nat, ids: seq<Bytes>, i: nat, done: seq<Bytes>)
    requires offset <= |output| && i < |ids|
    ensures
      var record := ParseRecord(output[offset..], ids[i]);
      && Continue(output, offset, ids, i, done)
         == (if record.None? then None else Continue(output, offset + record.value.length, ids, i + 1, done + [record.value.raw]))
  {
  }

  /** One turn of the loop over the requested objects. */
  method ReadNext(
    ordered: seq<Bytes>, output: Bytes, offset: nat, i: nat, blobs: map<Bytes, Bytes>, ghost done: seq<Bytes>,
    ghost goal: Option<seq<Bytes>>)
    returns (next: Option<(nat, map<Bytes, Bytes>)>, ghost more: seq<Bytes>)
    requires offset <= |output| && i < |ordered| && |done| == i
    requires goal == Continue(output, offset, ordered, i, done) && blobs == Named(ordered[..i], done)
    ensures next.None? ==> goal.None?
    ensures next.Some? ==>
      && next.value.0 <= |output| && |more| == i + 1
      && goal == Continue(output, next.value.0, ordered, i + 1, more) && next.value.1 == Named(ordered[..i + 1], more)
  {
    more := done;
    ContinueStep(output, offset, ordered, i, done);
    var record := ReadRecord(output, offset, ordered[i]);
    if record.None? {
      return None, more;
    }
    NamedStep(ordered, i, done, record.value.raw);
    more := done + [record.value.raw];
    next := Some((offset + record.value.length, blobs[ordered[i] := record.value.raw]));
  }

  /** Advances an offset through the output, one requested object at a time. */
  method ReadAll(ordered: seq<Bytes>, output: Bytes, ghost goal: Option<seq<Bytes>>)
    returns (r: Result<map<Bytes, Bytes>>)
    requires goal == Continue(output, 0, ordered, 0, [])
    ensures r.Ok? <==> goal.Some?
    ensures r.Ok? ==> |goal.value| == |ordered| && r.value == Named(ordered, goal.value)
  {
    var offset: nat := 0;
    var blobs: map<Bytes, Bytes> := map[];
    ghost var done: seq<Bytes> := [];
    for i := 0 to |ordered|
      invariant offset <= |output| && |done| == i
      invariant goal == Continue(output, offset, ordered, i, done)
      invariant blobs == Named(ordered[..i], done)
    {
      var next;
      next, done := ReadNext(ordered, output, offset, i, blobs, done, goal);
      if next.None? {
        return Err("unexpected git cat-file response");
      }
      offset, blobs := next.value.0, next.value.1;
    }
    assert ordered[..|ordered|] == ordered;
    if offset != |output| {
      return Err("git cat-file --batch returned trailing data");
    }
    r := Ok(blobs);
  }

  /** The dictionary of blobs, or an error if the output is not exactly the records of the
      requested objects; an empty request reads nothing. */
  method ReadGitBlobs(ordered: seq<Bytes>, output: Bytes) returns (r: Result<map<Bytes, Bytes>>)
    ensures r.Ok? <==> ordered == [] || Parse(output, ordered).Some?
    ensures r.Ok? && ordered != [] ==> r.value == Named(ordered, Parse(output, ordered).value)
    ensures ordered == [] ==> r == Ok(map[])
  {
    if ordered == [] {
      return Ok(map[]);
    }
    assert output[0..] == output && ordered[0..] == ordered;
    PrependNothing(Parse(output, ordered));
    ContinueIsParse(output, 0, ordered, 0, []);
    r := ReadAll(ordered, output, Continue(output, 0, ordered, 0, []));
  }
}
