/** The native helper that builds an archive from a framed byte stream on
    standard input. Each entry is a path line, a decimal size line and
    exactly that many raw bytes; a `DONE` line or the end of input ends the
    stream. Standard input is a cursor over a fixed byte sequence; the
    archive being written is a map from entry name to contents, where a
    later entry with the same name replaces the earlier one. */
module ZipFromStdin {

  newtype byte = b: int | 0 <= b < 256

  const Eof: int := -1
  const NL: byte := 10
  const NUL: byte := 0

  /** `LINE_MAX`, the capacity of the path buffer. */
  const PathCap: nat := 8192
  /** The capacity of the size buffer. */
  const SizeCap: nat := 64

  /** `ULLONG_MAX` for a 64-bit `unsigned long long`. */
  const ULLMax: nat := 0xFFFF_FFFF_FFFF_FFFF
  const Pow64: nat := 0x1_0000_0000_0000_0000

  /** The line "DONE". */
  const Done: seq<byte> := [68, 79, 78, 69]

  // --- lines

  /** How many bytes before the first newline, but never more than `limit`. */
  function LineLen(input: seq<byte>, limit: nat): (r: nat)
    ensures r <= limit && r <= |input|
    ensures forall k :: 0 <= k < r ==> input[k] != NL
    ensures r < limit && r < |input| ==> input[r] == NL
  {
    if limit == 0 || input == [] || input[0] == NL then 0
    else 1 + LineLen(input[1..], limit - 1)
  }

  /** What one `read_line` call leaves behind: the stored bytes, whether it
      reports end of input (-1), and the unread rest of the stream. */
  datatype Line = Line(bytes: seq<byte>, eof: bool, rest: seq<byte>)

  /** `read_line(buf, cap)`: stores at most `cap - 1` bytes; the first
      newline is consumed but not stored; a full buffer stops reading and
      leaves the remainder in the stream; -1 only when the stream ends
      before any byte is read. */
  function ReadLineSpec(input: seq<byte>, cap: nat): (l: Line)
    requires cap >= 2
    ensures |l.bytes| <= cap - 1 && NoByte(l.bytes, NL)
    ensures l.bytes <= input
    ensures l.eof <==> input == []
    ensures !l.eof ==> |l.rest| < |input|
    ensures |l.bytes| < cap - 1 && |l.bytes| < |input| ==> l.rest == input[|l.bytes| + 1..] && input[|l.bytes|] == NL
    ensures |l.bytes| == cap - 1 ==> l.rest == input[cap - 1..]
    ensures |l.bytes| == |input| ==> l.rest == []
  {
    var n := LineLen(input, cap - 1);
    if n == cap - 1 then Line(input[..n], false, input[n..])
    else if n == |input| then Line(input, n == 0, [])
    else Line(input[..n], false, input[n + 1..])
  }

  predicate NoByte(s: seq<byte>, b: byte) {
    forall k :: 0 <= k < |s| ==> s[k] != b
  }

  /** The C string a buffer holds: everything before the first NUL. */
  function CString(s: seq<byte>): (r: seq<byte>)
    ensures r <= s && NoByte(r, NUL)
    ensures |r| < |s| ==> s[|r|] == NUL
    ensures NoByte(s, NUL) ==> r == s
  {
    if s == [] || s[0] == NUL then [] else [s[0]] + CString(s[1..])
  }

  // --- strtoull(buf, NULL, 10)

  predicate IsCSpace(b: byte) { b == 32 || 9 <= b <= 13 }
  predicate IsDigitByte(b: byte) { 48 <= b <= 57 }

  function SkipCSpace(s: seq<byte>): (r: seq<byte>)
    ensures |r| <= |s| && r == s[|s| - |r|..]
    ensures r != [] ==> !IsCSpace(r[0])
  {
    if s != [] && IsCSpace(s[0]) then SkipCSpace(s[1..]) else s
  }

  /** The longest prefix made of decimal digits. */
  function LeadingDigits(s: seq<byte>): (r: seq<byte>)
    ensures r <= s && forall k :: 0 <= k < |r| ==> IsDigitByte(r[k])
    ensures |r| < |s| ==> !IsDigitByte(s[|r|])
  {
    if s != [] && IsDigitByte(s[0]) then [s[0]] + LeadingDigits(s[1..]) else []
  }

  function DecValue(ds: seq<byte>): nat
    requires forall k :: 0 <= k < |ds| ==> IsDigitByte(ds[k])
  {
    if ds == [] then 0
    else
      assert IsDigitByte(ds[|ds| - 1]);
      DecValue(ds[..|ds| - 1]) * 10 + (ds[|ds| - 1] as int - 48)
  }

  /** `strtoull` in base 10: leading white space, an optional sign, then
      digits; no digits gives 0; an overflow saturates at `ULLONG_MAX`; a
      minus sign negates modulo 2^64. */
  function Strtoull(s: seq<byte>): (r: nat)
    ensures r <= ULLMax
    ensures var ds := LeadingDigits(s); |ds| == |s| && DecValue(ds) <= ULLMax ==> r == DecValue(ds)
  {
    var t := SkipCSpace(s);
    var neg := t != [] && t[0] == 45;
    var u := if t != [] && (t[0] == 43 || t[0] == 45) then t[1..] else t;
    var v := DecValue(LeadingDigits(u));
    if v > ULLMax then ULLMax
    else if neg then (Pow64 - v) % Pow64
    else v
  }

  // --- the main loop, as a function of the input

  datatype Error = EofAfterPath | TooLarge | ShortRead

  datatype Outcome = Finished(archive: map<seq<byte>, seq<byte>>) | Failed(error: Error)

  /** The process exit status: 0 when the archive is finalised, 1 on error. */
  function ExitCode(o: Outcome): (r: int)
    ensures r == 0 <==> o.Finished?
    ensures r == 0 || r == 1
  {
    if o.Finished? then 0 else 1
  }

  /** What one pass of the entry loop does: stop, fail, or add one entry
      and continue with the rest of the stream. */
  datatype Step = Stop | Fail(error: Error) | Add(name: seq<byte>, content: seq<byte>, rest: seq<byte>)

  /** One pass of the `for (;;)` body of `main`, with `sizeMax` the
      platform's `SIZE_MAX`: read the path line (end of input or `DONE`
      stops), read the size line (end of input is an error), parse the
      size, reject it above `SIZE_MAX`, then take exactly that many bytes
      (a short read is an error). The entry name is the path buffer as a C
      string. */
  function StepSpec(input: seq<byte>, sizeMax: nat): (r: Step)
    ensures r.Add? ==> |r.rest| < |input|
  {
    var pl := ReadLineSpec(input, PathCap);
    if pl.eof || CString(pl.bytes) == Done then Stop
    else
      var sl := ReadLineSpec(pl.rest, SizeCap);
      if sl.eof then Fail(EofAfterPath)
      else
        var size := Strtoull(CString(sl.bytes));
        if size > sizeMax then Fail(TooLarge)
        else if size > 0 && |sl.rest| < size then Fail(ShortRead)
        else Add(CString(pl.bytes), sl.rest[..size], sl.rest[size..])
  }

  /** The whole entry loop over the unread input, with the entries added so
      far; `zip_file_add` with `ZIP_FL_OVERWRITE` is a map update. */
  function RunSpec(input: seq<byte>, archive: map<seq<byte>, seq<byte>>, sizeMax: nat): Outcome
    decreases |input|
  {
    match StepSpec(input, sizeMax)
    case Stop => Finished(archive)
    case Fail(e) => Failed(e)
    case Add(name, content, rest) => RunSpec(rest, archive[name := content], sizeMax)
  }

  // --- standard input and the imperative loop

  /** Standard input: a fixed byte sequence and a read position. */
  class Stdin {
    const data: seq<byte>
    var pos: nat

    constructor (data: seq<byte>)
      ensures this.data == data && pos == 0
    {
      this.data := data;
      pos := 0;
    }

    predicate Valid()
      reads this
    {
      pos <= |data|
    }

    /** The bytes not read yet. */
    function Remaining(): seq<byte>
      reads this
      requires Valid()
    {
      data[pos..]
    }

    /** `getchar()`: the next byte, or `EOF` at the end. */
    method GetChar() returns (c: int)
      requires Valid()
      modifies this
      ensures Valid()
      ensures old(Remaining()) == [] ==> c == Eof && Remaining() == []
      ensures old(Remaining()) != [] ==> c == old(Remaining())[0] as int && Remaining() == old(Remaining())[1..]
    {
      if pos == |data| {
        c := Eof;
      } else {
        c := data[pos] as int;
        pos := pos + 1;
      }
    }

    /** `fread(buf, 1, n, stdin)`: up to `n` bytes. */
    method Read(n: nat) returns (bytes: seq<byte>)
      requires Valid()
      modifies this
      ensures Valid()
      ensures n <= |old(Remaining())| ==> bytes == old(Remaining())[..n] && Remaining() == old(Remaining())[n..]
      ensures n > |old(Remaining())| ==> bytes == old(Remaining()) && Remaining() == []
    {
      var m := if n <= |data| - pos then n else |data| - pos;
      bytes := data[pos..pos + m];
      pos := pos + m;
    }
  }

  /** `read_line`: the byte loop with its three exits (full buffer,
      end of input, newline). */
  method ReadLine(stdin: Stdin, cap: nat) returns (buf: seq<byte>, status: int)
    requires cap >= 2 && stdin.Valid()
    modifies stdin
    ensures stdin.Valid()
    ensures var l := ReadLineSpec(old(stdin.Remaining()), cap);
      buf == l.bytes && (status == -1 <==> l.eof) && (status == 0 <==> !l.eof) && stdin.Remaining() == l.rest
  {
    ghost var input := stdin.Remaining();
    var i := 0;
    var c := 0;
    var stop := false;
    buf := [];
    while i < cap - 1 && !stop
      invariant stdin.Valid()
      invariant 0 <= i <= cap - 1 && i <= |input| && buf == input[..i]
      invariant forall k :: 0 <= k < i ==> input[k] != NL
      invariant !stop ==> stdin.Remaining() == input[i..]
      invariant stop ==> i < cap - 1
      invariant stop ==>
        || (c == Eof && i == |input| && stdin.Remaining() == [])
        || (c == NL as int && i < |input| && input[i] == NL && stdin.Remaining() == input[i + 1..])
      decreases cap - 1 - i, if stop then 0 else 1
    {
      c := stdin.GetChar();
      if c == Eof || c == NL as int {
        stop := true;
      } else {
        buf := buf + [c as byte];
        i := i + 1;
      }
    }
    status := if c == Eof && i == 0 then -1 else 0;
    assert LineLen(input, cap - 1) == i;
  }

  /** The entry loop of `main`; libzip is the `archive` map, and
      `zip_file_add` with `ZIP_FL_OVERWRITE` is a map update. */
  method Run(stdin: Stdin, sizeMax: nat) returns (outcome: Outcome)
    requires stdin.Valid()
    modifies stdin
    ensures outcome == RunSpec(old(stdin.Remaining()), map[], sizeMax)
  {
    ghost var input := stdin.Remaining();
    var archive: map<seq<byte>, seq<byte>> := map[];
    var done := false;
    outcome := Finished(archive);
    while !done
      invariant stdin.Valid()
      invariant !done ==> RunSpec(stdin.Remaining(), archive, sizeMax) == RunSpec(input, map[], sizeMax)
      invariant done ==> outcome == RunSpec(input, map[], sizeMax)
      decreases if done then 0 else |stdin.Remaining()| + 1
    {
      ghost var before := stdin.Remaining();
      ghost var step := StepSpec(before, sizeMax);
      var path, st := ReadLine(stdin, PathCap);
      if st < 0 || CString(path) == Done {
        assert step == Stop;
        outcome := Finished(archive);
        done := true;
      } else {
        var sizeLine, st2 := ReadLine(stdin, SizeCap);
        if st2 < 0 {
          assert step == Fail(EofAfterPath);
          outcome := Failed(EofAfterPath);
          done := true;
        } else {
          var size := Strtoull(CString(sizeLine));
          ghost var afterSize := stdin.Remaining();
          if size > sizeMax {
            assert step == Fail(TooLarge);
            outcome := Failed(TooLarge);
            done := true;
          } else {
            var content: seq<byte> := [];
            var short := false;
            if size > 0 {
              var got := stdin.Read(size);
              short := |got| != size;
              content := got;
            }
            if short {
              assert step == Fail(ShortRead);
              outcome := Failed(ShortRead);
              done := true;
            } else {
              assert content == afterSize[..size] && stdin.Remaining() == afterSize[size..];
              assert step == Add(CString(path), content, stdin.Remaining());
              archive := archive[CString(path) := content];
            }
          }
        }
      }
    }
  }

  // --- the documented frame format

  datatype FileEntry = FileEntry(path: seq<byte>, content: seq<byte>)

  function Pow10(k: nat): nat {
    if k == 0 then 1 else 10 * Pow10(k - 1)
  }

  /** The decimal digits of `n`, most significant first. */
  function Digits(n: nat): (r: seq<byte>)
    ensures |r| >= 1 && forall k :: 0 <= k < |r| ==> IsDigitByte(r[k])
  {
    if n < 10 then [(48 + n) as byte] else Digits(n / 10) + [(48 + n % 10) as byte]
  }

  lemma {:induction false} DigitsValue(n: nat)
    ensures DecValue(Digits(n)) == n
  {
    if n >= 10 {
      DigitsValue(n / 10);
      var d := Digits(n);
      assert d[..|d| - 1] == Digits(n / 10);
    }
  }

  lemma {:induction false} DigitsLength(n: nat, k: nat)
    requires k >= 1 && n < Pow10(k)
    ensures |Digits(n)| <= k
  {
    if n >= 10 {
      DigitsLength(n / 10, k - 1);
    }
  }

  /** Any size up to `ULLONG_MAX` is written in at most 20 digits. */
  lemma DigitsFit(n: nat)
    requires n <= ULLMax
    ensures |Digits(n)| <= 20
  {
    assert Pow10(4) == 10_000;
    assert Pow10(8) == 100_000_000;
    assert Pow10(12) == 1_000_000_000_000;
    assert Pow10(16) == 10_000_000_000_000_000;
    assert Pow10(20) == 100_000_000_000_000_000_000;
    DigitsLength(n, 20);
  }

  /** One entry in the frame format: path line, size line, raw bytes. */
  function EncodeEntry(e: FileEntry): seq<byte> {
    e.path + [NL] + Digits(|e.content|) + [NL] + e.content
  }

  function Encode(es: seq<FileEntry>): seq<byte> {
    if es == [] then [] else EncodeEntry(es[0]) + Encode(es[1..])
  }

  /** The whole stream: the entries, then the `DONE` line. */
  function Frame(es: seq<FileEntry>): seq<byte> {
    Encode(es) + Done + [NL]
  }

  /** Adding the entries one after another, a later one replacing an earlier
      one with the same path. */
  function AddAll(archive: map<seq<byte>, seq<byte>>, es: seq<FileEntry>): map<seq<byte>, seq<byte>>
    decreases |es|
  {
    if es == [] then archive else AddAll(archive[es[0].path := es[0].content], es[1..])
  }

  /** A path the format can carry: no newline, no NUL, short enough that its
      newline is consumed with it, and not the `DONE` marker. */
  predicate ValidPath(p: seq<byte>) {
    NoByte(p, NL) && NoByte(p, NUL) && |p| <= PathCap - 2 && p != Done
  }

  /** A line shorter than the buffer is read whole and its newline is consumed. */
  lemma ReadTerminated(x: seq<byte>, rest: seq<byte>, cap: nat)
    requires cap >= 2 && NoByte(x, NL) && |x| < cap - 1
    ensures ReadLineSpec(x + [NL] + rest, cap) == Line(x, false, rest)
  {
    var input := x + [NL] + rest;
    assert input[|x|] == NL;
    assert forall k :: 0 <= k < |x| ==> input[k] == x[k];
    assert LineLen(input, cap - 1) == |x|;
    assert input[..|x|] == x;
    assert input[|x| + 1..] == rest;
  }

  lemma {:induction false} LeadingDigitsOfDigits(s: seq<byte>)
    requires forall k :: 0 <= k < |s| ==> IsDigitByte(s[k])
    ensures LeadingDigits(s) == s
  {
    if s != [] {
      LeadingDigitsOfDigits(s[1..]);
      assert [s[0]] + s[1..] == s;
    }
  }

  lemma StrtoullDigits(n: nat)
    requires n <= ULLMax
    ensures Strtoull(Digits(n)) == n
  {
    var d := Digits(n);
    DigitsValue(n);
    LeadingDigitsOfDigits(d);
  }

  /** A valid path line is read whole and names the entry by itself. */
  lemma PathLine(p: seq<byte>, rest: seq<byte>)
    requires ValidPath(p)
    ensures ReadLineSpec(p + [NL] + rest, PathCap) == Line(p, false, rest)
    ensures CString(p) == p && p != Done
  {
    ReadTerminated(p, rest, PathCap);
  }

  /** The size line written for `n` is read whole and parses back to `n`. */
  lemma SizeLine(n: nat, rest: seq<byte>)
    requires n <= ULLMax
    ensures ReadLineSpec(Digits(n) + [NL] + rest, SizeCap) == Line(Digits(n), false, rest)
    ensures Strtoull(CString(Digits(n))) == n
  {
    var d := Digits(n);
    DigitsFit(n);
    ReadTerminated(d, rest, SizeCap);
    assert NoByte(d, NUL) by {
      assert forall k :: 0 <= k < |d| ==> IsDigitByte(d[k]);
    }
    StrtoullDigits(n);
  }

  /** One encoded entry is read back as that entry, and the loop goes on
      with the rest of the stream. */
  lemma EntryStep(e: FileEntry, tail: seq<byte>, sizeMax: nat)
    requires ValidPath(e.path) && |e.content| <= sizeMax <= ULLMax
    ensures StepSpec(EncodeEntry(e) + tail, sizeMax) == Add(e.path, e.content, tail)
  {
    var d := Digits(|e.content|);
    var afterPath := d + [NL] + (e.content + tail);
    assert EncodeEntry(e) + tail == e.path + [NL] + afterPath;
    PathLine(e.path, afterPath);
    SizeLine(|e.content|, e.content + tail);
    assert (e.content + tail)[..|e.content|] == e.content;
    assert (e.content + tail)[|e.content|..] == tail;
  }

  lemma {:induction false} EncodeThen(es: seq<FileEntry>, tail: seq<byte>, archive: map<seq<byte>, seq<byte>>, sizeMax: nat)
    requires sizeMax <= ULLMax
    requires forall k :: 0 <= k < |es| ==> ValidPath(es[k].path) && |es[k].content| <= sizeMax
    ensures RunSpec(Encode(es) + tail, archive, sizeMax) == RunSpec(tail, AddAll(archive, es), sizeMax)
    decreases |es|
  {
    if es != [] {
      assert Encode(es) + tail == EncodeEntry(es[0]) + (Encode(es[1..]) + tail);
      EntryStep(es[0], Encode(es[1..]) + tail, sizeMax);
      EncodeThen(es[1..], tail, archive[es[0].path := es[0].content], sizeMax);
    } else {
      assert Encode(es) + tail == tail;
    }
  }

  /** The loop ends normally on a `DONE` line, whatever follows it, and on
      end of input where a path is expected. */
  lemma StopsAtDone(tail: seq<byte>, archive: map<seq<byte>, seq<byte>>, sizeMax: nat)
    ensures RunSpec(Done + [NL] + tail, archive, sizeMax) == Finished(archive)
    ensures RunSpec([], archive, sizeMax) == Finished(archive)
  {
    ReadTerminated(Done, tail, PathCap);
    assert CString(Done) == Done;
  }

  /** Round trip: a stream written in the frame format builds exactly the
      archive of its entries. */
  lemma RoundTrip(es: seq<FileEntry>, sizeMax: nat)
    requires sizeMax <= ULLMax
    requires forall k :: 0 <= k < |es| ==> ValidPath(es[k].path) && |es[k].content| <= sizeMax
    ensures RunSpec(Frame(es), map[], sizeMax) == Finished(AddAll(map[], es))
  {
    assert Frame(es) == Encode(es) + (Done + [NL] + []);
    EncodeThen(es, Done + [NL] + [], map[], sizeMax);
    StopsAtDone([], AddAll(map[], es), sizeMax);
  }

  /** The same without the closing `DONE` line: end of input also finalises. */
  lemma RoundTripToEof(es: seq<FileEntry>, sizeMax: nat)
    requires sizeMax <= ULLMax
    requires forall k :: 0 <= k < |es| ==> ValidPath(es[k].path) && |es[k].content| <= sizeMax
    ensures RunSpec(Encode(es), map[], sizeMax) == Finished(AddAll(map[], es))
  {
    assert Encode(es) + [] == Encode(es);
    EncodeThen(es, [], map[], sizeMax);
    StopsAtDone([], AddAll(map[], es), sizeMax);
  }

  /** End of input right after a path line is an error. */
  lemma EofAfterPathFails(p: seq<byte>, archive: map<seq<byte>, seq<byte>>, sizeMax: nat)
    requires ValidPath(p)
    ensures RunSpec(p + [NL], archive, sizeMax) == Failed(EofAfterPath)
  {
    PathLine(p, []);
    assert p + [NL] == p + [NL] + [];
  }

  lemma FrameAssoc(p: seq<byte>, d: seq<byte>, tail: seq<byte>)
    ensures p + [NL] + d + [NL] + tail == p + [NL] + (d + [NL] + tail)
  {
  }

  /** Once both lines are read, the size decides between rejection, a short
      read and the entry. */
  lemma StepOfLines(input: seq<byte>, afterPath: seq<byte>, p: seq<byte>, d: seq<byte>, n: nat, tail: seq<byte>, sizeMax: nat)
    requires ReadLineSpec(input, PathCap) == Line(p, false, afterPath)
    requires ReadLineSpec(afterPath, SizeCap) == Line(d, false, tail)
    requires CString(p) == p && p != Done && Strtoull(CString(d)) == n
    ensures StepSpec(input, sizeMax)
            == if n > sizeMax then Fail(TooLarge)
               else if n > 0 && |tail| < n then Fail(ShortRead)
               else Add(p, tail[..n], tail[n..])
  {
  }

  /** One pass over a path line and a size line: the size decides between
      rejection, a short read and the entry. */
  lemma FrameStep(p: seq<byte>, n: nat, tail: seq<byte>, sizeMax: nat)
    requires ValidPath(p) && n <= ULLMax
    ensures StepSpec(p + [NL] + Digits(n) + [NL] + tail, sizeMax)
            == if n > sizeMax then Fail(TooLarge)
               else if n > 0 && |tail| < n then Fail(ShortRead)
               else Add(p, tail[..n], tail[n..])
  {
    var d := Digits(n);
    FrameAssoc(p, d, tail);
    PathLine(p, d + [NL] + tail);
    SizeLine(n, tail);
    StepOfLines(p + [NL] + (d + [NL] + tail), d + [NL] + tail, p, d, n, tail, sizeMax);
  }

  /** Fewer raw bytes than the size line announces is an error. */
  lemma ShortReadFails(p: seq<byte>, n: nat, content: seq<byte>, archive: map<seq<byte>, seq<byte>>, sizeMax: nat)
    requires ValidPath(p) && n <= sizeMax <= ULLMax && |content| < n
    ensures RunSpec(p + [NL] + Digits(n) + [NL] + content, archive, sizeMax) == Failed(ShortRead)
  {
    FrameStep(p, n, content, sizeMax);
  }

  /** A size above `SIZE_MAX` is rejected before any byte is read. */
  lemma TooLargeFails(p: seq<byte>, n: nat, tail: seq<byte>, archive: map<seq<byte>, seq<byte>>, sizeMax: nat)
    requires ValidPath(p) && sizeMax < n <= ULLMax
    ensures RunSpec(p + [NL] + Digits(n) + [NL] + tail, archive, sizeMax) == Failed(TooLarge)
  {
    FrameStep(p, n, tail, sizeMax);
  }

  /** With the same path twice, the later contents are the ones kept. */
  lemma {:induction false} LaterEntryWins(archive: map<seq<byte>, seq<byte>>, es: seq<FileEntry>, i: nat)
    requires i < |es|
    requires forall j :: i < j < |es| ==> es[j].path != es[i].path
    ensures es[i].path in AddAll(archive, es) && AddAll(archive, es)[es[i].path] == es[i].content
    decreases |es|
  {
    if i == 0 {
      AddAllKeeps(archive[es[0].path := es[0].content], es[1..], es[0].path);
    } else {
      LaterEntryWins(archive[es[0].path := es[0].content], es[1..], i - 1);
    }
  }

  /** Entries with other paths leave a key's contents alone. */
  lemma {:induction false} AddAllKeeps(archive: map<seq<byte>, seq<byte>>, es: seq<FileEntry>, p: seq<byte>)
    requires p in archive
    requires forall j :: 0 <= j < |es| ==> es[j].path != p
    ensures p in AddAll(archive, es) && AddAll(archive, es)[p] == archive[p]
    decreases |es|
  {
    if es != [] {
      AddAllKeeps(archive[es[0].path := es[0].content], es[1..], p);
    }
  }

  /** A path of exactly `LINE_MAX - 1` bytes fills the buffer, so its newline
      stays in the stream: the entry gets empty contents and the size line
      is read as the next path. */
  lemma FullPathDesynchronises(e: FileEntry, tail: seq<byte>, archive: map<seq<byte>, seq<byte>>, sizeMax: nat)
    requires NoByte(e.path, NL) && NoByte(e.path, NUL) && |e.path| == PathCap - 1
    ensures RunSpec(EncodeEntry(e) + tail, archive, sizeMax)
         == RunSpec(Digits(|e.content|) + [NL] + e.content + tail, archive[e.path := []], sizeMax)
  {
    var rest := Digits(|e.content|) + [NL] + e.content + tail;
    var input := EncodeEntry(e) + tail;
    assert input == e.path + ([NL] + rest);
    assert forall k :: 0 <= k < |e.path| ==> input[k] == e.path[k];
    assert LineLen(input, PathCap - 1) == PathCap - 1;
    assert input[..PathCap - 1] == e.path;
    assert input[PathCap - 1..] == [NL] + rest;
    assert CString(e.path) == e.path;
    assert e.path != Done;
    ReadTerminated([], rest, SizeCap);
    assert [NL] + rest == [] + [NL] + rest;
    assert CString([]) == [];
    assert rest[0..] == rest;
  }
}
