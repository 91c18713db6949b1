/** Content-Length framing over a byte stream (internal/lsp/transport.go; "Base Protocol" of the Language
    Server Protocol 3.17). */
module Framing {
  import Decimal

  newtype byte = x: int | 0 <= x < 256

  type Bytes = seq<byte>

  datatype Result<+T> = Ok(value: T) | Err(reason: Reason)

  /** Why a read failed. */
  datatype Reason = EndOfStream | BadLength | NoLength | ShortBody

  const LF: byte := 10
  const CR: byte := 13
  const COLON: byte := 58

  /** "Content-Length: " */
  const HEADER: Bytes := [67, 111, 110, 116, 101, 110, 116, 45, 76, 101, 110, 103, 116, 104, 58, 32]

  /** "content-length" */
  const NAME: Bytes := [99, 111, 110, 116, 101, 110, 116, 45, 108, 101, 110, 103, 116, 104]

  /** Lengths are Go ints. */
  const MAX_INT := 0x7fff_ffff_ffff_ffff

  // ---------------------------------------------------------------- writing

  function Printed(n: nat): Bytes {
    var d := Decimal.Digits(n);
    seq(|d|, i requires 0 <= i < |d| => (48 + d[i]) as byte)
  }

  function Frame(payload: Bytes): Bytes { HEADER + Printed(|payload|) + [CR, LF, CR, LF] + payload }

  function Frames(payloads: seq<Bytes>): Bytes {
    if payloads == [] then [] else Frame(payloads[0]) + Frames(payloads[1..])
  }

  class Writer {
    var written: Bytes

    constructor ()
      ensures written == []
    {
      written := [];
    }

    method WriteFrame(payload: Bytes)
      modifies this
      ensures written == old(written) + Frame(payload)
    {
      written := written + (HEADER + Printed(|payload|) + [CR, LF, CR, LF]);
      written := written + payload;
    }
  }

  // ---------------------------------------------------------------- lines

  /** The first n bytes of input hold no line end. */
  predicate NoLineIn(input: Bytes, n: nat)
    requires n <= |input|
  {
    forall i | 0 <= i < n :: input[i] != LF
  }

  /** Length of the first line, its end included; None when the stream ends first. */
  function LineEnd(input: Bytes, n: nat := 0): (r: Result<nat>)
    requires n <= |input|
    ensures r.Ok? ==> n < r.value <= |input|
    decreases |input| - n
  {
    if n == |input| then Err(EndOfStream) else if input[n] == LF then Ok(n + 1) else LineEnd(input, n + 1)
  }

  lemma {:induction false} LineEndAt(input: Bytes, n: nat, end: nat)
    requires n <= end < |input| && input[end] == LF && forall i | n <= i < end :: input[i] != LF
    ensures LineEnd(input, n) == Ok(end + 1)
    decreases end - n
  {
    if n < end { LineEndAt(input, n + 1, end); }
  }

  lemma {:induction false} NoLineEnd(input: Bytes, n: nat)
    requires n <= |input| && forall i | n <= i < |input| :: input[i] != LF
    ensures LineEnd(input, n) == Err(EndOfStream)
    decreases |input| - n
  {
    if n < |input| { NoLineEnd(input, n + 1); }
  }

  /** strings.TrimRight(line, "\r\n") */
  function TrimEnd(line: Bytes): Bytes {
    if line != [] && (line[|line| - 1] == CR || line[|line| - 1] == LF) then TrimEnd(line[..|line| - 1]) else line
  }

  predicate IsSpace(b: byte) { b == 32 || 9 <= b <= 13 }

  function TrimLeft(s: Bytes): Bytes { if s != [] && IsSpace(s[0]) then TrimLeft(s[1..]) else s }

  function TrimRight(s: Bytes): Bytes { if s != [] && IsSpace(s[|s| - 1]) then TrimRight(s[..|s| - 1]) else s }

  function TrimSpace(s: Bytes): Bytes { TrimRight(TrimLeft(s)) }

  function Lower(s: Bytes): Bytes {
    seq(|s|, i requires 0 <= i < |s| => if 65 <= s[i] <= 90 then s[i] + 32 else s[i])
  }

  /** strings.IndexByte(line, ':') */
  function IndexColon(line: Bytes, n: nat := 0): (r: int)
    requires n <= |line|
    ensures r == -1 || n <= r < |line|
    decreases |line| - n
  {
    if n == |line| then -1 else if line[n] == COLON then n else IndexColon(line, n + 1)
  }

  // ---------------------------------------------------------------- numbers

  predicate AllDigits(s: Bytes) { s != [] && forall i | 0 <= i < |s| :: 48 <= s[i] <= 57 }

  function ReadDigits(s: Bytes): int
    requires AllDigits(s)
  {
    Decimal.Value(seq(|s|, i requires 0 <= i < |s| => s[i] as int - 48))
  }

  /** strconv.Atoi: an optional sign and decimal digits, within the range of an int. */
  function Atoi(s: Bytes): Result<int> {
    var digits := if s != [] && (s[0] == 43 || s[0] == 45) then s[1..] else s;
    if !AllDigits(digits) then Err(BadLength)
    else
      var n := if s[0] == 45 then -ReadDigits(digits) else ReadDigits(digits);
      if -MAX_INT - 1 <= n <= MAX_INT then Ok(n) else Err(BadLength)
  }

  // ---------------------------------------------------------------- reading

  /** A read's outcome and what is left of the stream. */
  datatype Read = Read(result: Result<Bytes>, rest: Bytes)

  /** What a header line says about the length: nothing, a length, or an error. */
  function HeaderLength(line: Bytes, known: int): Result<int> {
    var colon := IndexColon(line);
    if colon >= 0 && Lower(TrimSpace(line[..colon])) == NAME then Atoi(TrimSpace(line[colon + 1..])) else Ok(known)
  }

  /** Reading one frame, headers so far having announced length. */
  function ReadFrom(input: Bytes, length: int): (r: Read)
    ensures r.result.Ok? ==> |r.rest| < |input|
    decreases |input|
  {
    match LineEnd(input)
    case Err(e) => Read(Err(e), [])
    case Ok(end) =>
      var line := TrimEnd(input[..end]);
      if line == [] then ReadBody(input[end..], length)
      else match HeaderLength(line, length)
        case Err(e) => Read(Err(e), input[end..])
        case Ok(n) => ReadFrom(input[end..], n)
  }

  function ReadBody(input: Bytes, length: int): Read {
    if length < 0 then Read(Err(NoLength), input)
    else if |input| < length then Read(Err(ShortBody), [])
    else Read(Ok(input[..length]), input[length..])
  }

  function ReadOne(input: Bytes): Read { ReadFrom(input, -1) }

  /** A buffered reader: what is left to read of the stream. */
  class Reader {
    var left: Bytes

    constructor (stream: Bytes)
      ensures left == stream
    {
      left := stream;
    }

    /** bufio's ReadString('\n'). */
    method ReadLine() returns (r: Result<Bytes>)
      modifies this
      ensures match LineEnd(old(left))
              case Ok(end) => r == Ok(old(left)[..end]) && left == old(left)[end..]
              case Err(e) => r == Err(e) && left == []
    {
      var n := 0;
      while n < |left|
        invariant 0 <= n <= |left| && NoLineIn(left, n) && left == old(left)
      {
        if left[n] == LF {
          LineEndAt(left, 0, n);
          var line := left[..n + 1];
          left := left[n + 1..];
          return Ok(line);
        }
        n := n + 1;
      }
      NoLineEnd(left, 0);
      left := [];
      r := Err(EndOfStream);
    }

    method ReadFrame() returns (r: Result<Bytes>)
      modifies this
      ensures Read(r, left) == ReadOne(old(left))
    {
      var contentLength := -1;
      while true
        invariant ReadFrom(left, contentLength) == ReadOne(old(left))
        decreases |left|
      {
        var raw := ReadLine();
        if raw.Err? {
          return Err(raw.reason);
        }
        var line := TrimEnd(raw.value);
        if line == [] {
          break;
        }
        var idx := IndexColon(line);
        if idx >= 0 {
          if Lower(TrimSpace(line[..idx])) == NAME {
            var n := Atoi(TrimSpace(line[idx + 1..]));
            if n.Err? {
              return Err(n.reason);
            }
            contentLength := n.value;
          }
        }
      }
      if contentLength < 0 {
        return Err(NoLength);
      }
      if |left| < contentLength {
        left := [];
        return Err(ShortBody);
      }
      r := Ok(left[..contentLength]);
      left := left[contentLength..];
    }
  }

  // ---------------------------------------------------------------- one frame

  /** The header line of a frame without its end. */
  function HeaderLine(n: nat): Bytes { HEADER + Printed(n) }

  lemma {:induction false} DigitsAreDigits(s: Bytes)
    requires AllDigits(s)
    ensures TrimLeft(s) == s && TrimRight(s) == s && TrimEnd(s) == s
  {
  }

  lemma AtoiPrinted(n: nat)
    requires n <= MAX_INT
    ensures AllDigits(Printed(n)) && Atoi(Printed(n)) == Ok(n)
  {
    var d, p := Decimal.Digits(n), Printed(n);
    assert AllDigits(p);
    assert seq(|p|, i requires 0 <= i < |p| => p[i] as int - 48) == d;
    Decimal.ValueOfDigits(n);
  }

  lemma IndexColonAt(line: Bytes, n: nat, at: nat)
    requires n <= at < |line| && line[at] == COLON && forall i | n <= i < at :: line[i] != COLON
    ensures IndexColon(line, n) == at
    decreases at - n
  {
    if n < at { IndexColonAt(line, n + 1, at); }
  }

  /** The header line announces the length it prints. */
  lemma HeaderAnnounces(n: nat, known: int)
    requires n <= MAX_INT
    ensures HeaderLength(HeaderLine(n), known) == Ok(n)
  {
    var line, p := HeaderLine(n), Printed(n);
    AtoiPrinted(n);
    IndexColonAt(line, 0, 14);
    assert line[..14] == HEADER[..14] && line[15..] == [32] + p;
    NameIsName();
    ValueTrims(p);
  }

  lemma NameIsName()
    ensures Lower(TrimSpace(HEADER[..14])) == NAME
  {
    assert TrimLeft(HEADER[..14]) == HEADER[..14];
    assert TrimRight(HEADER[..14]) == HEADER[..14];
  }

  lemma ValueTrims(p: Bytes)
    requires AllDigits(p)
    ensures TrimSpace([32] + p) == p
  {
    DigitsAreDigits(p);
    assert ([32] + p)[1..] == p;
  }

  lemma HeaderTrims(n: nat)
    ensures TrimEnd(HeaderLine(n) + [CR, LF]) == HeaderLine(n)
  {
    var line, p := HeaderLine(n), Printed(n);
    assert (line + [CR, LF])[..|line| + 1] == line + [CR];
    assert (line + [CR])[..|line|] == line;
    assert line[|line| - 1] == p[|p| - 1] >= 48;
    assert TrimEnd(line + [CR]) == TrimEnd(line);
  }

  lemma BlankTrims()
    ensures TrimEnd([CR, LF]) == []
  {
    assert [CR, LF][..1] == [CR] && [CR][..0] == [];
    assert TrimEnd([CR]) == TrimEnd([]);
  }

  /** Reading past a frame's header line. */
  lemma ReadsHeader(n: nat, rest: Bytes, known: int)
    requires n <= MAX_INT
    ensures ReadFrom(HeaderLine(n) + [CR, LF] + rest, known) == ReadFrom(rest, n)
  {
    var line, input := HeaderLine(n), HeaderLine(n) + [CR, LF] + rest;
    var end := |line| + 1;
    assert forall i | 0 <= i < |line| :: line[i] != LF;
    LineEndAt(input, 0, end);
    assert input[..end + 1] == line + [CR, LF] && input[end + 1..] == rest;
    HeaderTrims(n);
    HeaderAnnounces(n, known);
  }

  lemma ReadsBlank(rest: Bytes, n: nat)
    ensures ReadFrom([CR, LF] + rest, n) == ReadBody(rest, n)
  {
    var input := [CR, LF] + rest;
    LineEndAt(input, 0, 1);
    assert input[..2] == [CR, LF] && input[2..] == rest;
    BlankTrims();
    hide TrimEnd;
  }

  /** Reading a frame gives its payload back, whatever bytes it holds, and stops exactly behind it. */
  lemma RoundTrip(payload: Bytes, rest: Bytes)
    requires |payload| <= MAX_INT
    ensures ReadOne(Frame(payload) + rest) == Read(Ok(payload), rest)
  {
    var n := |payload|;
    assert Frame(payload) + rest == HeaderLine(n) + [CR, LF] + ([CR, LF] + (payload + rest));
    ReadsHeader(n, [CR, LF] + (payload + rest), -1);
    ReadsBlank(payload + rest, n);
    assert (payload + rest)[..n] == payload && (payload + rest)[n..] == rest;
  }

  /** A frame cut short anywhere is an error, never a message. */
  lemma CutFrameFails(payload: Bytes, k: nat)
    requires |payload| <= MAX_INT && k < |Frame(payload)|
    ensures ReadOne(Frame(payload)[..k]).result.Err?
  {
    var n, line := |payload|, HeaderLine(|payload|);
    var frame, cut := Frame(payload), Frame(payload)[..k];
    assert frame == line + [CR, LF] + ([CR, LF] + payload);
    if k < |line| + 2 {
      assert forall i | 0 <= i < |line| :: line[i] != LF;
      NoLineEnd(cut, 0);
    } else {
      var rest := cut[|line| + 2..];
      assert cut == line + [CR, LF] + rest;
      ReadsHeader(n, rest, -1);
      assert rest == ([CR, LF] + payload)[..k - |line| - 2];
      if |rest| < 2 {
        NoLineEnd(rest, 0);
      } else {
        assert rest == [CR, LF] + rest[2..] && |rest[2..]| < n;
        ReadsBlank(rest[2..], n);
      }
    }
  }

  // ---------------------------------------------------------------- any header line

  predicate Spaces(s: Bytes) { forall b | b in s :: b == 32 || 9 <= b <= 13 }

  /** content-length, each letter in either case. */
  predicate SpellsName(s: Bytes) {
    |s| == 14 && forall i | 0 <= i < 14 :: s[i] == NAME[i] || (65 <= s[i] <= 90 && s[i] as int + 32 == NAME[i] as int)
  }

  /** The line starts with content-length at i, white space around it, and a colon at k. */
  predicate NamesLengthAt(line: Bytes, i: nat, k: nat) {
    i + 14 <= k < |line| && line[k] == COLON && Spaces(line[..i]) && SpellsName(line[i..i + 14]) &&
    Spaces(line[i + 14..k])
  }

  lemma {:induction false} TrimLeftDrops(s: Bytes) returns (i: nat)
    ensures i <= |s| && TrimLeft(s) == s[i..] && Spaces(s[..i]) && (i < |s| ==> !IsSpace(s[i]))
  {
    i := 0;
    if s != [] && IsSpace(s[0]) {
      i := TrimLeftDrops(s[1..]);
      i := i + 1;
      assert s[1..][i - 1..] == s[i..] && s[..i] == [s[0]] + s[1..][..i - 1];
    }
  }

  lemma {:induction false} TrimRightDrops(s: Bytes) returns (i: nat)
    ensures i <= |s| && TrimRight(s) == s[..i] && Spaces(s[i..]) && (i > 0 ==> !IsSpace(s[i - 1]))
  {
    i := |s|;
    if s != [] && IsSpace(s[|s| - 1]) {
      var n := |s| - 1;
      i := TrimRightDrops(s[..n]);
      assert s[..n][..i] == s[..i] && s[i..] == s[..n][i..] + [s[n]];
    }
  }

  /** Trimming takes white space off both ends and stops at the first other byte. */
  lemma TrimDrops(s: Bytes) returns (i: nat, j: nat)
    ensures i <= j <= |s| && TrimSpace(s) == s[i..j] && Spaces(s[..i]) && Spaces(s[j..])
    ensures i < j ==> !IsSpace(s[i]) && !IsSpace(s[j - 1])
  {
    i := TrimLeftDrops(s);
    j := TrimRightDrops(s[i..]);
    assert s[i..][..j] == s[i..i + j] && s[i..][j..] == s[i + j..];
    j := i + j;
  }

  lemma LowerName(s: Bytes)
    ensures Lower(s) == NAME <==> SpellsName(s)
  {
    assert |Lower(s)| == |s|;
    if SpellsName(s) {
      forall i | 0 <= i < 14 ensures Lower(s)[i] == NAME[i] {}
    }
    if Lower(s) == NAME {
      forall i | 0 <= i < 14 ensures s[i] == NAME[i] || (65 <= s[i] <= 90 && s[i] as int + 32 == NAME[i] as int) {
        assert Lower(s)[i] == NAME[i];
      }
    }
  }

  /** Between white space there is only one place for a text that neither starts nor ends with any. */
  lemma TrimFinds(s: Bytes, i: nat, j: nat)
    requires i < j <= |s| && Spaces(s[..i]) && Spaces(s[j..]) && !IsSpace(s[i]) && !IsSpace(s[j - 1])
    ensures TrimSpace(s) == s[i..j]
  {
    var a, b := TrimDrops(s);
    forall k | 0 <= k < i ensures IsSpace(s[k]) { assert s[..i][k] in s[..i]; }
    forall k | j <= k < |s| ensures IsSpace(s[k]) { assert s[j..][k - j] in s[j..]; }
    forall k | 0 <= k < a ensures IsSpace(s[k]) { assert s[..a][k] in s[..a]; }
    forall k | b <= k < |s| ensures IsSpace(s[k]) { assert s[b..][k - b] in s[b..]; }
    assert a <= i < j <= b;
    assert i <= a && b <= j;
  }

  /** A line that names the length announces what stands behind its colon. */
  lemma NamedLengthCounts(line: Bytes, i: nat, k: nat, known: int)
    requires NamesLengthAt(line, i, k)
    ensures HeaderLength(line, known) == Atoi(TrimSpace(line[k + 1..]))
  {
    var head, name := line[..k], line[i..i + 14];
    forall j | 0 <= j < k ensures line[j] != COLON {
      if j < i {
        assert line[..i][j] in line[..i];
      } else if j < i + 14 {
        assert line[j] == name[j - i];
      } else {
        assert line[i + 14..k][j - i - 14] in line[i + 14..k];
      }
    }
    IndexColonAt(line, 0, k);
    assert head[..i] == line[..i] && head[i..i + 14] == name && head[i + 14..] == line[i + 14..k];
    assert head[i] == name[0] && head[i + 13] == name[13];
    TrimFinds(head, i, i + 14);
    LowerName(name);
  }

  /** A line that does not name the length announces nothing. */
  lemma OtherNamesDoNot(line: Bytes, known: int)
    requires forall i: nat, k: nat :: !NamesLengthAt(line, i, k)
    ensures HeaderLength(line, known) == Ok(known)
  {
    var k := IndexColon(line);
    if k >= 0 {
      IndexColonIs(line, 0);
      var i, j := TrimDrops(line[..k]);
      LowerName(line[..k][i..j]);
      if SpellsName(line[..k][i..j]) {
        assert line[..k][..i] == line[..i] && line[..k][i..j] == line[i..i + 14] && line[..k][j..] == line[i + 14..k];
        assert NamesLengthAt(line, i, k);
      }
    }
  }

  lemma {:induction false} IndexColonIs(line: Bytes, n: nat)
    requires n <= |line| && IndexColon(line, n) >= 0
    ensures line[IndexColon(line, n)] == COLON
    decreases |line| - n
  {
    if line[n] != COLON { IndexColonIs(line, n + 1); }
  }

  /** A length is decimal digits, a sign before them if any, within the range of an int; anything else is an error. */
  lemma AtoiMeans(s: Bytes)
    ensures AllDigits(s) && ReadDigits(s) <= MAX_INT ==> Atoi(s) == Ok(ReadDigits(s))
    ensures s != [] && s[0] in {43, 45} && AllDigits(s[1..]) && ReadDigits(s[1..]) <= MAX_INT ==>
              Atoi(s) == Ok(if s[0] == 45 then -ReadDigits(s[1..]) else ReadDigits(s[1..]))
    ensures !AllDigits(s) && (s == [] || s[0] !in {43, 45} || !AllDigits(s[1..])) ==> Atoi(s) == Err(BadLength)
  {
    if AllDigits(s) { DigitsCount(s); }
    if s != [] && AllDigits(s[1..]) { DigitsCount(s[1..]); }
  }

  lemma DigitsCount(s: Bytes)
    requires AllDigits(s)
    ensures ReadDigits(s) >= 0 && s[0] !in {43, 45}
  {
    Decimal.ValueIsNatural(seq(|s|, i requires 0 <= i < |s| => s[i] as int - 48));
  }

  lemma {:induction false} TrimEndStarts(line: Bytes)
    ensures TrimEnd(line) <= line && (TrimEnd(line) == [] <==> forall b | b in line :: b == CR || b == LF)
  {
    if line != [] && (line[|line| - 1] == CR || line[|line| - 1] == LF) {
      var front := line[..|line| - 1];
      TrimEndStarts(front);
      assert line == front + [line[|line| - 1]];
      assert TrimEnd(line) == TrimEnd(front) <= front <= line;
      assert forall b :: b in line <==> b in front || b == line[|line| - 1];
    } else if line != [] {
      assert line[|line| - 1] in line;
    }
  }

  lemma NamedInPrefix(head: Bytes, line: Bytes)
    requires head <= line
    ensures forall i: nat, k: nat | NamesLengthAt(head, i, k) :: NamesLengthAt(line, i, k)
  {
    forall i: nat, k: nat | NamesLengthAt(head, i, k) ensures NamesLengthAt(line, i, k) {
      assert line[..i] == head[..i] && line[i..i + 14] == head[i..i + 14] && line[i + 14..k] == head[i + 14..k];
    }
  }

  /** Every header line that does not name the length is read past, wherever it stands. */
  lemma OtherHeadersIgnored(line: Bytes, rest: Bytes, known: int)
    requires |line| > 0 && line[|line| - 1] == LF && forall i | 0 <= i < |line| - 1 :: line[i] != LF
    requires (exists b | b in line :: b != CR && b != LF) && forall i: nat, k: nat :: !NamesLengthAt(line, i, k)
    ensures ReadFrom(line + rest, known) == ReadFrom(rest, known)
  {
    LineEndAt(line + rest, 0, |line| - 1);
    assert (line + rest)[..|line|] == line && (line + rest)[|line|..] == rest;
    TrimEndStarts(line);
    var head := TrimEnd(line);
    NamedInPrefix(head, line);
    hide NamesLengthAt, TrimEnd;
    OtherNamesDoNot(head, known);
  }

  // ---------------------------------------------------------------- a whole stream

  /** All messages a stream yields before its first error. */
  function ReadAll(input: Bytes): seq<Bytes>
    decreases |input|
  {
    var r := ReadOne(input);
    if r.result.Err? then [] else [r.result.value] + ReadAll(r.rest)
  }

  predicate Sendable(payloads: seq<Bytes>) { forall p | p in payloads :: |p| <= MAX_INT }

  /** How many whole frames the first k bytes of a stream of frames hold. */
  function WholeFrames(payloads: seq<Bytes>, k: nat): (j: nat)
    ensures j <= |payloads|
  {
    if payloads == [] || k < |Frame(payloads[0])| then 0 else 1 + WholeFrames(payloads[1..], k - |Frame(payloads[0])|)
  }

  /** From a stream of frames cut anywhere, exactly the messages whose frames are whole are read, in order. */
  lemma {:induction false} StreamRoundTrip(payloads: seq<Bytes>, k: nat)
    requires Sendable(payloads) && k <= |Frames(payloads)|
    ensures ReadAll(Frames(payloads)[..k]) == payloads[..WholeFrames(payloads, k)]
    ensures k == |Frames(payloads)| ==> WholeFrames(payloads, k) == |payloads|
  {
    hide *;
    if payloads == [] {
      NothingToRead(k);
    } else {
      var p, more := payloads[0], payloads[1..];
      var n := |Frame(p)|;
      var cut := Frames(payloads)[..k];
      SendableNext(payloads);
      FramesNext(payloads);
      if k < n {
        assert cut == Frame(p)[..k];
        CutFrameFails(p, k);
        ReadAllFails(cut);
        WholeNone(payloads, k);
      } else {
        var rest := Frames(more)[..k - n];
        assert cut == Frame(p) + rest;
        RoundTrip(p, rest);
        StreamRoundTrip(more, k - n);
        ReadAllNext(p, rest);
        WholeNext(payloads, k);
        assert payloads[..1 + WholeFrames(more, k - n)] == [p] + more[..WholeFrames(more, k - n)];
      }
    }
  }

  lemma NothingToRead(k: nat)
    ensures Frames([]) == [] && ReadAll([]) == [] && WholeFrames([], k) == 0
  {
    assert LineEnd([], 0) == Err(EndOfStream);
  }

  lemma SendableNext(payloads: seq<Bytes>)
    requires Sendable(payloads) && payloads != []
    ensures |payloads[0]| <= MAX_INT && Sendable(payloads[1..])
  {
    assert payloads[0] in payloads && forall q | q in payloads[1..] :: q in payloads;
  }

  lemma FramesNext(payloads: seq<Bytes>)
    requires payloads != []
    ensures Frames(payloads) == Frame(payloads[0]) + Frames(payloads[1..])
  {
    hide Frame;
  }

  lemma ReadAllFails(input: Bytes)
    requires ReadOne(input).result.Err?
    ensures ReadAll(input) == []
  {
    hide ReadOne;
  }

  lemma WholeNone(payloads: seq<Bytes>, k: nat)
    requires payloads != [] && k < |Frame(payloads[0])|
    ensures WholeFrames(payloads, k) == 0
  {
    hide Frame;
  }

  lemma ReadAllNext(p: Bytes, rest: Bytes)
    requires ReadOne(Frame(p) + rest) == Read(Ok(p), rest)
    ensures ReadAll(Frame(p) + rest) == [p] + ReadAll(rest)
  {
    hide ReadOne, Frame;
  }

  lemma WholeNext(payloads: seq<Bytes>, k: nat)
    requires payloads != [] && k >= |Frame(payloads[0])|
    ensures WholeFrames(payloads, k) == 1 + WholeFrames(payloads[1..], k - |Frame(payloads[0])|)
    ensures |Frames(payloads)| == |Frame(payloads[0])| + |Frames(payloads[1..])|
  {
    hide Frame;
  }

  /** What a writer has written after some payloads is the stream of their frames. */
  lemma {:induction false} FramesAppend(payloads: seq<Bytes>, p: Bytes)
    ensures Frames(payloads + [p]) == Frames(payloads) + Frame(p)
  {
    if payloads == [] {
      assert payloads + [p] == [p] && [p][1..] == [];
    } else {
      assert (payloads + [p])[1..] == payloads[1..] + [p];
      FramesAppend(payloads[1..], p);
    }
  }
}
