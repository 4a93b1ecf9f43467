/**
 * The Redis serialization protocol as the client writes it and reads it, and the
 * command decoder a server applies to what the client wrote.
 *
 * Spec functions consume a byte string and return what is left of it; the reader
 * objects below do the same step by step.
 */
module Resp {
  import opened Wrappers
  import opened Decimal

  const CRLF: Bytes := "\r\n"

  // ---- lines ----

  predicate NoLineFeed(s: string) {
    '\n' !in s
  }

  /** Splits behind the first line feed; None when there is none, and all is consumed. */
  function SplitLine(input: Bytes): (r: (Option<Bytes>, Bytes))
    ensures |r.1| <= |input|
    ensures r.0.Some? ==> r.0.value != [] && r.0.value + r.1 == input
    ensures r.0.None? <==> NoLineFeed(input)
  {
    if input == [] then (None, [])
    else if input[0] == '\n' then
      assert input == ['\n'] + input[1..];
      (Some(['\n']), input[1..])
    else
      var (line, rest) := SplitLine(input[1..]);
      assert input == [input[0]] + input[1..];
      if line.None? then (None, []) else (Some([input[0]] + line.value), rest)
  }

  lemma {:induction false} SplitTerminatedLine(body: Bytes, rest: Bytes)
    requires NoLineFeed(body)
    ensures SplitLine(body + CRLF + rest) == (Some(body + CRLF), rest)
  {
    if body == [] {
      var t := CRLF + rest;
      assert body + CRLF + rest == t && t[1..] == ['\n'] + rest;
      assert SplitLine(t[1..]) == (Some(['\n']), rest);
    } else {
      SplitTerminatedLine(body[1..], rest);
      assert body + CRLF + rest == [body[0]] + (body[1..] + CRLF + rest);
      assert [body[0]] + (body[1..] + CRLF) == body + CRLF;
    }
  }

  // ---- commands, written ----

  function Bulk(arg: Bytes): Bytes {
    ['$'] + FormatNat(|arg|) + CRLF + arg + CRLF
  }

  function Bulks(args: seq<Bytes>): Bytes {
    if args == [] then [] else Bulk(args[0]) + Bulks(args[1..])
  }

  /** One command as an array of bulk strings. */
  function Command(args: seq<Bytes>): Bytes {
    ['*'] + FormatNat(|args|) + CRLF + Bulks(args)
  }

  method Write(args: seq<Bytes>) returns (req: Bytes)
    ensures req == Command(args)
  {
    req := AppendLength([], '*', |args|);
    for i := 0 to |args|
      invariant req + Bulks(args[i..]) == Command(args)
    {
      ghost var before := req;
      req := AppendBulk(req, args[i]);
      BulksStep(before, args[i..]);
      assert args[i..][1..] == args[i + 1..];
    }
    assert req + Bulks([]) == req;
  }

  method AppendLength(req: Bytes, mark: Byte, n: nat) returns (out: Bytes)
    ensures out == req + ([mark] + FormatNat(n) + CRLF)
  {
    out := req + [mark];
    out := out + FormatInt(n);
    out := out + ['\r', '\n'];
  }

  method AppendBulk(req: Bytes, arg: Bytes) returns (out: Bytes)
    ensures out == req + Bulk(arg)
  {
    out := AppendLength(req, '$', |arg|);
    out := out + arg;
    out := out + ['\r', '\n'];
  }

  lemma {:induction false} BulksStep(before: Bytes, args: seq<Bytes>)
    requires args != []
    ensures before + Bulk(args[0]) + Bulks(args[1..]) == before + Bulks(args)
  {
  }

  /** What goes on the wire: the count, then each argument behind its own length, every line ended by carriage return and line feed. */
  lemma {:induction false} BytesOnTheWire(args: seq<Bytes>, last: Bytes)
    ensures Command([]) == "*0\r\n"
    ensures Bulks(args + [last]) == Bulks(args) + "$" + FormatNat(|last|) + "\r\n" + last + "\r\n"
    ensures Command(args + [last]) == "*" + FormatNat(|args| + 1) + "\r\n" + Bulks(args + [last])
  {
    assert FormatNat(0) == "0";
    BulksPush(args, last);
    assert Bulk(last) == "$" + FormatNat(|last|) + "\r\n" + last + "\r\n";
  }

  lemma {:induction false} BulksPush(args: seq<Bytes>, last: Bytes)
    ensures Bulks(args + [last]) == Bulks(args) + Bulk(last)
  {
    if args == [] {
      assert args + [last] == [last] && [last][1..] == [];
      assert Bulk(last) + [] == Bulk(last) == [] + Bulk(last);
    } else {
      assert (args + [last])[1..] == args[1..] + [last];
      BulksPush(args[1..], last);
    }
  }

  // ---- commands, read back ----

  datatype DecodeError = Eof | NotAnArray | BadNumber | Panic

  function Prepend(args: seq<Bytes>, r: Result<seq<Bytes>, DecodeError>): Result<seq<Bytes>, DecodeError> {
    match r
    case Ok(more) => Ok(args + more)
    case Err(e) => Err(e)
  }

  function ReadFull(input: Bytes, size: nat): (Option<Bytes>, Bytes) {
    if |input| < size then (None, []) else (Some(input[..size]), input[size..])
  }

  /** One length line and its payload. The byte in front of the length is skipped unread. */
  function ReadArg(input: Bytes): (r: (Result<Bytes, DecodeError>, Bytes))
    ensures r.0.Ok? ==> |r.1| < |input|
  {
    var (line, rest) := SplitLine(input);
    if line.None? then (Err(Eof), rest)
    else
      match ParseInt(TrimSpace(line.value[1..]))
      case None => (Err(BadNumber), rest)
      case Some(size) =>
        // A buffer of size + 2 bytes: the length may be out of range.
        if size + 2 < 0 || size + 2 > MAX_INT64 then (Err(Panic), rest)
        else
          var (payload, left) := ReadFull(rest, size + 2);
          if payload.None? then (Err(Eof), left)
          else if size < 0 then (Err(Panic), left)
          else (Ok(payload.value[..size]), left)
  }

  function ReadArgs(count: nat, input: Bytes): (Result<seq<Bytes>, DecodeError>, Bytes) {
    if count == 0 then (Ok([]), input)
    else
      var (arg, rest) := ReadArg(input);
      match arg
      case Err(e) => (Err(e), rest)
      case Ok(a) =>
        var (more, left) := ReadArgs(count - 1, rest);
        (Prepend([a], more), left)
  }

  /** Reading `count` more arguments behind those already read. */
  function Continue(args: seq<Bytes>, count: nat, input: Bytes): (Result<seq<Bytes>, DecodeError>, Bytes) {
    var (more, left) := ReadArgs(count, input);
    (Prepend(args, more), left)
  }

  lemma {:induction false} ContinueFromNothing(count: nat, input: Bytes)
    ensures Continue([], count, input) == ReadArgs(count, input)
  {
    var more := ReadArgs(count, input).0;
    if more.Ok? {
      assert [] + more.value == more.value;
    }
  }

  lemma {:induction false} ContinueStep(args: seq<Bytes>, count: nat, input: Bytes)
    requires count > 0
    ensures
      var (arg, rest) := ReadArg(input);
      Continue(args, count, input)
        == if arg.Err? then (Err(arg.error), rest) else Continue(args + [arg.value], count - 1, rest)
  {
    var (arg, rest) := ReadArg(input);
    if arg.Ok? {
      var more := ReadArgs(count - 1, rest).0;
      if more.Ok? {
        assert args + ([arg.value] + more.value) == args + [arg.value] + more.value;
      }
    }
  }

  function ReadCommand(input: Bytes): (Result<seq<Bytes>, DecodeError>, Bytes) {
    var (header, rest) := SplitLine(input);
    if header.None? then (Err(Eof), rest)
    else if header.value[0] != '*' then (Err(NotAnArray), rest)
    else
      match ParseInt(TrimSpace(header.value[1..]))
      case None => (Err(BadNumber), rest)
      case Some(count) => if count < 0 then (Err(Panic), rest) else ReadArgs(count, rest)
  }

  /** Lengths a Go slice can have: every payload and its line end fit a buffer. */
  predicate Representable(args: seq<Bytes>) {
    |args| <= MAX_INT64 && PayloadsFit(args)
  }

  predicate PayloadsFit(args: seq<Bytes>) {
    args == [] || (|args[0]| + 2 <= MAX_INT64 && PayloadsFit(args[1..]))
  }

  lemma {:induction false} LengthLine(mark: Byte, n: nat, rest: Bytes)
    requires mark != '\n' && n <= MAX_INT64
    ensures SplitLine([mark] + FormatNat(n) + CRLF + rest) == (Some([mark] + FormatNat(n) + CRLF), rest)
    ensures ([mark] + FormatNat(n) + CRLF)[1..] == FormatNat(n) + CRLF
    ensures ParseInt(TrimSpace(FormatNat(n) + CRLF)) == Some(n)
  {
    SplitTerminatedLine([mark] + FormatNat(n), rest);
    TrimStripsLineEnd(FormatNat(n));
    ParseOfFormat(n);
    assert FormatInt(n) == FormatNat(n);
  }

  lemma {:induction false} BulkThenRest(head: Bytes, arg: Bytes, rest: Bytes)
    ensures head + arg + CRLF + rest == head + (arg + CRLF + rest)
  {
  }

  lemma {:induction false} PayloadThenRest(arg: Bytes, rest: Bytes)
    ensures
      var tail := arg + CRLF + rest;
      |tail| >= |arg| + 2 && tail[..|arg| + 2][..|arg|] == arg && tail[|arg| + 2..] == rest
  {
  }

  lemma {:induction false} ReadArgInvertsBulk(arg: Bytes, rest: Bytes)
    requires |arg| + 2 <= MAX_INT64
    ensures ReadArg(Bulk(arg) + rest) == (Ok(arg), rest)
  {
    var head, tail := ['$'] + FormatNat(|arg|) + CRLF, arg + CRLF + rest;
    LengthLine('$', |arg|, tail);
    BulkThenRest(head, arg, rest);
    PayloadThenRest(arg, rest);
  }

  lemma {:induction false} ConcatAssociates(a: Bytes, b: Bytes, c: Bytes)
    ensures a + b + c == a + (b + c)
  {
  }

  lemma {:induction false} ReadArgsStep(count: nat, input: Bytes, rest: Bytes, a: Bytes, more: seq<Bytes>, left: Bytes)
    requires ReadArg(input) == (Ok(a), rest) && ReadArgs(count, rest) == (Ok(more), left)
    ensures ReadArgs(count + 1, input) == (Ok([a] + more), left)
  {
  }

  lemma {:induction false} ReadArgsInvertsBulks(args: seq<Bytes>, rest: Bytes)
    requires PayloadsFit(args)
    ensures ReadArgs(|args|, Bulks(args) + rest) == (Ok(args), rest)
  {
    if args == [] {
      assert Bulks(args) + rest == rest;
    } else {
      var first, others := args[0], args[1..];
      var more := Bulks(others) + rest;
      ReadArgInvertsBulk(first, more);
      ReadArgsInvertsBulks(others, rest);
      ConcatAssociates(Bulk(first), Bulks(others), rest);
      ReadArgsStep(|others|, Bulk(first) + more, more, first, others, rest);
      assert [first] + others == args;
    }
  }

  /** Whatever bytes the arguments hold, the decoder finds them and stops where they stop. */
  lemma {:induction false} CommandRoundTrip(args: seq<Bytes>, rest: Bytes)
    requires Representable(args)
    ensures ReadCommand(Command(args) + rest) == (Ok(args), rest)
  {
    var head, tail := ['*'] + FormatNat(|args|) + CRLF, Bulks(args) + rest;
    LengthLine('*', |args|, tail);
    ConcatAssociates(head, Bulks(args), rest);
    HeaderThenArgs(head, |args|, tail);
    ReadArgsInvertsBulks(args, rest);
  }

  lemma {:induction false} HeaderThenArgs(head: Bytes, count: nat, tail: Bytes)
    requires head != [] && head[0] == '*' && SplitLine(head + tail) == (Some(head), tail)
    requires ParseInt(TrimSpace(head[1..])) == Some(count)
    ensures ReadCommand(head + tail) == ReadArgs(count, tail)
  {
  }

  /** No command is confused with another, nor with another plus what follows it. */
  lemma {:induction false} CommandsAreSelfDelimiting(a: seq<Bytes>, x: Bytes, b: seq<Bytes>, y: Bytes)
    requires Representable(a) && Representable(b)
    requires Command(a) + x == Command(b) + y
    ensures a == b && x == y
  {
    CommandRoundTrip(a, x);
    CommandRoundTrip(b, y);
  }

  // ---- replies ----

  datatype ReplyError =
    | ReadFailed
    | Truncated
    | EmptyReply
    | Unparseable
    | ServerError(message: Bytes)
    | Unexpected

  /** What one reply line, without its terminator, means to the caller. */
  function Judge(line: Bytes): Result<int, ReplyError> {
    if line == [] then Err(EmptyReply)
    else if line[0] == ':' then
      match ParseInt(line[1..])
      case None => Err(Unparseable)
      case Some(n) => Ok(n)
    else if line[0] == '-' then Err(ServerError(line[1..]))
    else Err(Unexpected)
  }

  function ReadInt(input: Bytes): (Result<int, ReplyError>, Bytes) {
    var (line, rest) := SplitLine(input);
    if line.None? then (Err(ReadFailed), rest)
    else if |line.value| < 2 then (Err(Truncated), rest)
    else (Judge(line.value[..|line.value| - 2]), rest)
  }

  function IntReply(n: int): Bytes {
    [':'] + FormatInt(n)
  }

  /** One reply line is consumed, and nothing behind it. */
  lemma {:induction false} ReplyLineConsumed(line: Bytes, rest: Bytes)
    requires NoLineFeed(line)
    ensures ReadInt(line + CRLF + rest) == (Judge(line), rest)
  {
    SplitTerminatedLine(line, rest);
    assert (line + CRLF)[..|line|] == line;
  }

  lemma {:induction false} IntReplyRoundTrip(n: int, rest: Bytes)
    ensures ReadInt(":" + FormatInt(n) + "\r\n" + rest)
         == (if -9_223_372_036_854_775_808 <= n <= 9_223_372_036_854_775_807 then Ok(n) else Err(Unparseable), rest)
  {
    assert IntReply(n) + CRLF + rest == ":" + FormatInt(n) + "\r\n" + rest;
    var text := FormatInt(n);
    forall k | 0 <= k < |text| ensures text[k] != '\n' {
      assert k > 0 ==> text[k] == text[1..][k - 1];
    }
    ReplyLineConsumed(IntReply(n), rest);
    assert IntReply(n)[1..] == text;
    ParseOfFormat(n);
  }

  /** Every other reply is an error: the server's own words behind a dash, or something this client does not read. */
  lemma {:induction false} OtherRepliesAreErrors(first: Byte, text: Bytes, rest: Bytes)
    requires first != '\n' && NoLineFeed(text)
    ensures ReadInt("\r\n" + rest) == (Err(EmptyReply), rest)
    ensures first == '-' ==> ReadInt([first] + text + "\r\n" + rest) == (Err(ServerError(text)), rest)
    ensures first != '-' && first != ':' ==> ReadInt([first] + text + "\r\n" + rest) == (Err(Unexpected), rest)
  {
    ReplyLineConsumed([], rest);
    assert [] + CRLF + rest == "\r\n" + rest;
    ReplyLineConsumed([first] + text, rest);
    assert ([first] + text)[1..] == text;
  }

  // ---- the reader object ----

  /** A buffered reader: the bytes that will arrive and have not been consumed. */
  class Reader {
    var input: Bytes

    constructor (input: Bytes)
      ensures this.input == input
    {
      this.input := input;
    }

    method ReadString() returns (line: Option<Bytes>)
      modifies this
      ensures (line, input) == SplitLine(old(input))
    {
      var i := 0;
      while i < |input| && input[i] != '\n'
        invariant 0 <= i <= |input|
        invariant NoLineFeed(input[..i])
      {
        i := i + 1;
        assert input[..i] == input[..i - 1] + [input[i - 1]];
      }
      if i == |input| {
        assert input[..i] == input;
        line, input := None, [];
      } else {
        SplitAt(input, i);
        line, input := Some(input[..i + 1]), input[i + 1..];
      }
    }

    /** Some bytes, at least one and at most `limit`: how many is the network's choice. */
    method Read(limit: nat, arrived: nat) returns (chunk: Bytes)
      requires limit > 0 && input != []
      modifies this
      ensures 0 < |chunk| <= limit && chunk + input == old(input)
    {
      var n := if arrived < 1 then 1 else if arrived > limit then limit else arrived;
      n := if n > |input| then |input| else n;
      chunk, input := input[..n], input[n..];
    }

    /** However the bytes are cut into chunks, the same bytes are read. */
    method ReadFullBuffer(size: nat, arrivals: nat -> nat) returns (buf: Option<Bytes>)
      modifies this
      ensures (buf, input) == ReadFull(old(input), size)
    {
      ghost var whole := input;
      var got: Bytes := [];
      var turn := 0;
      while |got| < size
        invariant |got| <= size && got + input == whole
        decreases size - |got|
      {
        if input == [] {
          return None;
        }
        var chunk := Read(size - |got|, arrivals(turn));
        got, turn := got + chunk, turn + 1;
      }
      assert |whole| >= size && got == whole[..size] && input == whole[size..];
      buf := Some(got);
    }

    method ReadCommandArray(arrivals: nat -> nat -> nat) returns (r: Result<seq<Bytes>, DecodeError>)
      modifies this
      ensures (r, input) == ReadCommand(old(input))
    {
      var header := ReadString();
      if header.None? {
        return Err(Eof);
      }
      if header.value[0] != '*' {
        return Err(NotAnArray);
      }
      var parsed := ParseInt(TrimSpace(header.value[1..]));
      if parsed.None? {
        return Err(BadNumber);
      }
      var count := parsed.value;
      if count < 0 {
        return Err(Panic);
      }
      r := ReadArgList(count, arrivals);
    }

    method ReadArgList(count: nat, arrivals: nat -> nat -> nat) returns (r: Result<seq<Bytes>, DecodeError>)
      modifies this
      ensures (r, input) == ReadArgs(count, old(input))
    {
      var args: seq<Bytes> := [];
      ghost var all := ReadArgs(count, input);
      ContinueFromNothing(count, input);
      for i := 0 to count
        invariant Continue(args, count - i, input) == all
      {
        ghost var before := input;
        var arg := ReadOneArg(arrivals(i));
        ContinueStep(args, count - i, before);
        if arg.Err? {
          return Err(arg.error);
        }
        args := args + [arg.value];
      }
      assert args + [] == args;
      r := Ok(args);
    }

    method ReadOneArg(arrivals: nat -> nat) returns (r: Result<Bytes, DecodeError>)
      modifies this
      ensures (r, input) == ReadArg(old(input))
    {
      var line := ReadString();
      if line.None? {
        return Err(Eof);
      }
      var parsed := ParseInt(TrimSpace(line.value[1..]));
      if parsed.None? {
        return Err(BadNumber);
      }
      var size := parsed.value;
      if size + 2 < 0 || size + 2 > MAX_INT64 {
        return Err(Panic);
      }
      var buf := ReadFullBuffer(size + 2, arrivals);
      if buf.None? {
        return Err(Eof);
      }
      if size < 0 {
        return Err(Panic);
      }
      r := Ok(buf.value[..size]);
    }

    method ReadIntReply() returns (r: Result<int, ReplyError>)
      modifies this
      ensures (r, input) == ReadInt(old(input))
    {
      var line := ReadString();
      if line.None? {
        return Err(ReadFailed);
      }
      if |line.value| < 2 {
        return Err(Truncated);
      }
      r := Judge(line.value[..|line.value| - 2]);
    }
  }

  lemma {:induction false} SplitAt(input: Bytes, i: nat)
    requires i < |input| && input[i] == '\n' && NoLineFeed(input[..i])
    ensures SplitLine(input) == (Some(input[..i + 1]), input[i + 1..])
  {
    if i > 0 {
      assert input[0] == input[..i][0];
      assert input[1..][..i - 1] == input[..i][1..];
      SplitAt(input[1..], i - 1);
      assert [input[0]] + input[1..][..i] == input[..i + 1];
    }
  }
}
