/**
 * The connection pool: `Client.Int`, `take` and `put`. The class is one caller at
 * a time; `ConnectionPool` interleaves any number of them byte by byte.
 */
module RespClient {
  import opened Wrappers
  import opened Decimal
  import Resp

  /** What the network does to one call. The server answers with one line. */
  datatype Fate = DialFails | WriteFails | TimesOut | Answers(line: Bytes)

  datatype CallError = Unreachable | WriteFailed | TimedOut | BadReply(reply: Resp.ReplyError)

  class Client {
    const size: nat
    // Idle connections, oldest first; a connection is its reader.
    var pool: seq<Resp.Reader>
    // Every byte written, on whatever connection.
    var sent: Bytes

    ghost predicate Valid()
      reads this, pool
    {
      && |pool| <= size && size > 0
      && (forall i, j :: 0 <= i < j < |pool| ==> pool[i] != pool[j])
      && forall i :: 0 <= i < |pool| ==> pool[i].input == []
    }

    constructor (size: int)
      ensures Valid() && pool == [] && sent == []
      ensures this.size == if size <= 0 then 4 else size
    {
      this.size := if size <= 0 then 4 else size;
      pool, sent := [], [];
    }

    method Take(fate: Fate) returns (cn: Option<Resp.Reader>)
      requires Valid()
      modifies this`pool
      ensures Valid()
      ensures old(pool) != [] ==> cn == Some(old(pool)[0]) && pool == old(pool)[1..]
      ensures old(pool) == [] ==> pool == [] && (cn.None? <==> fate.DialFails?)
      ensures cn.Some? ==> cn.value !in pool && cn.value.input == []
      ensures cn.Some? && old(pool) == [] ==> fresh(cn.value)
    {
      if pool != [] {
        cn, pool := Some(pool[0]), pool[1..];
      } else if fate.DialFails? {
        cn := None;
      } else {
        var dialed := new Resp.Reader([]);
        cn := Some(dialed);
      }
    }

    /** Returns a connection, unless the pool is full. */
    method Put(cn: Resp.Reader)
      requires Valid() && cn !in pool && cn.input == []
      modifies this`pool
      ensures Valid()
      ensures pool == if |old(pool)| < size then old(pool) + [cn] else old(pool)
    {
      if |pool| < size {
        pool := pool + [cn];
      }
    }

    /**
     * One command, one reply. A success is the server's answer to this very
     * command, and only an answered connection goes back to the pool.
     */
    method Int(args: seq<Bytes>, fate: Fate) returns (r: Result<int, CallError>)
      requires Valid()
      requires fate.Answers? ==> Resp.NoLineFeed(fate.line)
      modifies this`pool, this`sent, pool
      ensures Valid()
      ensures
        match fate
        case DialFails => r == Err(if old(pool) == [] then Unreachable else TimedOut)
        case WriteFails => r == Err(WriteFailed)
        case TimesOut => r == Err(TimedOut)
        case Answers(line) =>
          match Resp.Judge(line)
          case Err(e) => r == Err(BadReply(e))
          case Ok(n) => r == Ok(n)
      ensures sent == old(sent) + if fate.WriteFails? || r == Err(Unreachable) then [] else Resp.Command(args)
      ensures forall n :: r == Ok(n) <==> fate.Answers? && Resp.Judge(fate.line) == Ok(n)
      ensures old(pool) != [] ==>
        pool == old(pool)[1..] + if r.Ok? then [old(pool)[0]] else []
      ensures old(pool) == [] ==> |pool| == (if r.Ok? then 1 else 0) && forall cn :: cn in pool ==> fresh(cn)
    {
      var cn := Take(fate);
      if cn.None? {
        return Err(Unreachable);
      }
      var req := Resp.Write(args);
      if !fate.WriteFails? {
        sent := sent + req;
      }
      match fate
      case WriteFails => r := Err(WriteFailed);
      case DialFails | TimesOut => r := Err(TimedOut);
      case Answers(line) =>
        cn.value.input := cn.value.input + (line + Resp.CRLF);
        Resp.ReplyLineConsumed(line, []);
        assert cn.value.input == line + Resp.CRLF + [];
        var reply := cn.value.ReadIntReply();
        match reply
        case Err(e) => r := Err(BadReply(e));
        case Ok(n) =>
          Put(cn.value);
          r := Ok(n);
    }
  }
}

/** Every interleaving of calls, replies and timeouts over one pool. */
module ConnectionPool {
  import opened Wrappers
  import opened Decimal
  import Resp
  import opened RespClient

  /** One connection: the calls whose commands were written on it, and the bytes coming back. */
  datatype Conn = Conn(calls: seq<nat>, answered: nat, transit: Bytes, inbox: Bytes)

  datatype Call = Holding(conn: nat) | Waiting(conn: nat) | Done(result: Option<int>)

  datatype State = State(
    size: nat,
    pool: seq<nat>,
    conns: map<nat, Conn>,
    calls: map<nat, Call>,
    // The line the server sent for each call it answered.
    answers: map<nat, Bytes>)

  datatype Event =
    | Take(call: nat)
    | Dial(call: nat, conn: nat)
    | DialFail(call: nat)
    | Write(call: nat)
    | WriteFail(call: nat)
    | Serve(conn: nat, line: Bytes)
    | Deliver(conn: nat, count: nat)
    | Read(call: nat)
    | Timeout(call: nat)
    | Close

  function Init(size: nat): State {
    State(size, [], map[], map[], map[])
  }

  predicate Holds(s: State, call: nat) {
    call in s.calls && s.calls[call].Holding? && s.calls[call].conn in s.conns
  }

  predicate Waits(s: State, call: nat) {
    call in s.calls && s.calls[call].Waiting? && s.calls[call].conn in s.conns
  }

  predicate Enabled(s: State, e: Event) {
    match e
    case Take(call) => call !in s.calls && s.pool != [] && s.pool[0] in s.conns
    case Dial(call, conn) => call !in s.calls && s.pool == [] && conn !in s.conns
    case DialFail(call) => call !in s.calls && s.pool == []
    case Write(call) => Holds(s, call)
    case WriteFail(call) => Holds(s, call)
    // The server answers the oldest unanswered command of the connection.
    case Serve(conn, line) =>
      conn in s.conns && s.conns[conn].answered < |s.conns[conn].calls| && Resp.NoLineFeed(line)
    case Deliver(conn, count) => conn in s.conns && count <= |s.conns[conn].transit|
    case Read(call) => Waits(s, call) && !Resp.NoLineFeed(s.conns[s.calls[call].conn].inbox)
    case Timeout(call) => Waits(s, call)
    case Close => true
  }

  function Finish(s: State, call: nat, result: Option<int>): State {
    s.(calls := s.calls[call := Done(result)])
  }

  function Step(s: State, e: Event): State
    requires Enabled(s, e)
  {
    match e
    case Take(call) => s.(pool := s.pool[1..], calls := s.calls[call := Holding(s.pool[0])])
    case Dial(call, conn) =>
      s.(conns := s.conns[conn := Conn([], 0, [], [])], calls := s.calls[call := Holding(conn)])
    case DialFail(call) => Finish(s, call, None)
    case Write(call) =>
      var id := s.calls[call].conn;
      var c := s.conns[id];
      s.(conns := s.conns[id := c.(calls := c.calls + [call])], calls := s.calls[call := Waiting(id)])
    case WriteFail(call) => Finish(s.(conns := s.conns - {s.calls[call].conn}), call, None)
    case Serve(id, line) =>
      var c := s.conns[id];
      s.(conns := s.conns[id := c.(answered := c.answered + 1, transit := c.transit + (line + Resp.CRLF))],
         answers := s.answers[c.calls[c.answered] := line])
    case Deliver(id, count) =>
      var c := s.conns[id];
      s.(conns := s.conns[id := c.(inbox := c.inbox + c.transit[..count], transit := c.transit[count..])])
    case Read(call) =>
      var id := s.calls[call].conn;
      var c := s.conns[id];
      var (reply, rest) := Resp.ReadInt(c.inbox);
      if reply.Ok? && |s.pool| < s.size then
        Finish(s.(pool := s.pool + [id], conns := s.conns[id := c.(inbox := rest)]), call, Some(reply.value))
      else
        Finish(s.(conns := s.conns - {id}), call, if reply.Ok? then Some(reply.value) else None)
    case Timeout(call) => Finish(s.(conns := s.conns - {s.calls[call].conn}), call, None)
    case Close => s.(pool := [])
  }

  ghost predicate IsRun(s: State, events: seq<Event>)
    decreases |events|
  {
    events == [] || (Enabled(s, events[0]) && IsRun(Step(s, events[0]), events[1..]))
  }

  ghost function Run(s: State, events: seq<Event>): State
    requires IsRun(s, events)
    decreases |events|
  {
    if events == [] then s else Run(Step(s, events[0]), events[1..])
  }

  // ---- what every run keeps ----

  /** Nothing written that is unanswered, nothing answered that is unread. */
  predicate Quiet(c: Conn) {
    c.answered == |c.calls| && c.transit == [] && c.inbox == []
  }

  /** Exactly one command outstanding, written by `call`: unanswered, or answered and unread. */
  predicate Expecting(s: State, c: Conn, call: nat) {
    && c.calls != [] && c.calls[|c.calls| - 1] == call
    && (c.answered == |c.calls| - 1 || c.answered == |c.calls|)
    && (c.answered < |c.calls| ==> c.inbox == [] && c.transit == [])
    && (c.answered == |c.calls| ==>
          && call in s.answers && Resp.NoLineFeed(s.answers[call])
          && c.inbox + c.transit == s.answers[call] + Resp.CRLF)
  }

  predicate Owns(s: State, call: nat, conn: nat) {
    call in s.calls && !s.calls[call].Done? && s.calls[call].conn == conn
  }

  /** A held connection is quiet, a waiting call's connection owes exactly its reply, a result is the call's own answer. */
  predicate CallOk(s: State, call: nat) {
    call in s.calls ==>
      match s.calls[call]
      case Holding(id) => id in s.conns && id !in s.pool && Quiet(s.conns[id])
      case Waiting(id) => id in s.conns && id !in s.pool && Expecting(s, s.conns[id], call)
      case Done(None) => true
      case Done(Some(n)) => call in s.answers && Resp.Judge(s.answers[call]) == Ok(n)
  }

  predicate Exclusive(s: State, a: nat, b: nat, conn: nat) {
    Owns(s, a, conn) && Owns(s, b, conn) ==> a == b
  }

  /** Whatever is outstanding on a connection is outstanding for the call that wrote last. */
  predicate ConnOk(s: State, id: nat) {
    id in s.conns && !Quiet(s.conns[id]) ==>
      && s.conns[id].calls != []
      && var call := s.conns[id].calls[|s.conns[id].calls| - 1];
         call in s.calls && s.calls[call] == Waiting(id)
  }

  predicate PoolOk(s: State, i: nat) {
    i < |s.pool| ==>
      && s.pool[i] in s.conns && Quiet(s.conns[s.pool[i]])
      && forall j :: 0 <= j < i ==> s.pool[j] != s.pool[i]
  }

  ghost predicate Inv(s: State) {
    && |s.pool| <= s.size
    && (forall i :: PoolOk(s, i))
    && (forall call :: CallOk(s, call))
    && (forall a, b, conn :: Exclusive(s, a, b, conn))
    && (forall id :: ConnOk(s, id))
  }

  /** The reply a waiting call can read is complete and is its own. */
  lemma {:induction false} ReadSeesOwnAnswer(s: State, call: nat)
    requires CallOk(s, call) && Enabled(s, Read(call))
    ensures
      var c := s.conns[s.calls[call].conn];
      && call in s.answers && Resp.ReadInt(c.inbox) == (Resp.Judge(s.answers[call]), [])
      && c.answered == |c.calls| && c.transit == []
  {
    var c := s.conns[s.calls[call].conn];
    var line := s.answers[call];
    WholeLineArrived(line, c.inbox, c.transit);
    Resp.ReplyLineConsumed(line, []);
    assert line + Resp.CRLF + [] == c.inbox;
  }

  /** The command a server answers next is the one its waiting call wrote. */
  lemma {:induction false} ServeReachesItsCall(s: State, id: nat, line: Bytes)
    requires Inv(s) && Enabled(s, Serve(id, line))
    ensures
      var c := s.conns[id];
      var call := c.calls[c.answered];
      && call in s.calls && s.calls[call] == Waiting(id)
      && c.answered == |c.calls| - 1 && c.inbox == [] && c.transit == []
  {
    assert ConnOk(s, id);
    var c := s.conns[id];
    assert CallOk(s, c.calls[|c.calls| - 1]);
  }

  /** The connection an event works on, if it has one. */
  function Touched(s: State, e: Event): Option<nat>
    requires Enabled(s, e)
  {
    match e
    case Take(_) => Some(s.pool[0])
    case Dial(_, id) => Some(id)
    case Write(call) => Some(s.calls[call].conn)
    case WriteFail(call) => Some(s.calls[call].conn)
    case Serve(id, _) => Some(id)
    case Deliver(id, _) => Some(id)
    case Read(call) => Some(s.calls[call].conn)
    case Timeout(call) => Some(s.calls[call].conn)
    case _ => None
  }

  lemma {:induction false} ExclusiveKept(s: State, e: Event, a: nat, b: nat, conn: nat)
    requires Inv(s) && Enabled(s, e)
    ensures Exclusive(Step(s, e), a, b, conn)
  {
    assert Exclusive(s, a, b, conn) && CallOk(s, a) && CallOk(s, b);
    if e.Take? {
      assert PoolOk(s, 0);
    }
  }

  /** A call the event is not about keeps its standing. */
  lemma {:induction false} OtherCallKept(s: State, e: Event, call: nat)
    requires Inv(s) && Enabled(s, e)
    requires call in s.calls && call in Step(s, e).calls && s.calls[call] == Step(s, e).calls[call]
    requires !s.calls[call].Done? ==> Touched(s, e) != Some(s.calls[call].conn)
    ensures CallOk(Step(s, e), call)
  {
    assert CallOk(s, call);
    if e.Serve? {
      ServeReachesItsCall(s, e.conn, e.line);
    }
  }

  lemma {:induction false} CallKeptByServe(s: State, id: nat, line: Bytes, call: nat)
    requires Inv(s) && Enabled(s, Serve(id, line))
    ensures CallOk(Step(s, Serve(id, line)), call)
  {
    ServeReachesItsCall(s, id, line);
    if Owns(s, call, id) {
      assert CallOk(s, call);
      assert Exclusive(s, call, s.conns[id].calls[s.conns[id].answered], id);
      assert [] + ([] + (line + Resp.CRLF)) == line + Resp.CRLF;
    } else if call in s.calls {
      OtherCallKept(s, Serve(id, line), call);
    }
  }

  lemma {:induction false} CallKeptByDeliver(s: State, id: nat, count: nat, call: nat)
    requires Inv(s) && Enabled(s, Deliver(id, count))
    ensures CallOk(Step(s, Deliver(id, count)), call)
  {
    assert CallOk(s, call);
    var c := s.conns[id];
    if Owns(s, call, id) {
      assert c.inbox + c.transit == (c.inbox + c.transit[..count]) + c.transit[count..];
    } else if call in s.calls {
      OtherCallKept(s, Deliver(id, count), call);
    }
  }

  lemma {:induction false} CallKeptByTake(s: State, taker: nat, call: nat)
    requires Inv(s) && Enabled(s, Take(taker))
    ensures CallOk(Step(s, Take(taker)), call)
  {
    assert CallOk(s, call) && PoolOk(s, 0);
    TakenLeavesPool(s);
  }

  lemma {:induction false} CallKeptByRead(s: State, reader: nat, call: nat)
    requires Inv(s) && Enabled(s, Read(reader))
    ensures CallOk(Step(s, Read(reader)), call)
  {
    assert CallOk(s, call) && CallOk(s, reader);
    ReadSeesOwnAnswer(s, reader);
    assert Exclusive(s, call, reader, s.calls[reader].conn);
  }

  lemma {:induction false} CallKept(s: State, e: Event, call: nat)
    requires Inv(s) && Enabled(s, e)
    ensures CallOk(Step(s, e), call)
  {
    assert CallOk(s, call);
    match e
    case Take(x) => CallKeptByTake(s, x, call);
    case Serve(id, line) => CallKeptByServe(s, id, line, call);
    case Deliver(id, count) => CallKeptByDeliver(s, id, count, call);
    case Read(x) => CallKeptByRead(s, x, call);
    case Write(x) => assert Exclusive(s, call, x, s.calls[x].conn);
    case WriteFail(x) => assert Exclusive(s, call, x, s.calls[x].conn);
    case Timeout(x) => assert Exclusive(s, call, x, s.calls[x].conn);
    case _ =>
  }

  lemma {:induction false} TakenLeavesPool(s: State)
    requires Inv(s) && s.pool != []
    ensures s.pool[0] !in s.pool[1..]
  {
    forall k | 1 <= k < |s.pool| ensures s.pool[k] != s.pool[0] {
      assert PoolOk(s, k);
    }
  }

  lemma {:induction false} ConnKept(s: State, e: Event, id: nat)
    requires Inv(s) && Enabled(s, e)
    ensures ConnOk(Step(s, e), id)
  {
    assert ConnOk(s, id);
    match e
    case Write(x) => assert CallOk(s, x);
    case Serve(conn, line) => ServeReachesItsCall(s, conn, line);
    case Read(x) => ReadSeesOwnAnswer(s, x);
    case Timeout(x) => assert CallOk(s, x);
    case WriteFail(x) => assert CallOk(s, x);
    case _ =>
  }

  lemma {:induction false} PoolKept(s: State, e: Event, i: nat)
    requires Inv(s) && Enabled(s, e)
    ensures PoolOk(Step(s, e), i)
  {
    assert PoolOk(s, i) && PoolOk(s, i + 1);
    match e
    case Read(x) =>
      ReadSeesOwnAnswer(s, x);
      assert CallOk(s, x);
    case Write(x) => assert CallOk(s, x);
    case Timeout(x) => assert CallOk(s, x);
    case WriteFail(x) => assert CallOk(s, x);
    case Serve(conn, line) => ServeReachesItsCall(s, conn, line); assert CallOk(s, s.conns[conn].calls[s.conns[conn].answered]);
    case _ =>
  }

  lemma {:induction false} StepKeepsInv(s: State, e: Event)
    requires Inv(s) && Enabled(s, e)
    ensures Inv(Step(s, e))
  {
    forall i ensures PoolOk(Step(s, e), i) { PoolKept(s, e, i); }
    forall call ensures CallOk(Step(s, e), call) { CallKept(s, e, call); }
    forall a, b, conn ensures Exclusive(Step(s, e), a, b, conn) { ExclusiveKept(s, e, a, b, conn); }
    forall id ensures ConnOk(Step(s, e), id) { ConnKept(s, e, id); }
  }

  lemma {:induction false} RunKeepsInv(s: State, events: seq<Event>)
    requires Inv(s) && IsRun(s, events)
    ensures Inv(Run(s, events)) && Run(s, events).size == s.size
    decreases |events|
  {
    if events != [] {
      StepKeepsInv(s, events[0]);
      RunKeepsInv(Step(s, events[0]), events[1..]);
    }
  }

  /** However calls, replies and timeouts interleave, no caller gets another caller's reply. */
  lemma {:induction false} NoCrossTalk(size: nat, events: seq<Event>, call: nat, n: int)
    requires IsRun(Init(size), events)
    requires var s := Run(Init(size), events); call in s.calls && s.calls[call] == Done(Some(n))
    ensures
      var s := Run(Init(size), events);
      call in s.answers && Resp.Judge(s.answers[call]) == Ok(n)
  {
    RunKeepsInv(Init(size), events);
    assert CallOk(Run(Init(size), events), call);
  }

  /** The pool stays within its size and holds each idle connection once, with nothing left on it. */
  lemma {:induction false} PooledConnectionsAreClean(size: nat, events: seq<Event>)
    requires IsRun(Init(size), events)
    ensures
      var s := Run(Init(size), events);
      && |s.pool| <= size
      && (forall i, j :: 0 <= i < j < |s.pool| ==> s.pool[i] != s.pool[j])
      && (forall i :: 0 <= i < |s.pool| ==> s.pool[i] in s.conns && Quiet(s.conns[s.pool[i]]))
      && (forall call, conn :: Owns(s, call, conn) ==> conn !in s.pool)
  {
    RunKeepsInv(Init(size), events);
    var s := Run(Init(size), events);
    forall j | 0 <= j < |s.pool|
      ensures s.pool[j] in s.conns && Quiet(s.conns[s.pool[j]])
      ensures forall i :: 0 <= i < j ==> s.pool[i] != s.pool[j]
    {
      assert PoolOk(s, j);
    }
    forall call, conn | Owns(s, call, conn) ensures conn !in s.pool {
      assert CallOk(s, call);
    }
  }

  // ---- one call alone ----

  /** The connection a call gets: the oldest pooled one, else the one it dials. */
  function Obtained(s: State, dialed: nat): nat {
    if s.pool == [] then dialed else s.pool[0]
  }

  function Start(s: State, call: nat, dialed: nat): Event {
    if s.pool == [] then Dial(call, dialed) else Take(call)
  }

  /** What happens on the connection a call holds. */
  function Exchange(call: nat, id: nat, fate: Fate): seq<Event> {
    match fate
    case WriteFails => [WriteFail(call)]
    case Answers(line) => [Write(call), Serve(id, line), Deliver(id, |line + Resp.CRLF|), Read(call)]
    case DialFails | TimesOut => [Write(call), Timeout(call)]
  }

  /** The steps of one call nobody interrupts. */
  function Alone(s: State, call: nat, dialed: nat, fate: Fate): seq<Event> {
    if s.pool == [] && fate.DialFails? then [DialFail(call)]
    else [Start(s, call, dialed)] + Exchange(call, Obtained(s, dialed), fate)
  }

  /** The call's result, and what else it leaves: its connection pooled after a success, dropped otherwise. */
  ghost predicate Settles(s: State, call: nat, id: nat, fate: Fate, t: State) {
    && t.calls.Keys == s.calls.Keys + {call} && t.calls[call].Done?
    && (forall n :: t.calls[call].result == Some(n) <==> fate.Answers? && Resp.Judge(fate.line) == Ok(n))
    && t.conns.Keys == s.conns.Keys - {id} + (if t.calls[call].result.Some? then {id} else {})
    && (forall other :: other in s.conns && other != id ==> t.conns[other] == s.conns[other])
    && (forall other :: other in s.calls && other != call ==> t.calls[other] == s.calls[other])
  }

  lemma {:induction false} RunFirst(s: State, e: Event, rest: seq<Event>)
    requires Enabled(s, e) && IsRun(Step(s, e), rest)
    ensures IsRun(s, [e] + rest) && Run(s, [e] + rest) == Run(Step(s, e), rest)
  {
    assert ([e] + rest)[1..] == rest;
  }

  lemma {:induction false} LineRead(line: Bytes)
    requires Resp.NoLineFeed(line)
    ensures Resp.ReadInt([] + (line + Resp.CRLF)) == (Resp.Judge(line), [])
    ensures !Resp.NoLineFeed([] + (line + Resp.CRLF))
  {
    Resp.ReplyLineConsumed(line, []);
    assert line + Resp.CRLF + [] == [] + (line + Resp.CRLF);
    assert ([] + (line + Resp.CRLF))[|line| + 1] == '\n';
  }

  lemma {:induction false} AnswerRuns(s: State, call: nat, line: Bytes)
    requires CallOk(s, call) && Holds(s, call) && |s.pool| < s.size && Resp.NoLineFeed(line)
    ensures
      var id := s.calls[call].conn;
      var events := Exchange(call, id, Answers(line));
      && IsRun(s, events) && Settles(s, call, id, Answers(line), Run(s, events))
      && Run(s, events).pool == s.pool + if Run(s, events).calls[call].result.Some? then [id] else []
  {
    var id := s.calls[call].conn;
    var s1 := Step(s, Write(call));
    var s2 := Step(s1, Serve(id, line));
    var s3 := Step(s2, Deliver(id, |line + Resp.CRLF|));
    LineRead(line);
    assert s2.conns[id].transit == [] + (line + Resp.CRLF);
    assert s3.conns[id].inbox == [] + (line + Resp.CRLF);
    var t := Step(s3, Read(call));
    assert IsRun(t, []);
    RunFirst(s3, Read(call), []);
    RunFirst(s2, Deliver(id, |line + Resp.CRLF|), [Read(call)]);
    RunFirst(s1, Serve(id, line), [Deliver(id, |line + Resp.CRLF|), Read(call)]);
    RunFirst(s, Write(call), [Serve(id, line), Deliver(id, |line + Resp.CRLF|), Read(call)]);
    assert Exchange(call, id, Answers(line)) == [Write(call)] + [Serve(id, line), Deliver(id, |line + Resp.CRLF|), Read(call)];
  }

  lemma {:induction false} ExchangeRuns(s: State, call: nat, fate: Fate)
    requires CallOk(s, call) && Holds(s, call) && |s.pool| < s.size
    requires fate.Answers? ==> Resp.NoLineFeed(fate.line)
    ensures
      var id := s.calls[call].conn;
      var events := Exchange(call, id, fate);
      && IsRun(s, events) && Settles(s, call, id, fate, Run(s, events))
      && Run(s, events).pool == s.pool + if Run(s, events).calls[call].result.Some? then [id] else []
  {
    match fate
    case Answers(line) => AnswerRuns(s, call, line);
    case WriteFails => RunFirst(s, WriteFail(call), []);
    case DialFails | TimesOut =>
      var s1 := Step(s, Write(call));
      RunFirst(s1, Timeout(call), []);
      RunFirst(s, Write(call), [Timeout(call)]);
  }

  lemma {:induction false} Started(s: State, call: nat, dialed: nat)
    requires Inv(s) && s.size > 0 && call !in s.calls && dialed !in s.conns
    ensures
      var start := Start(s, call, dialed);
      && Enabled(s, start)
      && var t := Step(s, start);
      && CallOk(t, call) && t.calls == s.calls[call := Holding(Obtained(s, dialed))] && Holds(t, call)
      && t.pool == (if s.pool == [] then [] else s.pool[1..]) && |t.pool| < t.size
      && t.conns.Keys == s.conns.Keys + {Obtained(s, dialed)}
      && forall other :: other in s.conns ==> t.conns[other] == s.conns[other]
  {
    assert PoolOk(s, 0);
    CallKept(s, Start(s, call, dialed), call);
  }

  lemma {:induction false} SettlesFromStart(s: State, mid: State, call: nat, id: nat, fate: Fate, t: State)
    requires call !in s.calls && mid.calls == s.calls[call := Holding(id)]
    requires mid.conns.Keys == s.conns.Keys + {id}
    requires forall other :: other in s.conns ==> mid.conns[other] == s.conns[other]
    requires Settles(mid, call, id, fate, t)
    ensures Settles(s, call, id, fate, t)
  {
  }

  lemma {:induction false} UndialedRuns(s: State, call: nat, dialed: nat)
    requires s.pool == [] && call !in s.calls && dialed !in s.conns
    ensures IsRun(s, [DialFail(call)])
    ensures Settles(s, call, dialed, DialFails, Run(s, [DialFail(call)]))
    ensures Run(s, [DialFail(call)]).pool == [] && Run(s, [DialFail(call)]).calls[call] == Done(None)
  {
    RunFirst(s, DialFail(call), []);
  }

  /** Uninterrupted, the steps are `Client.Int`: the same result, and the same pool left. */
  lemma {:induction false} IntIsARun(s: State, call: nat, dialed: nat, fate: Fate)
    requires Inv(s) && s.size > 0 && call !in s.calls && dialed !in s.conns
    requires fate.Answers? ==> Resp.NoLineFeed(fate.line)
    ensures
      var events, id := Alone(s, call, dialed, fate), Obtained(s, dialed);
      && IsRun(s, events) && Settles(s, call, id, fate, Run(s, events))
      && Run(s, events).pool ==
           (if s.pool == [] then [] else s.pool[1..])
           + if Run(s, events).calls[call].result.Some? then [id] else []
  {
    if s.pool == [] && fate.DialFails? {
      UndialedRuns(s, call, dialed);
    } else {
      var id := Obtained(s, dialed);
      var start := Start(s, call, dialed);
      Started(s, call, dialed);
      var mid := Step(s, start);
      ExchangeRuns(mid, call, fate);
      RunFirst(s, start, Exchange(call, id, fate));
      SettlesFromStart(s, mid, call, id, fate, Run(mid, Exchange(call, id, fate)));
    }
  }

  /** Once a line feed of the reply is in the inbox, the whole line is. */
  lemma {:induction false} WholeLineArrived(line: Bytes, inbox: Bytes, transit: Bytes)
    requires Resp.NoLineFeed(line) && inbox + transit == line + Resp.CRLF && !Resp.NoLineFeed(inbox)
    ensures inbox == line + Resp.CRLF && transit == []
  {
    var k :| 0 <= k < |inbox| && inbox[k] == '\n';
    assert (inbox + transit)[k] == '\n';
    assert (line + Resp.CRLF)[k] == '\n' && (line + Resp.CRLF)[|line|] == '\r';
    assert k == |line| + 1;
    assert |inbox + transit| == |line| + 2;
    assert inbox == (inbox + transit)[..|inbox|];
  }
}
