/** Reading and writing whole buffers over a transport that moves bytes a few at a time. */
module Transfer {
  import opened Wrappers
  import opened Framing

  /** What one call of `read` or `write` does. Reads and writes of nothing count as not ready. */
  datatype Turn =
    | Moves(n: nat)
    | Interrupted
    | NotReady(expired: bool)
    | Breaks

  datatype IoError = TimedOut | Broken

  /** A connection: bytes on their way in, bytes written so far, and what its next calls will do. */
  class Connection {
    var incoming: seq<Byte>
    var outgoing: seq<Byte>
    var turns: seq<Turn>

    constructor (incoming: seq<Byte>, turns: seq<Turn>)
      ensures this.incoming == incoming && outgoing == [] && this.turns == turns
    {
      this.incoming, this.turns := incoming, turns;
      outgoing := [];
    }

    /** No further calls means that nothing moves until the deadline. */
    method NextTurn() returns (turn: Turn)
      modifies this`turns
      ensures turn == (if old(turns) == [] then NotReady(true) else old(turns)[0])
      ensures turns == (if old(turns) == [] then [] else old(turns)[1..])
    {
      if turns == [] {
        return NotReady(true);
      }
      turn := turns[0];
      turns := turns[1..];
    }
  }

  function Least(a: nat, b: nat): nat {
    if a < b then a else b
  }

  /** The first `n` bytes are gone, `rest` is what follows. */
  predicate Dropped(all: seq<Byte>, n: nat, rest: seq<Byte>) {
    n <= |all| && rest == all[n..]
  }

  lemma PartlyRead(all: seq<Byte>, read: seq<Byte>, rest: seq<Byte>)
    requires all == read + rest
    ensures Dropped(all, |read|, rest)
  {
  }

  /** An error has its cause among the calls made: nothing gives up that the transport did not. */
  predicate Blamed(error: IoError, before: seq<Turn>, after: seq<Turn>) {
    match error
    case Broken => Breaks in before
    case TimedOut => NotReady(true) in before || after == []
  }

  predicate IsCause(turn: Turn) {
    turn.Breaks? || turn == NotReady(true)
  }

  ghost predicate NoCause(turns: seq<Turn>, calls: nat)
    requires calls <= |turns|
  {
    forall i | 0 <= i < calls :: !IsCause(turns[i])
  }

  /**
    A transfer ends after `calls` calls at the first that is a cause to, or when there are no more, or
    is complete.
   */
  ghost predicate EndsAtCause(error: Option<IoError>, turns: seq<Turn>, calls: nat) {
    && calls <= |turns|
    && match error
       case None => NoCause(turns, calls)
       case Some(Broken) => calls > 0 && turns[calls - 1].Breaks? && NoCause(turns, calls - 1)
       case Some(TimedOut) =>
         || (calls > 0 && turns[calls - 1] == NotReady(true) && NoCause(turns, calls - 1))
         || (calls == |turns| && NoCause(turns, calls))
  }

  /** The bytes the first calls are ready to move. */
  function Offered(turns: seq<Turn>, calls: nat): nat
    requires calls <= |turns|
  {
    if calls == 0 then 0
    else Offered(turns, calls - 1) + (if turns[calls - 1].Moves? then turns[calls - 1].n else 0)
  }

  lemma CauseIsBlamed(error: IoError, turns: seq<Turn>, calls: nat)
    requires EndsAtCause(Some(error), turns, calls)
    ensures Blamed(error, turns, turns[calls..])
  {
  }

  lemma CallsLeft(turns: seq<Turn>, calls: nat)
    requires calls <= |turns|
    ensures Within(turns[calls..], turns)
  {
  }

  predicate Within(after: seq<Turn>, before: seq<Turn>) {
    forall t | t in after :: t in before
  }

  /** Moves up to `n` of the next bytes to the buffer, from `at` on, as far as there is room. */
  method Fill(c: Connection, buffer: array<Byte>, from: nat, at: nat, n: nat, ghost all: seq<Byte>) returns (k: nat)
    requires from <= at <= buffer.Length && all == buffer[from..at] + c.incoming
    modifies c`incoming, buffer
    ensures k == Least(n, Least(buffer.Length - at, |old(c.incoming)|))
    ensures buffer[..from] == old(buffer[..from])
    ensures all == buffer[from..at + k] + c.incoming && |c.incoming| == |old(c.incoming)| - k
  {
    ghost var before, chunk := buffer[..at], c.incoming;
    k := Least(n, Least(buffer.Length - at, |c.incoming|));
    forall i | 0 <= i < k { buffer[at + i] := c.incoming[i]; }
    assert buffer[..at] == before;
    assert buffer[..from] == before[..from];
    assert buffer[from..at + k] == before[from..] + chunk[..k];
    c.incoming := c.incoming[k..];
  }

  /** All that was offered has been moved, but for what was not there or not needed. */
  predicate Keeps(moved: nat, offered: nat, left: nat, room: nat) {
    moved <= offered && (moved < offered ==> left == 0 || room == 0)
  }

  lemma KeepsMoving(moved: nat, offered: nat, left: nat, room: nat, n: nat)
    requires Keeps(moved, offered, left, room)
    ensures
      var k := Least(n, Least(room, left));
      Keeps(moved + k, offered + n, left - k, room - k)
  {
  }

  /** One more call, if there is one. */
  lemma OneCall(turns: seq<Turn>, calls: nat)
    requires calls < |turns|
    ensures Offered(turns, calls + 1) == Offered(turns, calls) + if turns[calls].Moves? then turns[calls].n else 0
    ensures turns[calls..][1..] == turns[calls + 1..]
  {
  }

  lemma MovedIsLeast(moved: nat, offered: nat, left: nat, room: nat)
    requires Keeps(moved, offered, left, room)
    ensures moved == Least(Least(offered, moved + left), moved + room)
  {
  }

  /** A reading that ends before the buffer is full has taken what was offered and there. */
  lemma CutShort(all: seq<Byte>, got: seq<Byte>, rest: seq<Byte>, offered: nat, room: nat)
    requires all == got + rest && room > 0 && Keeps(|got|, offered, |rest|, room)
    ensures Least(offered, |all|) == |got| && Dropped(all, |got|, rest)
  {
    MovedIsLeast(|got|, offered, |rest|, room);
    PartlyRead(all, got, rest);
  }

  /** One call: the bytes it is ready to move, none if it was interrupted or is to be made again. */
  method Call(c: Connection, ghost turns: seq<Turn>, ghost calls: nat)
    returns (n: nat, error: Option<IoError>, ghost made: nat)
    requires calls <= |turns| && c.turns == turns[calls..] && NoCause(turns, calls)
    modifies c`turns
    ensures calls <= made <= |turns| && c.turns == turns[made..] && EndsAtCause(error, turns, made)
    ensures Offered(turns, made) == Offered(turns, calls) + n
    ensures error.None? ==> made > calls
    ensures error.Some? ==> n == 0
  {
    if calls < |turns| {
      OneCall(turns, calls);
    }
    n, error, made := 0, None, if calls < |turns| then calls + 1 else calls;
    var turn := c.NextTurn();
    match turn
    case Moves(moved) => n := moved;
    case Interrupted =>
    case NotReady(expired) =>
      if expired { error := Some(TimedOut); }
    case Breaks => error := Some(Broken);
  }

  /**
    `read_exact_with_timeout`: fills `buffer` from `from` on with exactly the next bytes, however
    they are chunked; it ends at the first call that is a cause to. On failure it has taken as much as
    the calls made offered and was there, which is less, and that is lost.
   */
  method ReadExact(c: Connection, buffer: array<Byte>, from: nat) returns (error: Option<IoError>, ghost calls: nat)
    requires from <= buffer.Length
    modifies c`incoming, c`turns, buffer
    ensures buffer[..from] == old(buffer[..from])
    ensures EndsAtCause(error, old(c.turns), calls) && c.turns == old(c.turns)[calls..]
    ensures
      var got := Least(Offered(old(c.turns), calls), |old(c.incoming)|);
      if error.None? then got >= buffer.Length - from && old(c.incoming) == buffer[from..] + c.incoming
      else got < buffer.Length - from && Dropped(old(c.incoming), got, c.incoming)
  {
    ghost var all, before, turns := c.incoming, buffer[..from], c.turns;
    var at := from;
    calls := 0;
    while at < buffer.Length
      invariant from <= at <= buffer.Length
      invariant buffer[..from] == before
      invariant all == buffer[from..at] + c.incoming
      invariant calls <= |turns| && c.turns == turns[calls..] && NoCause(turns, calls)
      invariant Keeps(at - from, Offered(turns, calls), |c.incoming|, buffer.Length - at)
      decreases |c.turns|
    {
      ghost var offered := Offered(turns, calls);
      var n;
      n, error, calls := Call(c, turns, calls);
      if error.Some? {
        CutShort(all, buffer[from..at], c.incoming, offered, buffer.Length - at);
        return;
      }
      KeepsMoving(at - from, offered, |c.incoming|, buffer.Length - at, n);
      var k := Fill(c, buffer, from, at, n, all);
      at := at + k;
    }
    MovedIsLeast(at - from, Offered(turns, calls), |c.incoming|, 0);
    assert buffer[from..at] == buffer[from..];
    return None, calls;
  }

  /**
    `write_all_with_timeout`: all of `data` goes out in order, or as much as the calls made were ready
    to take and an error; it ends at the first call that is a cause to.
   */
  method WriteAll(c: Connection, data: seq<Byte>) returns (error: Option<IoError>, ghost calls: nat)
    modifies c`outgoing, c`turns
    ensures EndsAtCause(error, old(c.turns), calls) && c.turns == old(c.turns)[calls..]
    ensures
      var offered := Offered(old(c.turns), calls);
      if error.None? then offered >= |data| && c.outgoing == old(c.outgoing) + data
      else offered < |data| && c.outgoing == old(c.outgoing) + data[..offered]
  {
    ghost var out, turns := c.outgoing, c.turns;
    var at := 0;
    calls := 0;
    while at < |data|
      invariant 0 <= at <= |data|
      invariant c.outgoing == out + data[..at]
      invariant calls <= |turns| && c.turns == turns[calls..] && NoCause(turns, calls)
      invariant at == Least(Offered(turns, calls), |data|)
      decreases |c.turns|
    {
      var n;
      n, error, calls := Call(c, turns, calls);
      if error.Some? { return; }
      var k := Least(n, |data| - at);
      c.outgoing := c.outgoing + data[at..at + k];
      at := at + k;
    }
    return None, calls;
  }

  /** A prefix and as many bytes as it declares are a frame. */
  lemma PrefixThenBody(all: seq<Byte>, frame: seq<Byte>, body: seq<Byte>, rest: seq<Byte>)
    requires |frame| >= 4 && FromBigEndian(frame[..4]) == |frame| - 4 <= MAX_FRAME_BYTES
    requires all == frame[..4] + body && body == frame[4..] + rest
    ensures DecodeFrame(frame) == Success(frame[4..])
    ensures all == EncodeFrame(frame[4..]).value + rest
  {
    DecodesIffEncoded(frame, frame[4..]);
    assert frame == frame[..4] + frame[4..];
  }

  datatype ReceiveError = Io(io: IoError) | Frame(frame: FrameError)

  /**
    `read_next_message`, up to the text of the message: prefix, then body. What it returns is the
    payload of the frame that stood first on the connection, and exactly that frame is gone.
   */
  method ReadFrame(c: Connection) returns (payload: Result<seq<Byte>, ReceiveError>)
    modifies c`incoming, c`turns
    ensures payload.Success? ==>
              |payload.value| <= MAX_FRAME_BYTES
              && old(c.incoming) == EncodeFrame(payload.value).value + c.incoming
    ensures payload.Failure? && payload.error.Frame? ==>
              |old(c.incoming)| >= 4
              && payload.error.frame == FrameTooLarge(FromBigEndian(old(c.incoming)[..4]))
              && FromBigEndian(old(c.incoming)[..4]) > MAX_FRAME_BYTES
    ensures payload.Failure? && payload.error.Io? ==> Blamed(payload.error.io, old(c.turns), c.turns)
    ensures Within(c.turns, old(c.turns))
  {
    var prefix := new Byte[4](_ => 0);
    var error;
    ghost var calls, turns, later;
    turns := c.turns;
    error, calls := ReadExact(c, prefix, 0);
    CallsLeft(turns, calls);
    if error.Some? {
      CauseIsBlamed(error.value, turns, calls);
      return Failure(Io(error.value));
    }
    assert old(c.incoming)[..4] == prefix[..];
    var declared := FromBigEndian(prefix[..]);
    if declared > MAX_FRAME_BYTES {
      return Failure(Frame(FrameTooLarge(declared)));
    }
    var frame := new Byte[declared + 4](_ => 0);
    forall i | 0 <= i < 4 { frame[i] := prefix[i]; }
    assert frame[..4] == prefix[..];
    ghost var body := c.incoming;
    later := c.turns;
    error, calls := ReadExact(c, frame, 4);
    CallsLeft(later, calls);
    if error.Some? {
      CauseIsBlamed(error.value, later, calls);
      return Failure(Io(error.value));
    }
    PrefixThenBody(old(c.incoming), frame[..], body, c.incoming);
    return Success(DecodeFrame(frame[..]).value);
  }

  /**
    Reads `count` messages. Whatever the transport's chunks, if frames of `sent` were written to
    it then what is read, complete or cut short by an error, is the beginning of `sent`.
   */
  method ReadFrames(c: Connection, count: nat, ghost sent: seq<seq<Byte>>, ghost unread: seq<Byte>)
    returns (payloads: seq<seq<Byte>>, error: Option<ReceiveError>)
    requires AllFit(sent) && count <= |sent| && c.incoming == Wire(sent) + unread
    modifies c`incoming, c`turns
    ensures |payloads| <= count && payloads == sent[..|payloads|]
    ensures error.None? ==> |payloads| == count && c.incoming == Wire(sent[count..]) + unread
    ensures error.Some? ==> error.value.Io? && Blamed(error.value.io, old(c.turns), c.turns)
  {
    payloads := [];
    while |payloads| < count
      invariant |payloads| <= count && AllFit(payloads)
      invariant Wire(sent) + unread == Wire(payloads) + c.incoming
      invariant payloads == sent[..|payloads|] && c.incoming == Wire(sent[|payloads|..]) + unread
      invariant Within(c.turns, old(c.turns))
    {
      var payload := ReadFrame(c);
      if payload.Failure? {
        FirstPrefixFits(sent[|payloads|..], unread);
        return payloads, Some(payload.error);
      }
      NextFrame(Wire(sent) + unread, payloads, payload.value, c.incoming);
      payloads := payloads + [payload.value];
      WireIsUnambiguous(sent, unread, payloads, c.incoming);
    }
    return payloads, None;
  }

  lemma NextFrame(wire: seq<Byte>, payloads: seq<seq<Byte>>, p: seq<Byte>, rest: seq<Byte>)
    requires AllFit(payloads) && |p| <= MAX_FRAME_BYTES
    requires wire == Wire(payloads) + (EncodeFrame(p).value + rest)
    ensures AllFit(payloads + [p]) && wire == Wire(payloads + [p]) + rest
  {
    WireAppend(payloads, p);
  }

  lemma FirstPrefixFits(sent: seq<seq<Byte>>, unread: seq<Byte>)
    requires AllFit(sent) && sent != []
    ensures |Wire(sent) + unread| >= 4
    ensures FromBigEndian((Wire(sent) + unread)[..4]) <= MAX_FRAME_BYTES
  {
    assert (Wire(sent) + unread)[..4] == BigEndian(|sent[0]|);
    BigEndianRoundTrip(|sent[0]|);
  }
}
