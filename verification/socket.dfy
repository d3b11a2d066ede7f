/**
  The TCP broadcaster, `WifiPyNBP.run`, as a step function: one step per
  dequeued payload, serving one client at a time. Binding and listening
  happen once before the loop and are not part of a step; the outcomes of
  `accept`, `recv` and `sendall` and the clock reading are inputs.
*/
module Socket {
  import opened Wrappers
  import opened Nbp
  import opened StateTracker
  import opened Encoder
  import opened Text

  /** How the non-blocking `conn.recv(1024)` ended (the bytes already decoded). */
  datatype Received =
    | NothingWaiting      // BlockingIOError: caught and ignored
    | Data(text: string)  // what the client sent; empty when it hung up
    | RecvError           // any other exception: not caught

  /** How a `conn.sendall(packet)` ended. */
  datatype SendResult = Sent | SendWouldBlock | SendError

  /** What one iteration observes: the dequeued payload, the clock, and how the
      socket calls it makes would end (`reply` is the answer to an `!ALL`
      request, `send` the regular transmission). */
  datatype Input = Input(
    payload: Payload, now: int, acceptSucceeds: bool,
    received: Received, reply: SendResult, send: SendResult)

  datatype State = State(tracker: Tracker, lastUpdate: int, connected: bool)

  /** A step continues with a new state, the ALL packet it sent on request (if
      any) and the regular packet it sent (if any), or ends the thread. */
  datatype Outcome =
    | Running(state: State, reply: Option<string>, sent: Option<string>)
    | Halted(fault: Fault)

  /** Before the first iteration: no client, nothing sent, time 0. */
  const Initial := State(Fresh, 0, false)

  const AllRequest := "!ALL"

  /** The client asked for a full packet: non-empty data that strips to `!ALL`. */
  predicate RequestsAll(r: Received)
  {
    r.Data? && r.text != [] && Strip(r.text) == AllRequest
  }

  /** The request check before the gated send. Only `BlockingIOError`, from the
      receive or from the answer's send, is caught here, so any other send or
      receive error ends the thread. */
  function AnswerRequest(cfg: Config, t: Tracker, i: Input): (r: Result<Option<string>, Fault>)
    requires Valid(t)
    ensures r.Ok? && r.value.Some? <==> RequestsAll(i.received) && i.reply == Sent
    ensures r.Ok? && r.value.Some? ==> r.value.value == Packet(cfg, t, All)
    ensures r.Err? <==> i.received == RecvError || (RequestsAll(i.received) && i.reply == SendError)
  {
    match i.received
    case NothingWaiting => Ok(None)
    case RecvError => Err(SocketIOFault)
    case Data(text) =>
      if text != [] && Strip(text) == AllRequest then
        match i.reply
        case Sent => Ok(Some(Packet(cfg, t, All)))
        case SendWouldBlock => Ok(None)
        case SendError => Err(SocketIOFault)
      else Ok(None)
  }

  /** One loop iteration. A regular packet is only sent when the rate gate is
      open, after which nothing is pending and the emission time is recorded;
      otherwise the emission time is unchanged and the merged pending list is
      kept, also when an ALL packet was sent on request. */
  function Step(cfg: Config, s: State, i: Input): (r: Outcome)
    requires Valid(s.tracker)
    ensures r.Running? ==> r.state.tracker.table == Apply(s.tracker, i.payload).table
    ensures r.Running? ==> r.state.tracker.order == Apply(s.tracker, i.payload).order
    ensures r.Running? && r.sent.Some? ==>
              && Due(cfg, s.lastUpdate, i.now)
              && r.state.tracker.pending == []
              && r.state.lastUpdate == i.now
              && r.state.connected
    ensures r.Running? && r.sent.None? ==>
              && r.state.tracker.pending == Apply(s.tracker, i.payload).pending
              && r.state.lastUpdate == s.lastUpdate
  {
    AfterMerge(cfg, s, Apply(s.tracker, i.payload), i)
  }

  /** The part of an iteration after the payload has been merged into `t`. */
  function AfterMerge(cfg: Config, s: State, t: Tracker, i: Input): (r: Outcome)
    requires Valid(t)
    ensures r.Running? ==> r.state.tracker.table == t.table && r.state.tracker.order == t.order
    ensures r.Running? && r.sent.Some? ==>
              && Due(cfg, s.lastUpdate, i.now)
              && r.state == State(t.(pending := []), i.now, true)
    ensures r.Running? && r.sent.None? ==> r.state.tracker == t && r.state.lastUpdate == s.lastUpdate
  {
    if !(s.connected || i.acceptSucceeds) then
      Running(State(t, s.lastUpdate, false), None, None)
    else
      match AnswerRequest(cfg, t, i)
      case Err(f) => Halted(f)
      case Ok(reply) =>
        if !Due(cfg, s.lastUpdate, i.now) then
          Running(State(t, s.lastUpdate, true), reply, None)
        else
          match GenPacket(cfg, t, i.payload.packetType)
          // the ValueError is caught by the broad handler and closes the connection
          case Err(_) => Running(State(t, s.lastUpdate, false), reply, None)
          case Ok(packet) =>
            if i.send == Sent then Running(State(t.(pending := []), i.now, true), reply, Some(packet))
            else Running(State(t, s.lastUpdate, false), reply, None)
  }

  /** A client's `!ALL` (whitespace around it allowed) is answered with the ALL
      packet of the merged state even while the rate gate is shut; the answer
      neither clears the pending list nor moves the emission time. */
  lemma RequestBypassesGate(cfg: Config, s: State, i: Input)
    requires Valid(s.tracker) && (s.connected || i.acceptSucceeds)
    requires RequestsAll(i.received) && i.reply == Sent
    requires !Due(cfg, s.lastUpdate, i.now)
    ensures Step(cfg, s, i) == Running(
              State(Apply(s.tracker, i.payload), s.lastUpdate, true),
              Some(Packet(cfg, Apply(s.tracker, i.payload), All)), None)
  {
    var t := Apply(s.tracker, i.payload);
    assert Step(cfg, s, i) == AfterMerge(cfg, s, t, i);
  }

  /** When the gate is open the regular send still follows the answer, built
      from the same merged state (the answer cleared nothing), and only it
      clears the pending list and records the time. */
  lemma RequestThenRegularSend(cfg: Config, s: State, i: Input)
    requires Valid(s.tracker) && (s.connected || i.acceptSucceeds)
    requires RequestsAll(i.received) && i.reply == Sent && i.send == Sent
    requires Due(cfg, s.lastUpdate, i.now)
    requires GenPacket(cfg, Apply(s.tracker, i.payload), i.payload.packetType).Ok?
    ensures Step(cfg, s, i) == Running(
              State(Apply(s.tracker, i.payload).(pending := []), i.now, true),
              Some(Packet(cfg, Apply(s.tracker, i.payload), All)),
              Some(GenPacket(cfg, Apply(s.tracker, i.payload), i.payload.packetType).value))
  {
    var t := Apply(s.tracker, i.payload);
    assert Step(cfg, s, i) == AfterMerge(cfg, s, t, i);
  }

  /** With the gate open and no request waiting, a delivered send carries the
      payload kind's packet of the merged state, clears the pending list and
      records the time. */
  lemma RegularSend(cfg: Config, s: State, i: Input)
    requires Valid(s.tracker) && (s.connected || i.acceptSucceeds)
    requires !RequestsAll(i.received) && i.received != RecvError
    requires Due(cfg, s.lastUpdate, i.now)
    requires GenPacket(cfg, Apply(s.tracker, i.payload), i.payload.packetType).Ok? && i.send == Sent
    ensures Step(cfg, s, i) == Running(
              State(Apply(s.tracker, i.payload).(pending := []), i.now, true), None,
              Some(GenPacket(cfg, Apply(s.tracker, i.payload), i.payload.packetType).value))
  {
    var t := Apply(s.tracker, i.payload);
    assert Step(cfg, s, i) == AfterMerge(cfg, s, t, i);
  }

  /** Any failure of the regular send, and a packet type that is not a recognised
      kind, drop the client: the connection is closed, the pending list and the
      emission time are kept, and the thread goes on. */
  lemma SendFailureDropsClient(cfg: Config, s: State, i: Input)
    requires Valid(s.tracker) && (s.connected || i.acceptSucceeds)
    requires !RequestsAll(i.received) && i.received != RecvError
    requires Due(cfg, s.lastUpdate, i.now)
    requires ParseKind(i.payload.packetType).None? || i.send != Sent
    ensures Step(cfg, s, i) == Running(State(Apply(s.tracker, i.payload), s.lastUpdate, false), None, None)
  {
    var t := Apply(s.tracker, i.payload);
    assert Step(cfg, s, i) == AfterMerge(cfg, s, t, i);
  }

  /** Without a client the step only merges; the next step accepts again. */
  lemma NoClientOnlyMerges(cfg: Config, s: State, i: Input)
    requires Valid(s.tracker) && !s.connected && !i.acceptSucceeds
    ensures Step(cfg, s, i) == Running(State(Apply(s.tracker, i.payload), s.lastUpdate, false), None, None)
  {
  }

  /** An accepted client is served as if it had been connected all along. */
  lemma AcceptedClientServed(cfg: Config, s: State, i: Input)
    requires Valid(s.tracker) && i.acceptSucceeds
    ensures Step(cfg, s, i) == Step(cfg, s.(connected := true), i)
  {
  }

  datatype Run = Live(state: State, log: seq<Emission>) | Dead(fault: Fault, log: seq<Emission>)

  /** The regular (not requested) emissions of a log. */
  function Regular(log: seq<Emission>): (r: seq<Emission>)
    ensures |r| <= |log|
    ensures forall k :: 0 <= k < |r| ==> r[k] in log && !r[k].requested
    ensures forall k :: 0 <= k < |log| && !log[k].requested ==> log[k] in r
  {
    if log == [] then []
    else if log[0].requested then Regular(log[1..])
    else [log[0]] + Regular(log[1..])
  }

  function StepLog(i: Input, reply: Option<string>, sent: Option<string>): (log: seq<Emission>)
    ensures Regular(log) == if sent.Some? then [Emission(i.now, sent.value, false)] else []
  {
    var answer := if reply.Some? then [Emission(i.now, reply.value, true)] else [];
    var regular := if sent.Some? then [Emission(i.now, sent.value, false)] else [];
    RegularAppend(answer, regular);
    assert Regular(regular) == regular;
    answer + regular
  }

  /** Iterates the loop; consecutive regular emissions are at least the minimum
      interval apart, and so is the first from the starting emission time, while
      answers to requests may come at any time. */
  function RunSteps(cfg: Config, s: State, ins: seq<Input>): (r: Run)
    requires Valid(s.tracker)
    ensures r.Live? ==> Valid(r.state.tracker)
    ensures Spaced(Regular(r.log), s.lastUpdate, cfg.minUpdateInterval)
    decreases |ins|
  {
    if ins == [] then Live(s, [])
    else
      match Step(cfg, s, ins[0])
      case Halted(f) => Dead(f, [])
      case Running(s1, reply, sent) =>
        var rest := RunSteps(cfg, s1, ins[1..]);
        var here := StepLog(ins[0], reply, sent);
        RegularAppend(here, rest.log);
        SpacedPrefix(Regular(here), Regular(rest.log), s.lastUpdate, s1.lastUpdate, cfg.minUpdateInterval);
        match rest
        case Live(s2, log) => Live(s2, here + log)
        case Dead(f, log) => Dead(f, here + log)
  }

  lemma {:induction false} RegularAppend(a: seq<Emission>, b: seq<Emission>)
    ensures Regular(a + b) == Regular(a) + Regular(b)
    decreases |a|
  {
    if a != [] {
      assert (a + b)[1..] == a[1..] + b;
      RegularAppend(a[1..], b);
    } else {
      assert a + b == b;
    }
  }
}
