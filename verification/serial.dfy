/**
  The serial (Bluetooth RFCOMM) broadcaster, `PyNBP.run`, as a step function:
  one step per dequeued payload. The outcomes of the serial library's calls
  (opening the device, writing a packet) and the clock reading are inputs.
*/
module Serial {
  import opened Wrappers
  import opened Nbp
  import opened StateTracker
  import opened Encoder

  /** The `serport` variable: never assigned (None), or a port object that is
      open or has been closed. */
  datatype Port = NoPort | Port(isOpen: bool)

  /** How `serport.write(packet)` ended. */
  datatype WriteResult =
    | Written
    | WriteTimeout   // SerialTimeoutException: caught, the port is closed
    | WriteError     // any other exception: not caught

  /** What one iteration observes: the dequeued payload, the clock, and how the
      serial calls it makes would end. */
  datatype Input = Input(payload: Payload, now: int, openSucceeds: bool, write: WriteResult)

  datatype State = State(tracker: Tracker, lastUpdate: int, connected: bool, port: Port)

  /** A step either continues with a new state and what it wrote, or ends the
      thread with an escaped exception. */
  datatype Outcome = Running(state: State, sent: Option<string>) | Halted(fault: Fault)

  /** Before the first iteration: no port, nothing sent, time 0. */
  const Initial := State(Fresh, 0, false, NoPort)

  /** `connected` is true exactly while an open port is held. */
  ghost predicate Consistent(s: State)
  {
    Valid(s.tracker) && (s.connected <==> s.port == Port(true))
  }

  /** One loop iteration, as written. A packet is only ever written when the
      rate gate is open, after which nothing is pending and the emission time is
      recorded; when nothing is written, the emission time is unchanged and the
      pending list is the merged one. Either way the payload has been merged. */
  function Step(cfg: Config, s: State, i: Input): (r: Outcome)
    requires Valid(s.tracker)
    ensures r.Running? ==> r.state.tracker.table == Apply(s.tracker, i.payload).table
    ensures r.Running? ==> r.state.tracker.order == Apply(s.tracker, i.payload).order
    ensures r.Running? && r.sent.Some? ==>
              && Due(cfg, s.lastUpdate, i.now)
              && r.state.tracker.pending == []
              && r.state.lastUpdate == i.now
    ensures r.Running? && r.sent.None? ==>
              && r.state.tracker.pending == Apply(s.tracker, i.payload).pending
              && r.state.lastUpdate == s.lastUpdate
  {
    AfterMerge(cfg, s, Apply(s.tracker, i.payload), i)
  }

  /** The part of an iteration after the payload has been merged into `t`. */
  function AfterMerge(cfg: Config, s: State, t: Tracker, i: Input): (r: Outcome)
    requires Valid(t)
    ensures r.Running? ==> r.state.tracker.table == t.table && r.state.tracker.order == t.order
    ensures r.Running? && r.sent.Some? ==>
              && Due(cfg, s.lastUpdate, i.now)
              && r.state.tracker == t.(pending := [])
              && r.state.lastUpdate == i.now
    ensures r.Running? && r.sent.None? ==> r.state.tracker == t && r.state.lastUpdate == s.lastUpdate
  {
    var connected := s.connected || i.openSucceeds;
    var port := if !s.connected && i.openSucceeds then Port(true) else s.port;
    if !connected && port.NoPort? then
      Halted(PortNeverOpened)
    else if !connected && !port.isOpen then
      Running(State(t, s.lastUpdate, false, port), None)
    else if !Due(cfg, s.lastUpdate, i.now) then
      Running(State(t, s.lastUpdate, connected, port), None)
    else
      match GenPacket(cfg, t, i.payload.packetType)
      case Err(f) => Halted(f)
      case Ok(packet) =>
        match i.write
        case Written => Running(State(t.(pending := []), i.now, connected, port), Some(packet))
        case WriteTimeout => Running(State(t, s.lastUpdate, false, Port(false)), None)
        case WriteError => Halted(SerialIOFault)
  }

  /** The loop as the author evidently meant it: skip the iteration whenever no
      open port is held, instead of reading `is_open` of a port never created. */
  function StepCorrected(cfg: Config, s: State, i: Input): (r: Outcome)
    requires Valid(s.tracker)
    ensures !s.connected && !i.openSucceeds ==>
              r == Running(State(Apply(s.tracker, i.payload), s.lastUpdate, false, s.port), None)
    ensures r.Halted? ==> r.fault != PortNeverOpened
  {
    AfterMergeCorrected(cfg, s, Apply(s.tracker, i.payload), i)
  }

  function AfterMergeCorrected(cfg: Config, s: State, t: Tracker, i: Input): (r: Outcome)
    requires Valid(t)
    ensures !s.connected && !i.openSucceeds ==> r == Running(State(t, s.lastUpdate, false, s.port), None)
    ensures r.Halted? ==> r.fault != PortNeverOpened
  {
    var connected := s.connected || i.openSucceeds;
    var port := if !s.connected && i.openSucceeds then Port(true) else s.port;
    if !connected || port != Port(true) then
      Running(State(t, s.lastUpdate, connected, port), None)
    else AfterMerge(cfg, s, t, i)
  }

  lemma AfterMergeConsistent(cfg: Config, s: State, t: Tracker, i: Input)
    requires Valid(t) && (s.connected <==> s.port == Port(true))
    ensures AfterMerge(cfg, s, t, i).Running? ==>
              var st := AfterMerge(cfg, s, t, i).state;
              (st.connected <==> st.port == Port(true))
  {
    if (s.connected || i.openSucceeds) && Due(cfg, s.lastUpdate, i.now) {
      assert AfterMerge(cfg, s, t, i).Running? ==> AfterMerge(cfg, s, t, i).state.port in {Port(true), Port(false)};
    }
  }

  lemma AfterMergeCorrectedConsistent(cfg: Config, s: State, t: Tracker, i: Input)
    requires Valid(t) && (s.connected <==> s.port == Port(true))
    ensures AfterMergeCorrected(cfg, s, t, i).Running? ==>
              var st := AfterMergeCorrected(cfg, s, t, i).state;
              (st.connected <==> st.port == Port(true))
  {
    if s.connected || i.openSucceeds {
      AfterMergeConsistent(cfg, s, t, i);
    }
  }

  /** The step keeps `connected` in line with the port it holds. */
  lemma StepConsistent(cfg: Config, s: State, i: Input)
    requires Consistent(s)
    ensures Step(cfg, s, i).Running? ==> Consistent(Step(cfg, s, i).state)
    ensures StepCorrected(cfg, s, i).Running? ==> Consistent(StepCorrected(cfg, s, i).state)
  {
    AfterMergeConsistent(cfg, s, Apply(s.tracker, i.payload), i);
    AfterMergeCorrectedConsistent(cfg, s, Apply(s.tracker, i.payload), i);
  }

  /** The defect: when the very first attempt to open the device fails, the loop
      reads `is_open` of None and the thread dies instead of waiting. */
  lemma FirstOpenFailureHalts(cfg: Config, p: Payload, now: int, w: WriteResult)
    ensures Step(cfg, Initial, Input(p, now, false, w)) == Halted(PortNeverOpened)
  {
  }

  /** Apart from that case, the corrected loop behaves exactly as written. */
  lemma CorrectedAgreesOncePortExists(cfg: Config, s: State, i: Input)
    requires Consistent(s)
    requires s.port != NoPort || s.connected || i.openSucceeds
    ensures StepCorrected(cfg, s, i) == Step(cfg, s, i)
  {
  }

  /** With the port open and the rate gate open, the step writes the packet of
      the payload's kind built from the merged state; a delivered write clears
      the pending list and records the time, a write timeout closes the port and
      keeps everything pending for the next attempt. */
  lemma WriteOutcomes(cfg: Config, s: State, i: Input)
    requires Consistent(s) && (s.connected || i.openSucceeds)
    requires Due(cfg, s.lastUpdate, i.now)
    requires GenPacket(cfg, Apply(s.tracker, i.payload), i.payload.packetType).Ok?
    ensures i.write == Written ==>
              Step(cfg, s, i) == Running(
                State(Apply(s.tracker, i.payload).(pending := []), i.now, true, Port(true)),
                Some(GenPacket(cfg, Apply(s.tracker, i.payload), i.payload.packetType).value))
    ensures i.write == WriteTimeout ==>
              Step(cfg, s, i) == Running(State(Apply(s.tracker, i.payload), s.lastUpdate, false, Port(false)), None)
    ensures i.write == WriteError ==> Step(cfg, s, i) == Halted(SerialIOFault)
  {
  }

  /** A payload whose packet type is not a recognised kind ends the thread once
      the rate gate lets it through to packet generation. */
  lemma InvalidKindHalts(cfg: Config, s: State, i: Input)
    requires Consistent(s) && (s.connected || i.openSucceeds)
    requires Due(cfg, s.lastUpdate, i.now)
    requires ParseKind(i.payload.packetType).None?
    ensures Step(cfg, s, i) == Halted(InvalidPacketKind(i.payload.packetType))
  {
  }

  /** While the rate gate is shut nothing is written: the merged state waits,
      pending list and emission time untouched, and the connection stays up. */
  lemma GateShut(cfg: Config, s: State, i: Input)
    requires Consistent(s) && (s.connected || i.openSucceeds)
    requires !Due(cfg, s.lastUpdate, i.now)
    ensures Step(cfg, s, i) == Running(State(Apply(s.tracker, i.payload), s.lastUpdate, true, Port(true)), None)
  {
  }

  /** A closed port is reopened by the next iteration whose open attempt succeeds,
      and a failed attempt on a closed port only waits. */
  lemma ReopenClosedPort(cfg: Config, s: State, i: Input)
    requires Consistent(s) && s.port == Port(false)
    ensures i.openSucceeds ==> Step(cfg, s, i) == Step(cfg, s.(connected := true, port := Port(true)), i)
    ensures !i.openSucceeds ==>
              Step(cfg, s, i) == Running(State(Apply(s.tracker, i.payload), s.lastUpdate, false, Port(false)), None)
  {
    var t := Apply(s.tracker, i.payload);
    assert Step(cfg, s, i) == AfterMerge(cfg, s, t, i);
  }

  /** A run of the loop over a sequence of iterations: the final state (or the
      fault that ended the thread) and every packet written, in order. */
  datatype Run = Live(state: State, log: seq<Emission>) | Dead(fault: Fault, log: seq<Emission>)

  /** Iterates the loop; every two consecutive writes in the log are at least the
      minimum interval apart, and so is the first from the starting emission time. */
  function RunSteps(cfg: Config, s: State, ins: seq<Input>): (r: Run)
    requires Valid(s.tracker)
    ensures r.Live? ==> Valid(r.state.tracker)
    ensures Spaced(r.log, s.lastUpdate, cfg.minUpdateInterval)
    decreases |ins|
  {
    if ins == [] then Live(s, [])
    else
      match Step(cfg, s, ins[0])
      case Halted(f) => Dead(f, [])
      case Running(s1, sent) =>
        var rest := RunSteps(cfg, s1, ins[1..]);
        var here := if sent.Some? then [Emission(ins[0].now, sent.value, false)] else [];
        SpacedPrefix(here, rest.log, s.lastUpdate, s1.lastUpdate, cfg.minUpdateInterval);
        match rest
        case Live(s2, log) => Live(s2, here + log)
        case Dead(f, log) => Dead(f, here + log)
  }
}
