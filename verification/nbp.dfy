/**
  The records of the Numeric Broadcast Protocol (HP Tuners / TrackAddict):
  a KPI reading, the timestamped payload a producer queues, the three packet
  kinds, a broadcaster's settings, and the failures that end a broadcaster.
*/
module Nbp {
  import opened Wrappers

  /** `NbpKPI(name, unit, value)`; `value` is the text `str(value)` prints. */
  datatype Kpi = Kpi(name: string, unit: string, value: string)

  /** `NbpPayload(timestamp, packettype, nbpkpilist)`; the timestamp is in
      microseconds and the packet type is the producer's text, unchecked. */
  datatype Payload = Payload(timestamp: int, packetType: string, kpis: seq<Kpi>)

  datatype Kind = All | Update | Metadata

  function KindName(k: Kind): string
  {
    match k
    case All => "ALL"
    case Update => "UPDATE"
    case Metadata => "METADATA"
  }

  /** The packet kind a producer's text names; any other text is rejected. */
  function ParseKind(ptype: string): (r: Option<Kind>)
    ensures forall k :: r == Some(k) <==> ptype == KindName(k)
  {
    if ptype == "ALL" then Some(All)
    else if ptype == "UPDATE" then Some(Update)
    else if ptype == "METADATA" then Some(Metadata)
    else None
  }

  /** Settings of one broadcaster; the interval is in microseconds. */
  datatype Config = Config(deviceName: string, protocolVersion: string, minUpdateInterval: int)

  /** The constructor defaults: "PyNBP", "NBP1" and 0.2 seconds. */
  const DefaultConfig := Config("PyNBP", "NBP1", 200000)

  /** The rate gate of both loops: a regular packet is due unless less than
      `minUpdateInterval` has passed since the last one (`now - last < min` skips). */
  predicate Due(cfg: Config, last: int, now: int)
  {
    !(now - last < cfg.minUpdateInterval)
  }

  /** A packet a broadcaster sent, stamped with the clock reading of its step;
      `requested` marks an ALL packet sent in answer to a client's request. */
  datatype Emission = Emission(at: int, packet: string, requested: bool)

  /** Emissions at least `gap` apart from each other and from time `from`. */
  ghost predicate Spaced(log: seq<Emission>, from: int, gap: int)
  {
    && (|log| > 0 ==> log[0].at - from >= gap)
    && forall k :: 0 < k < |log| ==> log[k].at - log[k - 1].at >= gap
  }

  /** At most one emission, then a spaced remainder: if that emission is at least
      `gap` after `from` and the remainder is spaced from the time it leaves
      behind, the whole log is spaced from `from`. */
  lemma SpacedPrefix(here: seq<Emission>, rest: seq<Emission>, from: int, next: int, gap: int)
    requires |here| <= 1
    requires |here| == 1 ==> here[0].at - from >= gap && next == here[0].at
    requires |here| == 0 ==> next == from
    requires Spaced(rest, next, gap)
    ensures Spaced(here + rest, from, gap)
  {
    if |here| == 1 {
      var log := here + rest;
      forall k | 0 < k < |log| ensures log[k].at - log[k - 1].at >= gap {
        if k == 1 {
          assert log[k] == rest[0];
        } else {
          assert log[k] == rest[k - 1] && log[k - 1] == rest[k - 2];
        }
      }
    } else {
      assert here + rest == rest;
    }
  }

  /** Failures that escape a broadcaster's loop and end its thread. */
  datatype Fault =
    | InvalidPacketKind(ptype: string)  // ValueError from packet generation
    | PortNeverOpened                   // `serport.is_open` read while `serport` is None
    | SerialIOFault                     // a serial error other than a write timeout
    | SocketIOFault                     // a socket error outside the guarded send

  /** The names of a KPI list, in list order. */
  function Names(ks: seq<Kpi>): (ns: seq<string>)
    ensures |ns| == |ks|
    ensures forall i :: 0 <= i < |ks| ==> ns[i] == ks[i].name
  {
    if ks == [] then [] else [ks[0].name] + Names(ks[1..])
  }
}
