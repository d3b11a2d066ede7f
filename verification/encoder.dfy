/**
  Packet generation (`BasePyNBP.metadata` and `BasePyNBP._genpacket`): a pure
  function of the settings, the accumulated state and the requested kind.

  METADATA:        `@NAME:<device name>` and a blank line.
  ALL and UPDATE:  `*<version>,<kind>,<timestamp>` then one line per selected KPI,
                   `"<name>","<unit>":<value>` or, when the unit is empty,
                   `"<name>":<value>`, then `#` and a blank line.
*/
module Encoder {
  import opened Wrappers
  import opened Nbp
  import opened Sequences
  import opened StateTracker
  import Decimal

  /** The device-name announcement. */
  function MetadataPacket(cfg: Config): string
  {
    "@NAME:" + cfg.deviceName + "\n\n"
  }

  /** Which stored names a packet of `kind` lists: the pending names for a
      non-ALL packet while any are pending, every stored name otherwise. */
  function SelectedNames(t: Tracker, kind: Kind): seq<string>
  {
    if t.pending != [] && kind != All then t.pending else t.order
  }

  /** The KPIs a packet of `kind` lists, in the order it lists them. An UPDATE with
      names pending lists exactly the pending KPIs in pending order; an ALL, or an
      UPDATE with nothing pending, lists every stored KPI in table order. */
  function Selected(t: Tracker, kind: Kind): (ks: seq<Kpi>)
    requires Valid(t)
    ensures kind == Update && t.pending != [] ==>
              |ks| == |t.pending| && forall i :: 0 <= i < |ks| ==> ks[i] == t.table[t.pending[i]]
    ensures kind == All || t.pending == [] ==>
              |ks| == |t.order| && forall i :: 0 <= i < |ks| ==> ks[i] == t.table[t.order[i]]
  {
    var names := SelectedNames(t, kind);
    seq(|names|, i requires 0 <= i < |names| => t.table[names[i]])
  }

  /** An ALL packet lists every stored KPI exactly once, each under its own name. */
  lemma SelectedAllNames(t: Tracker)
    requires Valid(t)
    ensures Names(Selected(t, All)) == t.order
  {
    var ks := Selected(t, All);
    var ns := Names(ks);
    forall i | 0 <= i < |ns| ensures ns[i] == t.order[i] {
      assert ks[i] == t.table[t.order[i]];
    }
  }

  lemma SelectedAllStored(t: Tracker)
    requires Valid(t)
    ensures forall k :: k in Selected(t, All) ==> k.name in t.table && t.table[k.name] == k
  {
    var ks := Selected(t, All);
    forall k | k in ks
      ensures k.name in t.table && t.table[k.name] == k
    {
      var i :| 0 <= i < |ks| && ks[i] == k;
      assert t.order[i] in t.table;
    }
  }

  lemma AllListsEveryKpiOnce(t: Tracker)
    requires Valid(t)
    ensures Names(Selected(t, All)) == t.order
    ensures Distinct(Names(Selected(t, All)))
    ensures forall n :: n in t.table <==> n in Names(Selected(t, All))
    ensures forall k :: k in Selected(t, All) ==> k.name in t.table && t.table[k.name] == k
  {
    SelectedAllNames(t);
    SelectedAllStored(t);
  }

  /** One KPI line without its newline. */
  function KpiText(k: Kpi): string
  {
    if k.unit != "" then "\"" + k.name + "\",\"" + k.unit + "\":" + k.value
    else "\"" + k.name + "\":" + k.value
  }

  /** The KPI lines of a list, without their newlines. */
  function KpiTexts(ks: seq<Kpi>): (ls: seq<string>)
    ensures |ls| == |ks|
  {
    if ks == [] then [] else [KpiText(ks[0])] + KpiTexts(ks[1..])
  }

  /** The KPI lines of a packet, each ended by a newline. */
  function Body(ks: seq<Kpi>): string
  {
    if ks == [] then "" else KpiText(ks[0]) + "\n" + Body(ks[1..])
  }

  /** `*<version>,<kind>,<timestamp>` from the three field texts. */
  function HeaderLine(version: string, kindName: string, time: string): string
  {
    "*" + (version + "," + (kindName + "," + time))
  }

  function HeaderText(cfg: Config, kind: Kind, timestamp: int): string
  {
    HeaderLine(cfg.protocolVersion, KindName(kind), Decimal.FormatMicros(timestamp))
  }

  /** The packet of a recognised kind. */
  function Packet(cfg: Config, t: Tracker, kind: Kind): string
    requires Valid(t)
  {
    match kind
    case Metadata => MetadataPacket(cfg)
    case _ => HeaderText(cfg, kind, t.packetTime) + "\n" + Body(Selected(t, kind)) + "#\n\n"
  }

  /** `_genpacket(ptype)`: text other than ALL, UPDATE or METADATA is refused with
      an error; METADATA announces the device name whatever the KPI state; ALL
      and UPDATE produce a header line that starts with `*`. */
  function GenPacket(cfg: Config, t: Tracker, ptype: string): (r: Result<string, Fault>)
    requires Valid(t)
    ensures r.Err? <==> ptype != "ALL" && ptype != "UPDATE" && ptype != "METADATA"
    ensures r.Err? ==> r.error == InvalidPacketKind(ptype)
    ensures ptype == "METADATA" ==> r == Ok("@NAME:" + cfg.deviceName + "\n\n")
    ensures ptype == "ALL" || ptype == "UPDATE" ==> r.Ok? && |r.value| > 0 && r.value[0] == '*'
  {
    match ParseKind(ptype)
    case None => Err(InvalidPacketKind(ptype))
    case Some(kind) => Ok(Packet(cfg, t, kind))
  }
}
