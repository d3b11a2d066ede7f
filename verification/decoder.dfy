/**
  A reader for the packets the encoder writes. It is the encoder's inverse:
  reading a generated packet gives back the device name, or the protocol
  version, kind, timestamp and exact KPI list the packet was made from, as
  long as no field holds a character the line format uses as a delimiter.
*/
module Decoder {
  import opened Wrappers
  import opened Nbp
  import opened StateTracker
  import opened Encoder
  import opened Text
  import Decimal

  /** What a packet says. */
  datatype Message =
    | NameAnnouncement(deviceName: string)
    | Snapshot(version: string, kind: Kind, timestamp: int, kpis: seq<Kpi>)

  datatype Header = Header(version: string, kind: Kind, timestamp: int)

  /** `*<version>,<kind>,<timestamp>` */
  function ParseHeader(line: string): Option<Header>
  {
    if |line| == 0 || line[0] != '*' then None
    else
      match Cut(line[1..], ',')
      case None => None
      case Some((version, tail)) => ParseKindAndTime(version, tail)
  }

  function ParseKindAndTime(version: string, tail: string): Option<Header>
  {
    match Cut(tail, ',')
    case None => None
    case Some((kindName, time)) =>
      match (ParseKind(kindName), Decimal.ParseMicros(time))
      case (Some(kind), Some(ts)) => Some(Header(version, kind, ts))
      case _ => None
  }

  /** `"<name>","<unit>":<value>` or `"<name>":<value>` (empty unit). */
  function ParseKpiLine(line: string): Option<Kpi>
  {
    if |line| == 0 || line[0] != '"' then None
    else
      match Cut(line[1..], '"')
      case None => None
      case Some((name, after)) => ParseAfterName(name, after)
  }

  function ParseAfterName(name: string, after: string): Option<Kpi>
  {
    if |after| >= 1 && after[0] == ':' then Some(Kpi(name, "", after[1..]))
    else if |after| >= 2 && after[0] == ',' && after[1] == '"' then
      match Cut(after[2..], '"')
      case None => None
      case Some((unit, tail)) =>
        if |tail| >= 1 && tail[0] == ':' then Some(Kpi(name, unit, tail[1..])) else None
    else None
  }

  function ParseKpiLines(lines: seq<string>): Option<seq<Kpi>>
  {
    if lines == [] then Some([])
    else
      match (ParseKpiLine(lines[0]), ParseKpiLines(lines[1..]))
      case (Some(k), Some(ks)) => Some([k] + ks)
      case _ => None
  }

  predicate IsAnnouncement(s: string)
  {
    |s| >= 8 && s[..6] == "@NAME:" && s[|s| - 2..] == "\n\n"
  }

  /** Header line, KPI lines, `#`, blank line. */
  function DecodeLines(lines: seq<string>): Option<Message>
  {
    if |lines| < 3 || lines[|lines| - 2..] != ["#", ""] then None
    else
      match (ParseHeader(lines[0]), ParseKpiLines(lines[1..|lines| - 2]))
      case (Some(h), Some(ks)) => Some(Snapshot(h.version, h.kind, h.timestamp, ks))
      case _ => None
  }

  function Decode(s: string): Option<Message>
  {
    if IsAnnouncement(s) then Some(NameAnnouncement(s[6..|s| - 2]))
    else DecodeLines(SplitLines(s))
  }

  /** A field that can sit between quotes on one line. */
  predicate QuotedSafe(s: string) { '"' !in s && '\n' !in s }

  predicate KpiSafe(k: Kpi) { QuotedSafe(k.name) && QuotedSafe(k.unit) && '\n' !in k.value }

  /** Settings and state whose packets can be read back unambiguously. */
  ghost predicate WireSafe(cfg: Config, t: Tracker)
  {
    && ',' !in cfg.protocolVersion && '\n' !in cfg.protocolVersion
    && forall n :: n in t.table ==> KpiSafe(t.table[n])
  }

  lemma MetadataRoundTrip(cfg: Config)
    ensures Decode(MetadataPacket(cfg)) == Some(NameAnnouncement(cfg.deviceName))
  {
    var s := MetadataPacket(cfg);
    assert s[..6] == "@NAME:";
    assert s[|s| - 2..] == "\n\n";
    assert s[6..|s| - 2] == cfg.deviceName;
  }

  lemma AfterNameRoundTrip(k: Kpi)
    requires KpiSafe(k)
    ensures k.unit != "" ==> ParseAfterName(k.name, ",\"" + k.unit + "\":" + k.value) == Some(k)
    ensures k.unit == "" ==> ParseAfterName(k.name, ":" + k.value) == Some(k)
  {
    if k.unit != "" {
      var after := ",\"" + k.unit + "\":" + k.value;
      assert after[2..] == k.unit + ['"'] + (":" + k.value);
      CutAfter(k.unit, '"', ":" + k.value);
      assert (":" + k.value)[1..] == k.value;
    } else {
      assert (":" + k.value)[1..] == k.value;
    }
  }

  lemma KpiLineRoundTrip(k: Kpi)
    requires KpiSafe(k)
    ensures ParseKpiLine(KpiText(k)) == Some(k)
  {
    var line := KpiText(k);
    var after := if k.unit != "" then ",\"" + k.unit + "\":" + k.value else ":" + k.value;
    assert line == "\"" + k.name + "\"" + after;
    assert line[1..] == k.name + ['"'] + after;
    CutAfter(k.name, '"', after);
    AfterNameRoundTrip(k);
  }

  lemma ParseKpiLinesCons(l: string, ls: seq<string>, k: Kpi, ks: seq<Kpi>)
    requires ParseKpiLine(l) == Some(k) && ParseKpiLines(ls) == Some(ks)
    ensures ParseKpiLines([l] + ls) == Some([k] + ks)
  {
    assert ([l] + ls)[0] == l && ([l] + ls)[1..] == ls;
  }

  lemma {:induction false} KpiLinesRoundTrip(ks: seq<Kpi>)
    requires forall i :: 0 <= i < |ks| ==> KpiSafe(ks[i])
    ensures ParseKpiLines(KpiTexts(ks)) == Some(ks)
    decreases |ks|
  {
    if ks != [] {
      assert KpiTexts(ks) == [KpiText(ks[0])] + KpiTexts(ks[1..]);
      KpiLineRoundTrip(ks[0]);
      KpiLinesRoundTrip(ks[1..]);
      ParseKpiLinesCons(KpiText(ks[0]), KpiTexts(ks[1..]), ks[0], ks[1..]);
      assert [ks[0]] + ks[1..] == ks;
    }
  }

  lemma KindAndTimeRoundTrip(v: string, kind: Kind, ts: string, timestamp: int)
    requires Decimal.ParseMicros(ts) == Some(timestamp)
    ensures ParseKindAndTime(v, KindName(kind) + "," + ts) == Some(Header(v, kind, timestamp))
  {
    var kn := KindName(kind);
    assert ',' !in kn;
    CutAfter(kn, ',', ts);
  }

  /** The header fields read back, whatever timestamp text parses to the time. */
  lemma HeaderLineRoundTrip(v: string, kind: Kind, ts: string, timestamp: int)
    requires ',' !in v
    requires Decimal.ParseMicros(ts) == Some(timestamp)
    ensures ParseHeader(HeaderLine(v, KindName(kind), ts)) == Some(Header(v, kind, timestamp))
  {
    var tail := KindName(kind) + "," + ts;
    var line := HeaderLine(v, KindName(kind), ts);
    assert line == "*" + (v + [','] + tail);
    assert line[1..] == v + [','] + tail;
    CutAfter(v, ',', tail);
    KindAndTimeRoundTrip(v, kind, ts, timestamp);
  }

  lemma HeaderRoundTrip(cfg: Config, kind: Kind, timestamp: int)
    requires ',' !in cfg.protocolVersion
    ensures ParseHeader(HeaderText(cfg, kind, timestamp)) == Some(Header(cfg.protocolVersion, kind, timestamp))
  {
    Decimal.FormatMicrosRoundTrip(timestamp);
    HeaderLineRoundTrip(cfg.protocolVersion, kind, Decimal.FormatMicros(timestamp), timestamp);
  }

  lemma {:induction false} BodyIsJoin(ks: seq<Kpi>)
    ensures Body(ks) == Join(KpiTexts(ks))
    decreases |ks|
  {
    if ks != [] {
      BodyIsJoin(ks[1..]);
      assert KpiTexts(ks) == [KpiText(ks[0])] + KpiTexts(ks[1..]);
    }
  }

  lemma HeaderLineNoNewline(v: string, kn: string, ts: string)
    requires '\n' !in v && '\n' !in kn && '\n' !in ts
    ensures NoNewline(HeaderLine(v, kn, ts))
  {
  }

  lemma NumberTextNoNewline(ts: string)
    requires forall i :: 0 <= i < |ts| ==> Decimal.NumberChar(ts[i])
    ensures '\n' !in ts
  {
    forall i | 0 <= i < |ts| ensures ts[i] != '\n' {
      assert Decimal.NumberChar(ts[i]);
    }
  }

  lemma HeaderNoNewline(cfg: Config, kind: Kind, timestamp: int)
    requires '\n' !in cfg.protocolVersion
    ensures NoNewline(HeaderText(cfg, kind, timestamp))
  {
    var ts := Decimal.FormatMicros(timestamp);
    var kn := KindName(kind);
    assert HeaderText(cfg, kind, timestamp) == HeaderLine(cfg.protocolVersion, kn, ts);
    NumberTextNoNewline(ts);
    assert '\n' !in kn;
    HeaderLineNoNewline(cfg.protocolVersion, kn, ts);
  }

  /** A header line, joined lines and the `#` trailer are the join of all of them. */
  lemma FramedJoin(h: string, ls: seq<string>)
    ensures h + "\n" + Join(ls) + "#\n\n" == Join([h] + ls + ["#", ""])
  {
    JoinAppend([h] + ls, ["#", ""]);
    JoinAppend([h], ls);
    assert Join([h]) == h + "\n";
    assert Join(["#", ""]) == "#\n\n";
  }

  /** An ALL or UPDATE packet is its header line, its KPI lines, `#` and a blank line. */
  lemma SnapshotLines(cfg: Config, t: Tracker, kind: Kind)
    requires Valid(t) && kind != Metadata
    ensures Packet(cfg, t, kind)
         == Join([HeaderText(cfg, kind, t.packetTime)] + KpiTexts(Selected(t, kind)) + ["#", ""])
  {
    BodyIsJoin(Selected(t, kind));
    FramedJoin(HeaderText(cfg, kind, t.packetTime), KpiTexts(Selected(t, kind)));
  }

  lemma SelectedSafe(cfg: Config, t: Tracker, kind: Kind)
    requires Valid(t) && WireSafe(cfg, t)
    ensures forall i :: 0 <= i < |Selected(t, kind)| ==> KpiSafe(Selected(t, kind)[i])
  {
    var ks := Selected(t, kind);
    var names := SelectedNames(t, kind);
    forall i | 0 <= i < |ks| ensures KpiSafe(ks[i]) {
      assert ks[i] == t.table[names[i]];
    }
  }

  lemma DecodeStar(s: string)
    requires |s| > 0 && s[0] == '*'
    ensures Decode(s) == DecodeLines(SplitLines(s))
  {
    assert !IsAnnouncement(s);
  }

  lemma DecodeSnapshotLines(h: string, ls: seq<string>, hd: Header, ks: seq<Kpi>)
    requires ParseHeader(h) == Some(hd) && ParseKpiLines(ls) == Some(ks)
    ensures DecodeLines([h] + ls + ["#", ""]) == Some(Snapshot(hd.version, hd.kind, hd.timestamp, ks))
  {
    var lines := [h] + ls + ["#", ""];
    assert lines[0] == h;
    assert lines[|lines| - 2..] == ["#", ""];
    assert lines[1..|lines| - 2] == ls;
  }

  lemma KpiTextNoNewline(k: Kpi)
    requires KpiSafe(k)
    ensures NoNewline(KpiText(k))
  {
    if k.unit != "" {
      assert KpiText(k) == "\"" + k.name + "\",\"" + k.unit + "\":" + k.value;
    } else {
      assert KpiText(k) == "\"" + k.name + "\":" + k.value;
    }
  }

  lemma {:induction false} KpiTextsNoNewline(ks: seq<Kpi>)
    requires forall i :: 0 <= i < |ks| ==> KpiSafe(ks[i])
    ensures forall i :: 0 <= i < |KpiTexts(ks)| ==> NoNewline(KpiTexts(ks)[i])
    decreases |ks|
  {
    if ks != [] {
      KpiTextNoNewline(ks[0]);
      KpiTextsNoNewline(ks[1..]);
      assert KpiTexts(ks) == [KpiText(ks[0])] + KpiTexts(ks[1..]);
    }
  }

  /** Framing a header and body lines adds only newline-free lines. */
  lemma FramedNoNewline(h: string, ls: seq<string>)
    requires NoNewline(h)
    requires forall i :: 0 <= i < |ls| ==> NoNewline(ls[i])
    ensures forall i :: 0 <= i < |[h] + ls + ["#", ""]| ==> NoNewline(([h] + ls + ["#", ""])[i])
  {
    var lines := [h] + ls + ["#", ""];
    forall i | 0 <= i < |lines| ensures NoNewline(lines[i]) {
      if 1 <= i < |lines| - 2 {
        assert lines[i] == ls[i - 1];
      }
    }
  }

  lemma SnapshotLinesSafe(cfg: Config, t: Tracker, kind: Kind)
    requires Valid(t) && WireSafe(cfg, t)
    ensures forall i :: 0 <= i < |[HeaderText(cfg, kind, t.packetTime)] + KpiTexts(Selected(t, kind)) + ["#", ""]| ==>
              NoNewline(([HeaderText(cfg, kind, t.packetTime)] + KpiTexts(Selected(t, kind)) + ["#", ""])[i])
  {
    SelectedSafe(cfg, t, kind);
    HeaderNoNewline(cfg, kind, t.packetTime);
    KpiTextsNoNewline(Selected(t, kind));
    FramedNoNewline(HeaderText(cfg, kind, t.packetTime), KpiTexts(Selected(t, kind)));
  }

  lemma SnapshotRoundTrip(cfg: Config, t: Tracker, kind: Kind)
    requires Valid(t) && WireSafe(cfg, t) && kind != Metadata
    ensures Decode(Packet(cfg, t, kind)) == Some(Snapshot(cfg.protocolVersion, kind, t.packetTime, Selected(t, kind)))
  {
    var h := HeaderText(cfg, kind, t.packetTime);
    var ks := Selected(t, kind);
    var ls := KpiTexts(ks);
    var s := Packet(cfg, t, kind);
    SnapshotLinesSafe(cfg, t, kind);
    SnapshotLines(cfg, t, kind);
    SplitJoin([h] + ls + ["#", ""]);
    assert SplitLines(s) == [h] + ls + ["#", ""];
    assert s[0] == h[0] == '*';
    DecodeStar(s);
    HeaderRoundTrip(cfg, kind, t.packetTime);
    SelectedSafe(cfg, t, kind);
    KpiLinesRoundTrip(ks);
    DecodeSnapshotLines(h, ls, Header(cfg.protocolVersion, kind, t.packetTime), ks);
  }

  /** Reading back a generated packet recovers what it was generated from: the
      device name for METADATA; for ALL and UPDATE the protocol version, the kind,
      the newest payload timestamp and exactly the selected KPIs in order. */
  lemma GenPacketRoundTrip(cfg: Config, t: Tracker, ptype: string)
    requires Valid(t) && WireSafe(cfg, t)
    requires GenPacket(cfg, t, ptype).Ok?
    ensures ptype == "METADATA" ==>
              Decode(GenPacket(cfg, t, ptype).value) == Some(NameAnnouncement(cfg.deviceName))
    ensures ptype == "ALL" ==>
              Decode(GenPacket(cfg, t, ptype).value)
                == Some(Snapshot(cfg.protocolVersion, All, t.packetTime, Selected(t, All)))
    ensures ptype == "UPDATE" ==>
              Decode(GenPacket(cfg, t, ptype).value)
                == Some(Snapshot(cfg.protocolVersion, Update, t.packetTime, Selected(t, Update)))
  {
    var kind := ParseKind(ptype).value;
    if kind == Metadata {
      MetadataRoundTrip(cfg);
    } else {
      SnapshotRoundTrip(cfg, t, kind);
    }
  }
}
