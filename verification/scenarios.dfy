/**
  Worked examples of the broadcaster's behaviour, each proved on concrete
  values.
*/
module Scenarios {
  import opened Wrappers
  import opened Nbp
  import opened StateTracker
  import opened Encoder
  import opened Text
  import Decimal
  import Serial
  import Socket

  const Rpm1 := Kpi("RPM", "rpm", "4500")
  const Rpm2 := Kpi("RPM", "rpm", "4600")
  const Afr := Kpi("AFR", "", "14.7")

  const RpmAfrPayload := Payload(1000000, "UPDATE", [Rpm1, Rpm2, Afr])

  lemma RpmAfrFirst()
    ensures Valid(Fresh)
    ensures Upsert(Fresh.(packetTime := 1000000), Rpm1) == Tracker(["RPM"], map["RPM" := Rpm1], ["RPM"], 1000000)
  {
    assert Valid(Fresh);
  }

  lemma RpmAfrSecond(t: Tracker)
    requires t == Tracker(["RPM"], map["RPM" := Rpm1], ["RPM"], 1000000)
    ensures Valid(t)
    ensures Upsert(t, Rpm2) == Tracker(["RPM"], map["RPM" := Rpm2], ["RPM"], 1000000)
  {
  }

  lemma RpmAfrThird(t: Tracker)
    requires t == Tracker(["RPM"], map["RPM" := Rpm2], ["RPM"], 1000000)
    ensures Valid(t)
    ensures Upsert(t, Afr) == Tracker(["RPM", "AFR"], map["RPM" := Rpm2, "AFR" := Afr], ["RPM", "AFR"], 1000000)
  {
    assert "AFR" != "RPM";
  }

  /** One pass of the merge loop, then the rest of the list. */
  lemma MergeFirst(t: Tracker, ks: seq<Kpi>)
    requires Valid(t) && ks != []
    ensures ApplyKpis(t, ks) == ApplyKpis(Upsert(t, ks[0]), ks[1..])
  {
  }

  lemma RpmAfrMerge()
    ensures Valid(Fresh)
    ensures Apply(Fresh, RpmAfrPayload)
         == Tracker(["RPM", "AFR"], map["RPM" := Rpm2, "AFR" := Afr], ["RPM", "AFR"], 1000000)
  {
    var t0 := Fresh.(packetTime := 1000000);
    RpmAfrFirst();
    var t1 := Upsert(t0, Rpm1);
    RpmAfrSecond(t1);
    var t2 := Upsert(t1, Rpm2);
    RpmAfrThird(t2);
    var t3 := Upsert(t2, Afr);
    MergeFirst(t0, [Rpm1, Rpm2, Afr]);
    assert [Rpm1, Rpm2, Afr][1..] == [Rpm2, Afr];
    MergeFirst(t1, [Rpm2, Afr]);
    assert [Rpm2, Afr][1..] == [Afr];
    MergeFirst(t2, [Afr]);
    assert [Afr][1..] == [];
  }

  lemma RpmLine()
    ensures KpiText(Rpm2) == "\"RPM\",\"rpm\":4600"
  {
  }

  lemma AfrLine()
    ensures KpiText(Afr) == "\"AFR\":14.7"
  {
  }

  lemma RpmAfrLines()
    ensures Body([Rpm2, Afr]) == "\"RPM\",\"rpm\":4600\n\"AFR\":14.7\n"
  {
    RpmLine();
    AfrLine();
    assert [Afr][1..] == [];
    assert Body([Afr]) == "\"AFR\":14.7\n";
    assert [Rpm2, Afr][1..] == [Afr];
    assert Body([Rpm2, Afr]) == "\"RPM\",\"rpm\":4600" + "\n" + "\"AFR\":14.7\n";
  }

  /** One UPDATE payload carrying RPM twice and then AFR: RPM is listed once with
      its latest value, both in first-seen order, and AFR has no unit part. */
  lemma DuplicateNameUpdateBody()
    ensures Valid(Fresh)
    ensures Body(Selected(Apply(Fresh, RpmAfrPayload), Update))
         == "\"RPM\",\"rpm\":4600\n\"AFR\":14.7\n"
  {
    RpmAfrMerge();
    var t := Apply(Fresh, RpmAfrPayload);
    assert Selected(t, Update) == [Rpm2, Afr];
    RpmAfrLines();
  }

  /** Zero written with `w` digits is `w` zeros. */
  lemma {:induction false} ZeroDigits(w: nat)
    ensures Decimal.FixedDigits(0, w) == seq(w, _ => '0')
  {
    if w > 0 {
      ZeroDigits(w - 1);
      assert Decimal.FixedDigits(0, w) == Decimal.FixedDigits(0, w - 1) + ['0'];
    }
  }

  /** One second, as `{:.6f}` prints it. */
  lemma OneSecondText()
    ensures Decimal.FormatMicros(1000000) == "1.000000"
  {
    ZeroDigits(6);
    assert Decimal.FixedDigits(0, 6) == "000000";
    assert Decimal.NatText(1) == "1";
    assert Decimal.UnsignedText(1000000) == "1" + "." + "000000";
  }

  lemma UpdateHeaderLine()
    ensures HeaderLine("NBP1", "UPDATE", "1.000000") == "*NBP1,UPDATE,1.000000"
  {
    assert "UPDATE" + "," + "1.000000" == "UPDATE,1.000000";
    assert "NBP1" + "," + "UPDATE,1.000000" == "NBP1,UPDATE,1.000000";
    assert "*" + "NBP1,UPDATE,1.000000" == "*NBP1,UPDATE,1.000000";
  }

  lemma UpdateHeaderAtOneSecond()
    ensures HeaderText(DefaultConfig, Update, 1000000) == "*NBP1,UPDATE,1.000000"
  {
    var ts := Decimal.FormatMicros(1000000);
    OneSecondText();
    UpdateHeaderLine();
    assert HeaderText(DefaultConfig, Update, 1000000) == HeaderLine("NBP1", "UPDATE", ts);
  }

  lemma UpdatePacketText()
    ensures "*NBP1,UPDATE,1.000000" + "\n" + "\"RPM\",\"rpm\":4600\n\"AFR\":14.7\n" + "#\n\n"
         == "*NBP1,UPDATE,1.000000\n\"RPM\",\"rpm\":4600\n\"AFR\":14.7\n#\n\n"
  {
  }

  /** An UPDATE packet is its header line, a newline, its body and the end marker. */
  lemma UpdatePacketParts(cfg: Config, t: Tracker, header: string, body: string)
    requires Valid(t)
    requires HeaderText(cfg, Update, t.packetTime) == header
    requires Body(Selected(t, Update)) == body
    ensures GenPacket(cfg, t, "UPDATE") == Ok(header + "\n" + body + "#\n\n")
  {
    assert ParseKind("UPDATE") == Some(Update);
  }

  /** The whole UPDATE packet for that payload, from the header line to the
      blank line that ends it. */
  lemma DuplicateNameUpdatePacket()
    ensures Valid(Fresh)
    ensures GenPacket(DefaultConfig, Apply(Fresh, RpmAfrPayload), "UPDATE")
         == Ok("*NBP1,UPDATE,1.000000\n\"RPM\",\"rpm\":4600\n\"AFR\":14.7\n#\n\n")
  {
    DuplicateNameUpdateBody();
    RpmAfrMerge();
    UpdateHeaderAtOneSecond();
    UpdatePacketParts(DefaultConfig, Apply(Fresh, RpmAfrPayload),
      "*NBP1,UPDATE,1.000000", "\"RPM\",\"rpm\":4600\n\"AFR\":14.7\n");
    UpdatePacketText();
  }

  /** The device-name announcement for a device called X. */
  lemma MetadataForX(t: Tracker)
    requires Valid(t)
    ensures GenPacket(DefaultConfig.(deviceName := "X"), t, "METADATA") == Ok("@NAME:X\n\n")
  {
    assert "@NAME:" + "X" + "\n\n" == "@NAME:X\n\n";
  }

  /** A client line `!ALL` with its newline is a request for a full packet. */
  lemma RequestWithNewline()
    ensures Socket.RequestsAll(Socket.Data("!ALL\n"))
  {
    StripPadded("", "!ALL", "\n");
    assert "" + "!ALL" + "\n" == "!ALL\n";
  }

  /** Running a non-empty input list: the first step's write, then the rest. */
  lemma SerialRunFirst(cfg: Config, s: Serial.State, ins: seq<Serial.Input>)
    requires Valid(s.tracker) && ins != []
    requires Serial.Step(cfg, s, ins[0]).Running?
    ensures
      var st := Serial.Step(cfg, s, ins[0]);
      var rest := Serial.RunSteps(cfg, st.state, ins[1..]);
      var here := if st.sent.Some? then [Emission(ins[0].now, st.sent.value, false)] else [];
      Serial.RunSteps(cfg, s, ins).Live? == rest.Live?
      && Serial.RunSteps(cfg, s, ins).log == here + rest.log
  {
  }

  /** With the default 0.2 s interval, UPDATE payloads at 1.00 s, 1.05 s and
      1.25 s over a port that opens at once give exactly two writes: the second
      payload is held back by the rate gate and the third goes out. */
  lemma RateGateTwoOfThree(p: Payload)
    requires p.packetType == "UPDATE"
    ensures
      var ins := [
        Serial.Input(p, 1000000, true, Serial.Written),
        Serial.Input(p, 1050000, true, Serial.Written),
        Serial.Input(p, 1250000, true, Serial.Written)];
      var r := Serial.RunSteps(DefaultConfig, Serial.Initial, ins);
      r.Live? && |r.log| == 2 && r.log[0].at == 1000000 && r.log[1].at == 1250000
  {
    var cfg := DefaultConfig;
    var i0 := Serial.Input(p, 1000000, true, Serial.Written);
    var i1 := Serial.Input(p, 1050000, true, Serial.Written);
    var i2 := Serial.Input(p, 1250000, true, Serial.Written);
    var ins := [i0, i1, i2];
    var s0 := Serial.Initial;
    assert Valid(Fresh);
    assert Serial.Consistent(s0);
    Serial.WriteOutcomes(cfg, s0, i0);
    var s1 := Serial.Step(cfg, s0, i0).state;
    Serial.StepConsistent(cfg, s0, i0);
    Serial.GateShut(cfg, s1, i1);
    var s2 := Serial.Step(cfg, s1, i1).state;
    Serial.StepConsistent(cfg, s1, i1);
    Serial.WriteOutcomes(cfg, s2, i2);
    var s3 := Serial.Step(cfg, s2, i2).state;
    assert ins[1..] == [i1, i2] && ins[1..][1..] == [i2] && ins[1..][1..][1..] == [];
    SerialRunFirst(cfg, s2, [i2]);
    SerialRunFirst(cfg, s1, [i1, i2]);
    SerialRunFirst(cfg, s0, ins);
  }

  const P1 := Payload(0, "UPDATE", [Rpm1])
  const P2 := Payload(0, "UPDATE", [Afr])
  const Dropping := Socket.Input(P1, 1000000, false, Socket.NothingWaiting, Socket.Sent, Socket.SendError)
  const Accepting := Socket.Input(P2, 2000000, true, Socket.NothingWaiting, Socket.Sent, Socket.Sent)

  lemma RpmPending()
    ensures Valid(Fresh)
    ensures Apply(Fresh, P1).pending == ["RPM"]
  {
    assert Valid(Fresh);
    MergeFirst(Fresh.(packetTime := 0), [Rpm1]);
    assert [Rpm1][1..] == [];
  }

  /** A failed send drops the client; the next payload, once a client is accepted
      again, is sent and clears the update that was kept pending. */
  lemma ReconnectResumes()
    ensures
      var r1 := Socket.Step(DefaultConfig, Socket.State(Fresh, 0, true), Dropping);
      r1.Running? && !r1.state.connected && r1.state.tracker.pending == ["RPM"]
      && var r2 := Socket.Step(DefaultConfig, r1.state, Accepting);
         r2.Running? && r2.sent.Some? && r2.state.connected && r2.state.tracker.pending == []
  {
    var cfg := DefaultConfig;
    var s0 := Socket.State(Fresh, 0, true);
    RpmPending();
    Socket.SendFailureDropsClient(cfg, s0, Dropping);
    var s1 := Socket.State(Apply(Fresh, P1), 0, false);
    assert Socket.Step(cfg, s0, Dropping) == Socket.Running(s1, None, None);
    Socket.RegularSend(cfg, s1, Accepting);
  }
}
