/**
  The state a broadcaster accumulates from the payloads it dequeues: the
  latest KPI under every name ever seen (the `kpis` dict), the names changed
  since the last emission (`updatelist`) and the newest payload timestamp
  (`packettime`).
*/
module StateTracker {
  import opened Nbp
  import opened Sequences

  /** A Python dict keeps its keys in first-insertion order: `order` is that key
      order and `table` the key-to-KPI mapping. */
  datatype Tracker = Tracker(order: seq<string>, table: map<string, Kpi>, pending: seq<string>, packetTime: int)

  /** The state right after construction: empty dict, empty list, time 0. */
  const Fresh := Tracker([], map[], [], 0)

  /** The dict's keys are `order`, each stored KPI carries its own key as name, and
      the pending list is duplicate-free and names only stored KPIs. */
  ghost predicate Valid(t: Tracker)
  {
    && Distinct(t.order)
    && (forall n :: n in t.table <==> n in t.order)
    && (forall n :: n in t.table ==> t.table[n].name == n)
    && Distinct(t.pending)
    && (forall n :: n in t.pending ==> n in t.table)
  }

  /** One pass of the merge loop: note the name as pending, then store the KPI. */
  function Upsert(t: Tracker, k: Kpi): (r: Tracker)
    requires Valid(t)
    ensures Valid(r)
    ensures r.order == AppendIfAbsent(t.order, k.name)
  {
    Tracker(
      if k.name in t.table then t.order else t.order + [k.name],
      t.table[k.name := k],
      AppendIfAbsent(t.pending, k.name),
      t.packetTime)
  }

  /** The merge loop over a payload's KPI list, in list order. */
  function ApplyKpis(t: Tracker, ks: seq<Kpi>): (r: Tracker)
    requires Valid(t)
    ensures Valid(r)
    ensures r.packetTime == t.packetTime
    ensures r.pending == AppendNew(t.pending, Names(ks))
    ensures r.order == AppendNew(t.order, Names(ks))
    ensures forall n :: n in r.table <==> n in t.table || n in Names(ks)
    ensures forall i :: 0 <= i < |ks| ==> ks[i].name in r.table
    decreases |ks|
  {
    if ks == [] then t
    else
      assert Names(ks) == [ks[0].name] + Names(ks[1..]);
      ApplyKpis(Upsert(t, ks[0]), ks[1..])
  }

  /** Index `i` holds the last KPI of its name in `ks`. */
  ghost predicate LastOfName(ks: seq<Kpi>, i: int)
    requires 0 <= i < |ks|
  {
    forall j :: i < j < |ks| ==> ks[j].name != ks[i].name
  }

  /** A name the list does not mention keeps its old entry. */
  lemma {:induction false} UnmentionedKept(t: Tracker, ks: seq<Kpi>)
    requires Valid(t)
    ensures forall n :: n in t.table && n !in Names(ks) ==> ApplyKpis(t, ks).table[n] == t.table[n]
    decreases |ks|
  {
    if ks != [] {
      assert Names(ks) == [ks[0].name] + Names(ks[1..]);
      UnmentionedKept(Upsert(t, ks[0]), ks[1..]);
    }
  }

  lemma NameInTail(ks: seq<Kpi>, i: int)
    requires 0 <= i < |ks| && LastOfName(ks, i)
    ensures ks[i].name !in Names(ks[i + 1..])
  {
  }

  /** Last write wins: a name's final entry is the last KPI of that name in the list. */
  lemma {:induction false} LastWriteWins(t: Tracker, ks: seq<Kpi>)
    requires Valid(t)
    ensures forall i :: 0 <= i < |ks| && LastOfName(ks, i) ==> ApplyKpis(t, ks).table[ks[i].name] == ks[i]
    decreases |ks|
  {
    if ks != [] {
      var rest := ks[1..];
      var t1 := Upsert(t, ks[0]);
      LastWriteWins(t1, rest);
      forall i | 0 <= i < |ks| && LastOfName(ks, i)
        ensures ApplyKpis(t, ks).table[ks[i].name] == ks[i]
      {
        if i == 0 {
          NameInTail(ks, 0);
          UnmentionedKept(t1, rest);
        } else {
          assert rest[i - 1] == ks[i];
          assert LastOfName(rest, i - 1) by {
            forall j | i - 1 < j < |rest|
              ensures rest[j].name != rest[i - 1].name
            {
              assert rest[j] == ks[j + 1];
            }
          }
        }
      }
    }
  }

  /** Absorbing a dequeued payload: the timestamp is set, then the merge loop runs. */
  function Apply(t: Tracker, p: Payload): (r: Tracker)
    requires Valid(t)
    ensures Valid(r)
    ensures r.packetTime == p.timestamp
  {
    ApplyKpis(t.(packetTime := p.timestamp), p.kpis)
  }

  /** Absorbing a payload: the table takes every KPI with last write winning, keys
      are only ever added (old keys keep their positions), and the pending list
      stays duplicate-free, names only stored KPIs, keeps its old names first and
      appends new names in the order the payload first mentions them. */
  lemma ApplyMerges(t: Tracker, p: Payload)
    requires Valid(t)
    ensures Valid(Apply(t, p))
    ensures Apply(t, p).packetTime == p.timestamp
    ensures forall n :: n in Apply(t, p).table <==> n in t.table || n in Names(p.kpis)
    ensures forall n :: n in t.table && n !in Names(p.kpis) ==> Apply(t, p).table[n] == t.table[n]
    ensures forall i :: 0 <= i < |p.kpis| ==> p.kpis[i].name in Apply(t, p).table
    ensures forall i :: 0 <= i < |p.kpis| && LastOfName(p.kpis, i) ==> Apply(t, p).table[p.kpis[i].name] == p.kpis[i]
    ensures |t.order| <= |Apply(t, p).order| && Apply(t, p).order[..|t.order|] == t.order
    ensures |t.pending| <= |Apply(t, p).pending| && Apply(t, p).pending[..|t.pending|] == t.pending
    ensures forall n :: n in Apply(t, p).pending <==> n in t.pending || n in Names(p.kpis)
    ensures forall i, j :: |t.pending| <= i < j < |Apply(t, p).pending| ==>
              IndexOf(Names(p.kpis), Apply(t, p).pending[i]) < IndexOf(Names(p.kpis), Apply(t, p).pending[j])
  {
    var t0 := t.(packetTime := p.timestamp);
    UnmentionedKept(t0, p.kpis);
    LastWriteWins(t0, p.kpis);
    AppendNewGrows(t.order, Names(p.kpis));
    AppendNewGrows(t.pending, Names(p.kpis));
    AppendNewFirstSeen(t.pending, Names(p.kpis));
  }

  /** The loop run over a sequence of dequeued payloads. */
  function ApplyAll(t: Tracker, ps: seq<Payload>): (r: Tracker)
    requires Valid(t)
    ensures Valid(r)
    decreases |ps|
  {
    if ps == [] then t else ApplyAll(Apply(t, ps[0]), ps[1..])
  }

  /** All KPI lists of a payload sequence, one after another. */
  function Flatten(ps: seq<Payload>): seq<Kpi>
  {
    if ps == [] then [] else ps[0].kpis + Flatten(ps[1..])
  }

  lemma {:induction false} ApplyKpisAppend(t: Tracker, a: seq<Kpi>, b: seq<Kpi>)
    requires Valid(t)
    ensures ApplyKpis(t, a + b) == ApplyKpis(ApplyKpis(t, a), b)
    decreases |a|
  {
    if a != [] {
      assert (a + b)[0] == a[0];
      assert (a + b)[1..] == a[1..] + b;
      ApplyKpisAppend(Upsert(t, a[0]), a[1..], b);
    } else {
      assert a + b == b;
    }
  }

  lemma {:induction false} ApplyKpisRetimed(t: Tracker, x: int, ks: seq<Kpi>)
    requires Valid(t)
    ensures ApplyKpis(t.(packetTime := x), ks) == ApplyKpis(t, ks).(packetTime := x)
    decreases |ks|
  {
    if ks != [] {
      ApplyKpisRetimed(Upsert(t, ks[0]), x, ks[1..]);
    }
  }

  /** The step case of ApplyAllIsOneMerge: merging a payload, then the rest's
      KPIs, is one merge of all of them. */
  lemma MergeThenRest(t: Tracker, p: Payload, ks: seq<Kpi>, last: int)
    requires Valid(t)
    ensures ApplyKpis(Apply(t, p), ks).(packetTime := last) == ApplyKpis(t, p.kpis + ks).(packetTime := last)
  {
    var mid := ApplyKpis(t, p.kpis);
    ApplyKpisRetimed(t, p.timestamp, p.kpis);
    assert Apply(t, p) == mid.(packetTime := p.timestamp);
    ApplyKpisRetimed(mid, p.timestamp, ks);
    ApplyKpisAppend(t, p.kpis, ks);
  }

  lemma ApplyAllFirst(t: Tracker, ps: seq<Payload>)
    requires Valid(t) && ps != []
    ensures ApplyAll(t, ps) == ApplyAll(Apply(t, ps[0]), ps[1..])
    ensures Flatten(ps) == ps[0].kpis + Flatten(ps[1..])
  {
  }

  lemma ApplyAllOne(t: Tracker, p: Payload)
    requires Valid(t)
    ensures ApplyAll(t, [p]) == ApplyKpis(t, Flatten([p])).(packetTime := p.timestamp)
  {
    assert [p][1..] == [];
    assert Flatten([p]) == p.kpis + [] == p.kpis;
    ApplyKpisRetimed(t, p.timestamp, p.kpis);
  }

  /** Payload boundaries do not matter: absorbing payloads one by one is the merge
      loop over all their KPIs together, stamped with the last payload's time. */
  lemma {:induction false} ApplyAllIsOneMerge(t: Tracker, ps: seq<Payload>)
    requires Valid(t)
    requires ps != []
    ensures ApplyAll(t, ps) == ApplyKpis(t, Flatten(ps)).(packetTime := ps[|ps| - 1].timestamp)
    decreases |ps|
  {
    var p := ps[0];
    var rest := ps[1..];
    ApplyAllFirst(t, ps);
    if rest == [] {
      assert ps == [p];
      ApplyAllOne(t, p);
    } else {
      ApplyAllIsOneMerge(Apply(t, p), rest);
      MergeThenRest(t, p, Flatten(rest), rest[|rest| - 1].timestamp);
      assert ps[|ps| - 1] == rest[|rest| - 1];
    }
  }

  /** From a fresh broadcaster, after any non-empty run of payloads: the table
      holds exactly the names mentioned, each with its last KPI across all
      payloads, and the pending list equals the table order, both listing the
      names in first-seen order. */
  lemma ReplayFromFresh(ps: seq<Payload>)
    requires ps != []
    ensures forall n :: n in ApplyAll(Fresh, ps).table <==> n in Names(Flatten(ps))
    ensures forall i :: 0 <= i < |Flatten(ps)| && LastOfName(Flatten(ps), i) ==>
              ApplyAll(Fresh, ps).table[Flatten(ps)[i].name] == Flatten(ps)[i]
    ensures ApplyAll(Fresh, ps).pending == ApplyAll(Fresh, ps).order == AppendNew([], Names(Flatten(ps)))
    ensures ApplyAll(Fresh, ps).packetTime == ps[|ps| - 1].timestamp
  {
    assert Valid(Fresh);
    ApplyAllIsOneMerge(Fresh, ps);
    LastWriteWins(Fresh, Flatten(ps));
    AppendNewGrows([], Names(Flatten(ps)));
  }
}
