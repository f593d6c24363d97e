/** What the single-machine runner (gpu_runner.py) and the multi-machine placer (machine.py)
    share: the reservation record kept for a job that was started but not yet seen on its
    device, reservation pruning, and the choice of a device for a job. */
module Placement {
  import opened Wrappers

  /** `NewProcess` / `_Process`: a started job whose memory and utilization are held back on
      device `gpuNum` until it shows up there or `keep_time` seconds pass. */
  datatype NewProcess = NewProcess(command: string, gpuNum: int, memNeeded: int, utilNeeded: int, timestamp: real)

  /** `[p for p in ps if keep(p)]`: the reservations that pass, in their original order. */
  function Filter(ps: seq<NewProcess>, keep: NewProcess -> bool): (r: seq<NewProcess>)
    ensures |r| <= |ps|
    ensures forall p :: p in r <==> p in ps && keep(p)
    decreases |ps|
  {
    if ps == [] then []
    else
      var last := ps[|ps| - 1];
      assert ps == ps[..|ps| - 1] + [last];
      if keep(last) then Filter(ps[..|ps| - 1], keep) + [last] else Filter(ps[..|ps| - 1], keep)
  }

  /** The comprehension keeps every occurrence of a kept element and none of the others. */
  lemma {:induction false} FilterCounts(ps: seq<NewProcess>, keep: NewProcess -> bool)
    ensures forall p :: multiset(Filter(ps, keep))[p] == if keep(p) then multiset(ps)[p] else 0
    decreases |ps|
  {
    if ps != [] {
      var n := |ps| - 1;
      FilterCounts(ps[..n], keep);
      assert ps == ps[..n] + [ps[n]];
      assert multiset(ps) == multiset(ps[..n]) + multiset{ps[n]};
    }
  }

  /** Filtering a list with one more element at its end. */
  lemma FilterSnoc(ps: seq<NewProcess>, x: NewProcess, keep: NewProcess -> bool)
    ensures Filter(ps + [x], keep) == Filter(ps, keep) + if keep(x) then [x] else []
  {
    assert (ps + [x])[..|ps + [x]| - 1] == ps;
  }

  /** The comprehension keeps the list's order: filtering a concatenation filters each part. */
  lemma {:induction false} FilterAppend(a: seq<NewProcess>, b: seq<NewProcess>, keep: NewProcess -> bool)
    ensures Filter(a + b, keep) == Filter(a, keep) + Filter(b, keep)
    decreases |b|
  {
    if b == [] {
      assert a + b == a;
    } else {
      var n := |b| - 1;
      var x := b[n];
      assert b == b[..n] + [x];
      assert a + b == (a + b[..n]) + [x];
      FilterAppend(a, b[..n], keep);
      FilterSnoc(a + b[..n], x, keep);
      FilterSnoc(b[..n], x, keep);
    }
  }

  /** The age test both placers apply: a reservation is kept while `now - timestamp < keep_time`
      (gpu_runner.py:92-93, machine.py:111-116). */
  function Fresh(ps: seq<NewProcess>, now: real, keepTime: real): (r: seq<NewProcess>)
    ensures forall p :: p in r <==> p in ps && now - p.timestamp < keepTime
    ensures forall p :: multiset(r)[p] == if now - p.timestamp < keepTime then multiset(ps)[p] else 0
  {
    FilterCounts(ps, (p: NewProcess) => now - p.timestamp < keepTime);
    Filter(ps, (p: NewProcess) => now - p.timestamp < keepTime)
  }

  /** The age test keeps the list's order: pruning a concatenation prunes each part. */
  lemma FreshAppend(a: seq<NewProcess>, b: seq<NewProcess>, now: real, keepTime: real)
    ensures Fresh(a + b, now, keepTime) == Fresh(a, now, keepTime) + Fresh(b, now, keepTime)
  {
    FilterAppend(a, b, (p: NewProcess) => now - p.timestamp < keepTime);
  }

  /** A device after aggregation: its number, its free memory and its free utilization. */
  datatype Device = Device(num: int, memFree: int, utilFree: real)

  /** The job's thresholds: `mem_free >= mem_needed and util_free >= util_needed`. */
  predicate Fits(d: Device, mem: int, util: int) {
    d.memFree >= mem && d.utilFree >= util as real
  }

  /** Filtering the devices by the thresholds and taking `max(..., key=util_free)` of what is
      left: the position of the first qualifying device with the largest free utilization,
      or nothing when none qualifies (the `ValueError` of an empty `max`). */
  function Pick(devs: seq<Device>, mem: int, util: int): (r: Option<nat>)
    ensures r.None? <==> forall i :: 0 <= i < |devs| ==> !Fits(devs[i], mem, util)
    ensures r.Some? ==> r.value < |devs| && Fits(devs[r.value], mem, util)
    ensures r.Some? ==> forall i :: 0 <= i < |devs| && Fits(devs[i], mem, util) ==>
                          devs[i].utilFree <= devs[r.value].utilFree
    ensures r.Some? ==> forall i :: 0 <= i < r.value && Fits(devs[i], mem, util) ==>
                          devs[i].utilFree < devs[r.value].utilFree
    decreases |devs|
  {
    if devs == [] then None
    else
      var n := |devs| - 1;
      var best := Pick(devs[..n], mem, util);
      if Fits(devs[n], mem, util) && (best.None? || devs[n].utilFree > devs[best.value].utilFree)
      then Some(n)
      else best
  }

  /** What `Pick` promises of the device it picks, for a picked position. */
  lemma PickedBest(devs: seq<Device>, mem: int, util: int, g: nat)
    requires Pick(devs, mem, util) == Some(g)
    ensures g < |devs| && Fits(devs[g], mem, util)
    ensures forall i :: 0 <= i < |devs| && Fits(devs[i], mem, util) ==> devs[i].utilFree <= devs[g].utilFree
    ensures forall i :: 0 <= i < g && Fits(devs[i], mem, util) ==> devs[i].utilFree < devs[g].utilFree
  {
  }
}
