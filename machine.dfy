/** `Machine.start_jobs` (machine.py:80-172): the placer for one remote machine. It takes the
    queued job for the machine with the smallest utilization need, samples the machine's
    devices `n_passes` times over the machine's shell session, holds back the resources of jobs
    it started less than `keep_time` seconds ago, and starts the job on the qualifying device
    with the most free utilization, repeating until no job is left or none fits. */
module Machine {
  import opened Wrappers
  import opened Strings
  import opened Seqs
  import opened GpuUtils
  import opened Ssh
  import opened Placement

  /** The status query sent to the machine (machine.py:13-15). */
  const SmiCommand: string := "nvidia-smi --query-gpu=index,memory.used,memory.total,utilization.gpu --format=csv"

  /** The shell line that starts a rendered job in a background subshell with its output
      appended to `~/.gpu_log` (machine.py:158). */
  function Detached(cmd: string): (line: string)
    ensures |line| == |cmd| + 23
    ensures line[1..|cmd| + 1] == cmd
  {
    "(" + cmd + " >> ~/.gpu_log 2>&1 &)"
  }

  // ---------------------------------------------------------------------------------------
  // The job store

  /** A queued job document: `_id`, `machine`, `mem`, `util` and `cmd`. */
  datatype StoredJob = StoredJob(id: string, machine: string, mem: int, util: int, cmd: string)

  /** `find_one({"machine": machine}, sort=[("util", 1)])`: the position of the job for
      `machine` with the smallest `util`, the first in store order on ties. */
  function NextJob(jobs: seq<StoredJob>, machine: string): (r: Option<nat>)
    ensures r.None? <==> forall i :: 0 <= i < |jobs| ==> jobs[i].machine != machine
    ensures r.Some? ==> r.value < |jobs| && jobs[r.value].machine == machine
    ensures r.Some? ==> forall i :: 0 <= i < |jobs| && jobs[i].machine == machine ==> jobs[r.value].util <= jobs[i].util
    ensures r.Some? ==> forall i :: 0 <= i < r.value && jobs[i].machine == machine ==> jobs[r.value].util < jobs[i].util
    decreases |jobs|
  {
    if jobs == [] then None
    else
      var n := |jobs| - 1;
      var best := NextJob(jobs[..n], machine);
      if jobs[n].machine == machine && (best.None? || jobs[n].util < jobs[best.value].util) then Some(n) else best
  }

  /** `remove({"_id": id})`: every document with that `_id` goes, every other one stays, in order. */
  function WithoutId(jobs: seq<StoredJob>, id: string): (r: seq<StoredJob>)
    ensures forall j :: j in r <==> j in jobs && j.id != id
    ensures |r| <= |jobs|
    ensures (exists k :: 0 <= k < |jobs| && jobs[k].id == id) ==> |r| < |jobs|
    decreases |jobs|
  {
    if jobs == [] then []
    else
      var n := |jobs| - 1;
      assert jobs == jobs[..n] + [jobs[n]];
      if jobs[n].id == id then WithoutId(jobs[..n], id) else WithoutId(jobs[..n], id) + [jobs[n]]
  }

  /** The queue collection the placer reads and removes jobs from. */
  class JobStore {
    var jobs: seq<StoredJob>

    constructor (jobs: seq<StoredJob>)
      ensures this.jobs == jobs
    {
      this.jobs := jobs;
    }

    /** `find_one`: reads the queue and changes nothing. */
    method FindOne(machine: string) returns (job: Option<StoredJob>)
      ensures job.None? <==> forall i :: 0 <= i < |jobs| ==> jobs[i].machine != machine
      ensures job.Some? ==> NextJob(jobs, machine).Some? && job.value == jobs[NextJob(jobs, machine).value]
    {
      var k := NextJob(jobs, machine);
      if k.None? {
        return None;
      }
      return Some(jobs[k.value]);
    }

    method Remove(id: string)
      modifies this
      ensures jobs == WithoutId(old(jobs), id)
    {
      jobs := WithoutId(jobs, id);
    }
  }

  // ---------------------------------------------------------------------------------------
  // Sampling: n_passes status queries over the session, grouped by device number

  /** Why `start_jobs` raises: the session fails, a report does not parse, a reservation
      names a device that was not sampled (`KeyError`), or the command template is malformed. */
  datatype Failure = Transport(ssh: SshError) | Unparsable(report: ParseError) | UnknownDevice(num: int) | BadTemplate(format: FormatError)

  /** One status query: `execute(_smi_command)` over the session, its report parsed as
      `get_gpus_from_info_string` does; the result and the session after it. */
  function Query(s: Session): (r: (Result<seq<Gpu>, Failure>, Session))
    ensures r.1.started == s.started
    ensures r.0.Success? ==> forall j :: 0 <= j < |r.0.value| ==> r.0.value[j].utilFree.Some?
  {
    var reply := Run(s, SmiCommand, true);
    match reply.0
    case Failure(e) => (Failure(Transport(e)), reply.1)
    case Success(report) =>
      match ParseRows(DataRows(report), [], false)
      case Failure(e) => (Failure(Unparsable(e)), reply.1)
      case Success(pass) =>
        DevicesKept(DataRows(report), [], false);
        (Success(pass), reply.1)
  }

  /** A status query over a session: its parsed pass, or why it failed, and the session after it. */
  type Querier = Session -> (Result<seq<Gpu>, Failure>, Session)

  /** The passes of `n` queries run in order over a session, and the session after them; the
      first failing query ends the sampling. */
  function SampleWith(query: Querier, s: Session, n: nat): (r: (Result<seq<seq<Gpu>>, Failure>, Session))
    ensures r.0.Success? ==> |r.0.value| == n
    decreases n
  {
    if n == 0 then (Success([]), s)
    else
      var before := SampleWith(query, s, n - 1);
      if before.0.Failure? then before
      else
        var q := query(before.1);
        if q.0.Failure? then (Failure(q.0.error), q.1)
        else (Success(before.0.value + [q.0.value]), q.1)
  }

  /** The `for _ in range(n_passes)` loop of machine.py:101-107 over the status query. */
  function SampleSpec(s: Session, n: nat): (r: (Result<seq<seq<Gpu>>, Failure>, Session))
    ensures r.0.Success? ==> |r.0.value| == n
  {
    SampleWith(Query, s, n)
  }

  /** One more query extends a successful sampling by its pass, or ends it with its failure. */
  lemma SampleWithNext(query: Querier, s: Session, p: nat, passes: seq<seq<Gpu>>, t: Session)
    requires SampleWith(query, s, p) == (Success(passes), t)
    ensures SampleWith(query, s, p + 1) ==
            if query(t).0.Failure? then (Failure(query(t).0.error), query(t).1)
            else (Success(passes + [query(t).0.value]), query(t).1)
  {
  }

  /** A sampling that failed within `k` queries stops there: later queries are never sent. */
  lemma {:induction false} SampleFailureStops(query: Querier, s: Session, k: nat, n: nat)
    requires k <= n && SampleWith(query, s, k).0.Failure?
    ensures SampleWith(query, s, n) == SampleWith(query, s, k)
    decreases n - k
  {
    if k < n {
      SampleFailureStops(query, s, k, n - 1);
    }
  }

  /** A sampling that succeeded holds, pass by pass, what each query returned. */
  lemma {:induction false} SampledKnown(query: Querier, s: Session, n: nat)
    requires forall t: Session :: query(t).0.Success? ==> forall j :: 0 <= j < |query(t).0.value| ==> query(t).0.value[j].utilFree.Some?
    requires SampleWith(query, s, n).0.Success?
    ensures var ps := SampleWith(query, s, n).0.value;
            forall p, j :: 0 <= p < |ps| && 0 <= j < |ps[p]| ==> ps[p][j].utilFree.Some?
    decreases n
  {
    if n > 0 {
      SampledKnown(query, s, n - 1);
    }
  }

  /** All samples of all passes, pass by pass. */
  function Flatten(ps: seq<seq<Gpu>>): (xs: seq<Gpu>)
    ensures (forall p, j :: 0 <= p < |ps| && 0 <= j < |ps[p]| ==> ps[p][j].utilFree.Some?) ==>
            forall k :: 0 <= k < |xs| ==> xs[k].utilFree.Some?
    ensures ps == [] ==> xs == []
    decreases |ps|
  {
    if ps == [] then [] else Flatten(ps[..|ps| - 1]) + ps[|ps| - 1]
  }

  /** The samples of one more pass come after those of the earlier passes. */
  lemma FlattenSnoc(ps: seq<seq<Gpu>>, pass: seq<Gpu>)
    ensures Flatten(ps + [pass]) == Flatten(ps) + pass
  {
    assert (ps + [pass])[..|ps|] == ps;
  }

  /** The `gpus` dictionary of machine.py:98-107: device numbers in first-seen order, and the
      samples of each. */
  datatype Groups = Groups(order: seq<int>, samples: map<int, seq<Gpu>>)

  /** `gpus[gpu.num].append(gpu)`, or `gpus[gpu.num] = [gpu]` on a `KeyError`. */
  function AddSample(gs: Groups, g: Gpu): Groups {
    if g.num in gs.samples then Groups(gs.order, gs.samples[g.num := gs.samples[g.num] + [g]])
    else Groups(gs.order + [g.num], gs.samples[g.num := [g]])
  }

  /** The groups after adding the samples in order. */
  function GroupByNum(xs: seq<Gpu>): Groups
    decreases |xs|
  {
    if xs == [] then Groups([], map[]) else AddSample(GroupByNum(xs[..|xs| - 1]), xs[|xs| - 1])
  }

  /** `[g for g in xs if g.num == num]`. */
  function OfNum(xs: seq<Gpu>, num: int): seq<Gpu>
    decreases |xs|
  {
    if xs == [] then []
    else OfNum(xs[..|xs| - 1], num) + (if xs[|xs| - 1].num == num then [xs[|xs| - 1]] else [])
  }

  /** Each device number appears once in the order, exactly the numbers with samples appear,
      and each has at least one. */
  ghost predicate WellGrouped(gs: Groups) {
    (forall i, j :: 0 <= i < j < |gs.order| ==> gs.order[i] != gs.order[j]) &&
    (forall n :: n in gs.samples <==> n in gs.order) &&
    (forall n :: n in gs.samples ==> gs.samples[n] != [])
  }

  /** Some sample carries device number `n`. */
  predicate HasNum(xs: seq<Gpu>, n: int) {
    exists k :: 0 <= k < |xs| && xs[k].num == n
  }

  lemma HasNumSnoc(xs: seq<Gpu>, x: Gpu, n: int)
    ensures HasNum(xs + [x], n) <==> HasNum(xs, n) || x.num == n
  {
    var ys := xs + [x];
    if HasNum(ys, n) && x.num != n {
      var k :| 0 <= k < |ys| && ys[k].num == n;
      assert xs[k].num == n;
    }
    if HasNum(xs, n) {
      var k :| 0 <= k < |xs| && xs[k].num == n;
      assert ys[k].num == n;
    }
    if x.num == n {
      assert ys[|xs|].num == n;
    }
  }

  /** Grouping by number gives every number that was sampled a group holding exactly its
      samples, in sampling order, and lists the numbers once each in the order first seen. */
  lemma {:induction false} GroupByNumSpec(xs: seq<Gpu>)
    ensures WellGrouped(GroupByNum(xs))
    ensures forall n :: n in GroupByNum(xs).samples <==> HasNum(xs, n)
    ensures forall n :: n in GroupByNum(xs).samples ==> GroupByNum(xs).samples[n] == OfNum(xs, n)
    decreases |xs|
  {
    if xs != [] {
      var init := xs[..|xs| - 1];
      var x := xs[|xs| - 1];
      assert xs == init + [x];
      GroupByNumSpec(init);
      forall n {
        HasNumSnoc(init, x, n);
      }
      var gs := GroupByNum(init);
      forall n | n in gs.samples && n != x.num
        ensures OfNum(xs, n) == OfNum(init, n)
      {
      }
      if x.num in gs.samples {
        assert OfNum(xs, x.num) == OfNum(init, x.num) + [x];
      } else {
        assert OfNum(init, x.num) == [] by {
          OfNumAbsent(init, x.num);
        }
        assert OfNum(xs, x.num) == [] + [x];
      }
    }
  }

  lemma {:induction false} OfNumAbsent(xs: seq<Gpu>, num: int)
    requires !HasNum(xs, num)
    ensures OfNum(xs, num) == []
    decreases |xs|
  {
    if xs != [] {
      HasNumSnoc(xs[..|xs| - 1], xs[|xs| - 1], num);
      assert xs == xs[..|xs| - 1] + [xs[|xs| - 1]];
      OfNumAbsent(xs[..|xs| - 1], num);
    }
  }

  /** Samples of a number come only from devices with that number and that report their
      utilization. */
  lemma {:induction false} OfNumKnown(xs: seq<Gpu>, num: int)
    requires forall k :: 0 <= k < |xs| ==> xs[k].utilFree.Some?
    ensures forall k :: 0 <= k < |OfNum(xs, num)| ==> OfNum(xs, num)[k].utilFree.Some? && OfNum(xs, num)[k].num == num
    decreases |xs|
  {
    if xs != [] {
      OfNumKnown(xs[..|xs| - 1], num);
    }
  }

  // ---------------------------------------------------------------------------------------
  // Reservations and aggregation

  /** The memory held back on device `num`: the sum of `mem_needed` over the reservations for it. */
  function ReservedMem(ps: seq<NewProcess>, num: int): int
    decreases |ps|
  {
    if ps == [] then 0
    else ReservedMem(ps[..|ps| - 1], num) + (if ps[|ps| - 1].gpuNum == num then ps[|ps| - 1].memNeeded else 0)
  }

  /** The utilization held back on device `num`, likewise. */
  function ReservedUtil(ps: seq<NewProcess>, num: int): int
    decreases |ps|
  {
    if ps == [] then 0
    else ReservedUtil(ps[..|ps| - 1], num) + (if ps[|ps| - 1].gpuNum == num then ps[|ps| - 1].utilNeeded else 0)
  }

  /** The first reservation whose device was not sampled, if any. */
  function Unsampled(ps: seq<NewProcess>, sampled: map<int, seq<Gpu>>): (r: Option<int>)
    ensures r.None? <==> forall k :: 0 <= k < |ps| ==> ps[k].gpuNum in sampled
    ensures r.Some? ==> r.value !in sampled && exists k :: 0 <= k < |ps| && ps[k].gpuNum == r.value
    decreases |ps|
  {
    if ps == [] then None
    else if ps[0].gpuNum !in sampled then Some(ps[0].gpuNum)
    else match Unsampled(ps[1..], sampled)
      case None => None
      case Some(n) => Some(n)
  }

  /** The first reservation for an unsampled device is the one `Unsampled` names. */
  lemma {:induction false} UnsampledFirst(ps: seq<NewProcess>, sampled: map<int, seq<Gpu>>, k: nat)
    requires k < |ps| && ps[k].gpuNum !in sampled
    requires forall j :: 0 <= j < k ==> ps[j].gpuNum in sampled
    ensures Unsampled(ps, sampled) == Some(ps[k].gpuNum)
    decreases k
  {
    if k > 0 {
      UnsampledFirst(ps[1..], sampled, k - 1);
    }
  }

  /** The totals of machine.py:119-123, accumulated in dictionaries keyed by the sampled device
      numbers; a reservation for another device raises `KeyError`. */
  method ReservedTotals(ps: seq<NewProcess>, sampled: map<int, seq<Gpu>>) returns (r: Result<(map<int, int>, map<int, int>), int>)
    ensures r.Failure? <==> Unsampled(ps, sampled).Some?
    ensures r.Failure? ==> r.error == Unsampled(ps, sampled).value
    ensures r.Success? ==> r.value.0.Keys == sampled.Keys && r.value.1.Keys == sampled.Keys
    ensures r.Success? ==> forall n :: n in sampled ==> r.value.0[n] == ReservedMem(ps, n) && r.value.1[n] == ReservedUtil(ps, n)
  {
    var mem := map n | n in sampled :: 0;
    var util := map n | n in sampled :: 0;
    var k := 0;
    while k < |ps|
      invariant 0 <= k <= |ps|
      invariant forall j :: 0 <= j < k ==> ps[j].gpuNum in sampled
      invariant mem.Keys == sampled.Keys && util.Keys == sampled.Keys
      invariant forall n :: n in sampled ==> mem[n] == ReservedMem(ps[..k], n) && util[n] == ReservedUtil(ps[..k], n)
    {
      assert ps[..k + 1][..k] == ps[..k];
      var num := ps[k].gpuNum;
      if num !in mem {
        UnsampledFirst(ps, sampled, k);
        return Failure(num);
      }
      mem := mem[num := mem[num] + ps[k].memNeeded];
      util := util[num := util[num] + ps[k].utilNeeded];
      k := k + 1;
    }
    assert ps[..k] == ps;
    return Success((mem, util));
  }

  /** The tail of `free_devices` (machine.py:119-131): total the kept reservations per sampled
      device and aggregate. */
  method TallyDevices(gs: Groups, nPasses: nat, live: seq<NewProcess>) returns (r: Result<seq<Device>, Failure>)
    requires WellGrouped(gs) && (nPasses == 0 ==> gs.order == [])
    requires forall n, k :: n in gs.samples && 0 <= k < |gs.samples[n]| ==> gs.samples[n][k].utilFree.Some?
    ensures r == Tally(gs, nPasses, live)
  {
    var totals := ReservedTotals(live, gs.samples);
    if totals.Failure? {
      return Failure(UnknownDevice(totals.error));
    }
    if nPasses == 0 {
      return Success([]);
    }
    assert totals.value.0 == map n | n in gs.samples :: ReservedMem(live, n);
    assert totals.value.1 == map n | n in gs.samples :: ReservedUtil(live, n);
    return Success(Aggregate(gs, nPasses, totals.value.0, totals.value.1));
  }

  function MemUseds(samples: seq<Gpu>): (r: seq<int>)
    ensures |r| == |samples|
  {
    seq(|samples|, k requires 0 <= k < |samples| => samples[k].memUsed)
  }

  function UtilUseds(samples: seq<Gpu>): (r: seq<int>)
    requires forall k :: 0 <= k < |samples| ==> samples[k].utilFree.Some?
    ensures |r| == |samples|
  {
    seq(|samples|, k requires 0 <= k < |samples| => 100 - samples[k].utilFree.value)
  }

  /** machine.py:127-133 as written: the largest sampled memory use plus the reserved memory,
      the first sample's total memory, and the sampled utilization use summed and divided by
      `n_passes`, MINUS the reserved utilization. With `mem_free = mem_total - mem_used` and
      `util_free = 100 - util_used`. */
  function CombineAsWritten(num: int, samples: seq<Gpu>, nPasses: nat, mem: int, util: int): Device
    requires |samples| > 0 && nPasses > 0
    requires forall k :: 0 <= k < |samples| ==> samples[k].utilFree.Some?
  {
    var total := samples[0].memUsed + samples[0].memFree;
    var used := Sum(UtilUseds(samples)) as real / nPasses as real - util as real;
    Device(num, total - (Max(MemUseds(samples)) + mem), 100.0 - used)
  }

  /** The same with the reserved utilization added to the utilization in use, as the reserved
      memory is added to the memory in use: a reservation lowers both free amounts. */
  function Combine(num: int, samples: seq<Gpu>, nPasses: nat, mem: int, util: int): (d: Device)
    requires |samples| > 0 && nPasses > 0
    requires forall k :: 0 <= k < |samples| ==> samples[k].utilFree.Some?
    ensures d.num == num
    ensures d.memFree == samples[0].memUsed + samples[0].memFree - mem - Max(MemUseds(samples))
    ensures forall k :: 0 <= k < |samples| ==> d.memFree <= samples[0].memUsed + samples[0].memFree - mem - samples[k].memUsed
    ensures (100.0 - d.utilFree - util as real) * nPasses as real == Sum(UtilUseds(samples)) as real
  {
    var total := samples[0].memUsed + samples[0].memFree;
    var mean := Sum(UtilUseds(samples)) as real / nPasses as real;
    MeanTimesCount(Sum(UtilUseds(samples)) as real, nPasses as real);
    assert 100.0 - (100.0 - (mean + util as real)) - util as real == mean;
    assert forall k :: 0 <= k < |samples| ==> MemUseds(samples)[k] == samples[k].memUsed;
    Device(num, total - (Max(MemUseds(samples)) + mem), 100.0 - (mean + util as real))
  }

  lemma MeanTimesCount(total: real, count: real)
    requires count != 0.0
    ensures (total / count) * count == total
  {
  }

  /** As written, a reservation of `util` raises the free utilization it should lower: the
      written figure exceeds the corrected one by twice the reserved utilization. */
  lemma ReservationRaisesFreeUtil(num: int, samples: seq<Gpu>, nPasses: nat, mem: int, util: int)
    requires |samples| > 0 && nPasses > 0
    requires forall k :: 0 <= k < |samples| ==> samples[k].utilFree.Some?
    ensures CombineAsWritten(num, samples, nPasses, mem, util).utilFree ==
            Combine(num, samples, nPasses, mem, util).utilFree + 2.0 * util as real
    ensures CombineAsWritten(num, samples, nPasses, mem, util).memFree == Combine(num, samples, nPasses, mem, util).memFree
  {
  }

  /** One device sampled once at 50% utilization in use, 30% of it reserved by a job started a
      moment ago: the written formula reports 80% free, so a job needing 60% is placed on it;
      the corrected one reports 20% free and the job does not fit. */
  lemma ReservationCounterexample()
    ensures var g := Gpu(0, 1000, 15000, Some(50), Some(50));
            CombineAsWritten(0, [g], 1, 0, 30).utilFree == 80.0 &&
            Fits(CombineAsWritten(0, [g], 1, 0, 30), 1000, 60) &&
            Combine(0, [g], 1, 0, 30).utilFree == 20.0 &&
            !Fits(Combine(0, [g], 1, 0, 30), 1000, 60)
  {
    var g := Gpu(0, 1000, 15000, Some(50), Some(50));
    assert UtilUseds([g]) == [50];
    assert MemUseds([g]) == [1000];
  }

  /** machine.py:126-135: one device per sampled number, in first-seen order. */
  function Aggregate(gs: Groups, nPasses: nat, mem: map<int, int>, util: map<int, int>): (devs: seq<Device>)
    requires nPasses > 0 && WellGrouped(gs)
    requires forall n :: n in gs.samples ==> n in mem && n in util
    requires forall n, k :: n in gs.samples && 0 <= k < |gs.samples[n]| ==> gs.samples[n][k].utilFree.Some?
    ensures |devs| == |gs.order|
    ensures forall i :: 0 <= i < |devs| ==> devs[i].num == gs.order[i]
  {
    seq(|gs.order|, i requires 0 <= i < |gs.order| =>
      var n := gs.order[i];
      Combine(n, gs.samples[n], nPasses, mem[n], util[n]))
  }

  // ---------------------------------------------------------------------------------------
  // One placement and the loop

  /** The placer's state as a value: the queue, the reservation list and the session. */
  datatype Snapshot = Snapshot(jobs: seq<StoredJob>, reservations: seq<NewProcess>, session: Session)

  /** How one pass of the loop ends: a job was started (the loop goes on), no job is queued for
      the machine, no device fits the chosen job, or an exception ends `start_jobs`. */
  datatype Step = Started(job: StoredJob, gpu: int, command: string) | NoJobs | NoFit(job: StoredJob) | Raised(failure: Failure)

  /** The devices a job is matched against, from the groups and the reservations kept. */
  function Devices(gs: Groups, nPasses: nat, live: seq<NewProcess>): (devs: seq<Device>)
    requires nPasses > 0 && WellGrouped(gs)
    requires forall n, k :: n in gs.samples && 0 <= k < |gs.samples[n]| ==> gs.samples[n][k].utilFree.Some?
    ensures |devs| == |gs.order|
    ensures forall i :: 0 <= i < |devs| ==> devs[i].num == gs.order[i]
  {
    Aggregate(gs, nPasses, map n | n in gs.samples :: ReservedMem(live, n), map n | n in gs.samples :: ReservedUtil(live, n))
  }

  /** The samples of a successful sampling, grouped, with every sample reporting its
      utilization. */
  lemma GroupsOfSampling(s: Session, nPasses: nat)
    requires SampleSpec(s, nPasses).0.Success?
    ensures var gs := GroupByNum(Flatten(SampleSpec(s, nPasses).0.value));
            WellGrouped(gs) && (nPasses == 0 ==> gs.order == []) &&
            forall n, k :: n in gs.samples && 0 <= k < |gs.samples[n]| ==> gs.samples[n][k].utilFree.Some?
  {
    var ps := SampleSpec(s, nPasses).0.value;
    SampledKnown(Query, s, nPasses);
    var xs := Flatten(ps);
    GroupByNumSpec(xs);
    forall n | n in GroupByNum(xs).samples
      ensures forall k :: 0 <= k < |GroupByNum(xs).samples[n]| ==> GroupByNum(xs).samples[n][k].utilFree.Some?
    {
      OfNumKnown(xs, n);
    }
  }

  /** machine.py:98-135: the devices a job is matched against, sampled over the session,
      grouped by number and reduced by the reservations younger than `keepTime`, with the
      session after sampling. */
  function Survey(s: Session, reservations: seq<NewProcess>, nPasses: nat, keepTime: real, now: real): (r: (Result<seq<Device>, Failure>, Session))
    ensures SampleSpec(s, nPasses).0.Failure? ==> r == (Failure(SampleSpec(s, nPasses).0.error), SampleSpec(s, nPasses).1)
    ensures r.1 == SampleSpec(s, nPasses).1
    ensures r.0.Success? && nPasses == 0 ==> r.0.value == []
  {
    var sampled := SampleSpec(s, nPasses);
    match sampled.0
    case Failure(e) => (Failure(e), sampled.1)
    case Success(ps) =>
      GroupsOfSampling(s, nPasses);
      (Tally(GroupByNum(Flatten(ps)), nPasses, Fresh(reservations, now, keepTime)), sampled.1)
  }

  /** machine.py:119-131 on the grouped samples: a kept reservation for an unsampled number
      raises, otherwise every sampled device is aggregated. */
  function Tally(gs: Groups, nPasses: nat, live: seq<NewProcess>): Result<seq<Device>, Failure>
    requires WellGrouped(gs) && (nPasses == 0 ==> gs.order == [])
    requires forall n, k :: n in gs.samples && 0 <= k < |gs.samples[n]| ==> gs.samples[n][k].utilFree.Some?
  {
    match Unsampled(live, gs.samples)
    case Some(n) => Failure(UnknownDevice(n))
    case None => Success(if nPasses == 0 then [] else Devices(gs, nPasses, live))
  }

  /** Each surveyed device stands for one sampled number, in the order first seen, and carries
      the figures `Combine` derives from exactly the samples with that number and the
      reservations for it that are kept; a kept reservation for an unsampled number fails. */
  lemma SurveyDevices(s: Session, reservations: seq<NewProcess>, nPasses: nat, keepTime: real, now: real)
    requires nPasses > 0 && SampleSpec(s, nPasses).0.Success?
    ensures var xs := Flatten(SampleSpec(s, nPasses).0.value);
            var gs := GroupByNum(xs);
            var live := Fresh(reservations, now, keepTime);
            var r := Survey(s, reservations, nPasses, keepTime, now);
            (r.0.Failure? <==> exists k :: 0 <= k < |live| && !HasNum(xs, live[k].gpuNum)) &&
            (r.0.Success? ==>
              |r.0.value| == |gs.order| &&
              (forall n :: n in gs.order <==> HasNum(xs, n)) &&
              forall i :: 0 <= i < |gs.order| ==>
                (forall k :: 0 <= k < |OfNum(xs, gs.order[i])| ==> OfNum(xs, gs.order[i])[k].utilFree.Some?) &&
                OfNum(xs, gs.order[i]) != [] &&
                r.0.value[i] == Combine(gs.order[i], OfNum(xs, gs.order[i]), nPasses,
                                        ReservedMem(live, gs.order[i]), ReservedUtil(live, gs.order[i])))
  {
    var xs := Flatten(SampleSpec(s, nPasses).0.value);
    GroupsOfSampling(s, nPasses);
    GroupByNumSpec(xs);
  }

  /** One pass of machine.py:93-172 from state `st`: `now` is the clock reading of line 111 and
      `startedAt` that of line 166. */
  function StepSpec(st: Snapshot, machine: string, nPasses: nat, keepTime: real, now: real, startedAt: real): (r: (Step, Snapshot))
    ensures r.0.Started? ==> r.0.job in st.jobs && r.0.job.machine == machine
    ensures r.0.Started? ==> r.1.jobs == WithoutId(st.jobs, r.0.job.id) && |r.1.jobs| < |st.jobs|
    ensures r.0.Started? ==> r.1.reservations == Fresh(st.reservations, now, keepTime) + [NewProcess(r.0.command, r.0.gpu, r.0.job.mem, r.0.job.util, startedAt)]
    ensures !r.0.Started? ==> r.1.jobs == st.jobs && r.1.reservations == st.reservations
    ensures r.0.NoJobs? <==> forall i :: 0 <= i < |st.jobs| ==> st.jobs[i].machine != machine
    ensures r.0.NoJobs? ==> r.1 == st
  {
    match NextJob(st.jobs, machine)
    case None => (NoJobs, st)
    case Some(k) =>
      var job := st.jobs[k];
      var survey := Survey(st.session, st.reservations, nPasses, keepTime, now);
      match survey.0
      case Failure(e) => (Raised(e), st.(session := survey.1))
      case Success(devs) =>
        match Pick(devs, job.mem, job.util)
        case None => (NoFit(job), st.(session := survey.1))
        case Some(i) =>
          match Format(job.cmd, IntToString(devs[i].num))
          case Failure(e) => (Raised(BadTemplate(e)), st.(session := survey.1))
          case Success(cmd) =>
            var reply := Run(survey.1, Detached(cmd), true);
            match reply.0
            case Failure(e) => (Raised(Transport(e)), st.(session := reply.1))
            case Success(_) =>
              (Started(job, devs[i].num, cmd),
               Snapshot(WithoutId(st.jobs, job.id), Fresh(st.reservations, now, keepTime) + [NewProcess(cmd, devs[i].num, job.mem, job.util, startedAt)], reply.1))
  }

  /** A started job is the machine's queued job with the smallest utilization need, and it goes
      to a surveyed device that fits it with the most free utilization, the first such on ties;
      the command is the job's template filled with that device's number, and the last line
      sent starts it in the background. */
  lemma StepChoosesBest(st: Snapshot, machine: string, nPasses: nat, keepTime: real, now: real, startedAt: real)
    requires StepSpec(st, machine, nPasses, keepTime, now, startedAt).0.Started?
    ensures var r := StepSpec(st, machine, nPasses, keepTime, now, startedAt);
            var sv := Survey(st.session, st.reservations, nPasses, keepTime, now);
            NextJob(st.jobs, machine).Some? && r.0.job == st.jobs[NextJob(st.jobs, machine).value] &&
            sv.0.Success? && Format(r.0.job.cmd, IntToString(r.0.gpu)) == Success(r.0.command) &&
            (exists i :: 0 <= i < |sv.0.value| && sv.0.value[i].num == r.0.gpu &&
              Fits(sv.0.value[i], r.0.job.mem, r.0.job.util) &&
              (forall j :: 0 <= j < |sv.0.value| && Fits(sv.0.value[j], r.0.job.mem, r.0.job.util) ==> sv.0.value[j].utilFree <= sv.0.value[i].utilFree) &&
              (forall j :: 0 <= j < i && Fits(sv.0.value[j], r.0.job.mem, r.0.job.util) ==> sv.0.value[j].utilFree < sv.0.value[i].utilFree)) &&
            |r.1.session.sent| > 0 && r.1.session.sent[|r.1.session.sent| - 1] == Detached(r.0.command) + "\n"
  {
    StepPicks(st, machine, nPasses, keepTime, now, startedAt);
    StepSends(st, machine, nPasses, keepTime, now, startedAt);
    var sv := Survey(st.session, st.reservations, nPasses, keepTime, now);
    var job := st.jobs[NextJob(st.jobs, machine).value];
    var i := Pick(sv.0.value, job.mem, job.util).value;
    PickedBest(sv.0.value, job.mem, job.util, i);
  }

  /** A started job goes to the surveyed device `Pick` chooses for it. */
  lemma StepPicks(st: Snapshot, machine: string, nPasses: nat, keepTime: real, now: real, startedAt: real)
    requires StepSpec(st, machine, nPasses, keepTime, now, startedAt).0.Started?
    ensures var r := StepSpec(st, machine, nPasses, keepTime, now, startedAt);
            var sv := Survey(st.session, st.reservations, nPasses, keepTime, now);
            NextJob(st.jobs, machine).Some? && r.0.job == st.jobs[NextJob(st.jobs, machine).value] &&
            sv.0.Success? && Format(r.0.job.cmd, IntToString(r.0.gpu)) == Success(r.0.command) &&
            Pick(sv.0.value, r.0.job.mem, r.0.job.util).Some? &&
            sv.0.value[Pick(sv.0.value, r.0.job.mem, r.0.job.util).value].num == r.0.gpu
  {
  }

  /** The last line a starting pass sends to the shell starts the command in the background. */
  lemma StepSends(st: Snapshot, machine: string, nPasses: nat, keepTime: real, now: real, startedAt: real)
    requires StepSpec(st, machine, nPasses, keepTime, now, startedAt).0.Started?
    ensures var r := StepSpec(st, machine, nPasses, keepTime, now, startedAt);
            |r.1.session.sent| > 0 && r.1.session.sent[|r.1.session.sent| - 1] == Detached(r.0.command) + "\n"
  {
    StepPicks(st, machine, nPasses, keepTime, now, startedAt);
    var r := StepSpec(st, machine, nPasses, keepTime, now, startedAt);
    var sv := Survey(st.session, st.reservations, nPasses, keepTime, now);
    var reply := Run(sv.1, Detached(r.0.command), true);
    assert r.1.session == reply.1;
  }

  /** No job is started when no surveyed device fits the chosen job: then nothing but the
      session changes. */
  lemma StepNoFit(st: Snapshot, machine: string, nPasses: nat, keepTime: real, now: real, startedAt: real)
    requires StepSpec(st, machine, nPasses, keepTime, now, startedAt).0.NoFit?
    ensures var r := StepSpec(st, machine, nPasses, keepTime, now, startedAt);
            var sv := Survey(st.session, st.reservations, nPasses, keepTime, now);
            NextJob(st.jobs, machine).Some? && r.0.job == st.jobs[NextJob(st.jobs, machine).value] &&
            sv.0.Success? && (forall i :: 0 <= i < |sv.0.value| ==> !Fits(sv.0.value[i], r.0.job.mem, r.0.job.util)) &&
            r.1 == st.(session := sv.1)
  {
  }

  /** One pass of the loop as a value: from the state and the number of the pass, how the pass
      ends and the state after it. */
  type Pass = (Snapshot, nat) -> (Step, Snapshot)

  /** Every pass that starts a job shortens the queue. */
  ghost predicate Shrinks(pass: Pass) {
    forall st: Snapshot, p: nat :: pass(st, p).0.Started? ==> |pass(st, p).1.jobs| < |st.jobs|
  }

  /** Every pass that starts a job starts a queued job of `machine` and removes exactly the jobs
      with its `_id`; a pass that starts none leaves the queue alone. */
  ghost predicate Consumes(pass: Pass, machine: string) {
    Shrinks(pass) &&
    forall st: Snapshot, p: nat ::
      (pass(st, p).0.Started? ==> pass(st, p).0.job in st.jobs && pass(st, p).0.job.machine == machine &&
                                  pass(st, p).1.jobs == WithoutId(st.jobs, pass(st, p).0.job.id)) &&
      (!pass(st, p).0.Started? ==> pass(st, p).1.jobs == st.jobs)
  }

  /** The `while True` loop of machine.py:92: passes from number `p` on until one does not
      start a job. The steps are the started jobs, in order, then the step that ended the loop. */
  function StartWith(pass: Pass, st: Snapshot, p: nat): (r: (seq<Step>, Snapshot))
    requires Shrinks(pass)
    ensures |r.0| >= 1 && !r.0[|r.0| - 1].Started?
    ensures forall i :: 0 <= i < |r.0| - 1 ==> r.0[i].Started?
    ensures |r.0| <= |st.jobs| + 1
    decreases |st.jobs|
  {
    var step := pass(st, p);
    if step.0.Started? then
      var rest := StartWith(pass, step.1, p + 1);
      ([step.0] + rest.0, rest.1)
    else ([step.0], step.1)
  }

  /** One turn of the loop: when the steps taken so far followed by the loop from `st` make up
      `whole`, so do the steps with this pass's step added followed by the loop from the next
      state, or, when the pass started nothing, the steps alone. */
  lemma StartWithTurn(pass: Pass, st: Snapshot, p: nat, step: Step, next: Snapshot, steps: seq<Step>, whole: (seq<Step>, Snapshot))
    requires Shrinks(pass) && pass(st, p) == (step, next)
    requires steps + StartWith(pass, st, p).0 == whole.0 && StartWith(pass, st, p).1 == whole.1
    ensures step.Started? ==> (steps + [step]) + StartWith(pass, next, p + 1).0 == whole.0 && StartWith(pass, next, p + 1).1 == whole.1
    ensures !step.Started? ==> steps + [step] == whole.0 && next == whole.1
  {
    if step.Started? {
      assert StartWith(pass, st, p).0 == [step] + StartWith(pass, next, p + 1).0;
      assert (steps + [step]) + StartWith(pass, next, p + 1).0 == steps + ([step] + StartWith(pass, next, p + 1).0);
    }
  }

  /** The loop only starts queued jobs of the machine. */
  lemma {:induction false} StartTakesOwnJobs(pass: Pass, machine: string, st: Snapshot, p: nat)
    requires Consumes(pass, machine)
    ensures forall i :: 0 <= i < |StartWith(pass, st, p).0| && StartWith(pass, st, p).0[i].Started? ==>
                        StartWith(pass, st, p).0[i].job in st.jobs && StartWith(pass, st, p).0[i].job.machine == machine
    decreases |st.jobs|
  {
    var step := pass(st, p);
    if step.0.Started? {
      StartTakesOwnJobs(pass, machine, step.1, p + 1);
      var rest := StartWith(pass, step.1, p + 1);
      var r := StartWith(pass, st, p);
      assert r.0 == [step.0] + rest.0;
      assert step.1.jobs == WithoutId(st.jobs, step.0.job.id);
      forall i | 0 <= i < |r.0| && r.0[i].Started?
        ensures r.0[i].job in st.jobs && r.0[i].job.machine == machine
      {
        if i > 0 {
          assert r.0[i] == rest.0[i - 1];
          assert rest.0[i - 1].job in step.1.jobs;
        }
      }
    }
  }

  /** Every job left queued after the loop was queued before it. */
  lemma {:induction false} StartOnlyRemoves(pass: Pass, machine: string, st: Snapshot, p: nat)
    requires Consumes(pass, machine)
    ensures forall j :: j in StartWith(pass, st, p).1.jobs ==> j in st.jobs
    decreases |st.jobs|
  {
    if pass(st, p).0.Started? {
      StartOnlyRemoves(pass, machine, pass(st, p).1, p + 1);
    }
  }

  /** The loop removes only the jobs it started: a queued job whose `_id` no started job carries
      is still queued. */
  lemma {:induction false} StartKeepsOthers(pass: Pass, machine: string, st: Snapshot, p: nat, j: StoredJob)
    requires Consumes(pass, machine) && j in st.jobs
    requires forall i :: 0 <= i < |StartWith(pass, st, p).0| && StartWith(pass, st, p).0[i].Started? ==>
                         StartWith(pass, st, p).0[i].job.id != j.id
    ensures j in StartWith(pass, st, p).1.jobs
    decreases |st.jobs|
  {
    var step := pass(st, p);
    if step.0.Started? {
      var rest := StartWith(pass, step.1, p + 1);
      var r := StartWith(pass, st, p);
      assert r.0 == [step.0] + rest.0;
      assert step.1.jobs == WithoutId(st.jobs, step.0.job.id);
      StartedElsewhere(step.0, rest.0, j.id);
      StartKeepsOthers(pass, machine, step.1, p + 1, j);
    }
  }

  /** A run of steps none of which starts job `id` splits into a first step and a rest with
      the same property. */
  lemma StartedElsewhere(first: Step, rest: seq<Step>, id: string)
    requires forall i :: 0 <= i < |[first] + rest| && ([first] + rest)[i].Started? ==> ([first] + rest)[i].job.id != id
    ensures first.Started? ==> first.job.id != id
    ensures forall i :: 0 <= i < |rest| && rest[i].Started? ==> rest[i].job.id != id
  {
    assert ([first] + rest)[0] == first;
    forall i | 0 <= i < |rest| && rest[i].Started?
      ensures rest[i].job.id != id
    {
      assert ([first] + rest)[i + 1] == rest[i];
    }
  }

  lemma StepsConsume(machine: string, nPasses: nat, keepTime: real, clock: nat -> (real, real))
    ensures forall st: Snapshot, p: nat ::
      var r := StepSpec(st, machine, nPasses, keepTime, clock(p).0, clock(p).1);
      (r.0.Started? ==> r.0.job in st.jobs && r.0.job.machine == machine && r.1.jobs == WithoutId(st.jobs, r.0.job.id) &&
                        |r.1.jobs| < |st.jobs|) &&
      (!r.0.Started? ==> r.1.jobs == st.jobs)
  {
  }

  /** The passes of `start_jobs` on `machine`: pass `p` reads the clock pair `clock(p)`. */
  function PassOf(machine: string, nPasses: nat, keepTime: real, clock: nat -> (real, real)): (pass: Pass)
    ensures Consumes(pass, machine)
  {
    StepsConsume(machine, nPasses, keepTime, clock);
    (st: Snapshot, p: nat) => StepSpec(st, machine, nPasses, keepTime, clock(p).0, clock(p).1)
  }

  /** machine.py:103-107: the devices of one pass added to their groups, one by one. */
  method AddSamples(gs: Groups, pass: seq<Gpu>, ghost xs: seq<Gpu>) returns (r: Groups)
    requires gs == GroupByNum(xs)
    ensures r == GroupByNum(xs + pass)
  {
    r := gs;
    var k := 0;
    assert xs + pass[..0] == xs;
    while k < |pass|
      invariant 0 <= k <= |pass|
      invariant r == GroupByNum(xs + pass[..k])
    {
      assert (xs + pass[..k + 1])[..|xs + pass[..k]|] == xs + pass[..k];
      r := AddSample(r, pass[k]);
      k := k + 1;
    }
    assert pass[..k] == pass;
  }

  /** `Machine`: one remote machine, its shell session, the queue it takes jobs from and the
      reservations of the jobs it started recently. */
  class Machine {
    const id: string
    const store: JobStore
    const client: Shell
    var newProcesses: seq<NewProcess>

    /** The placer's state: the queue, the reservations and the session. */
    function Snap(): Snapshot
      reads this, store, client
    {
      Snapshot(store.jobs, newProcesses, client.State())
    }

    /** `__init__`: no reservations yet; the session is opened but no shell is started on it
        (machine.py:37-40, ssh.py:22). */
    constructor (id: string, store: JobStore, client: Shell)
      ensures this.id == id && this.store == store && this.client == client && newProcesses == []
    {
      this.id := id;
      this.store := store;
      this.client := client;
      newProcesses := [];
    }

    /** `execute`: the command goes to the session's `execute`, whose second parameter receives
        the codec name, a non-empty string, so the reply is always awaited (machine.py:51-65). */
    method Execute(command: string) returns (r: Result<string, SshError>)
      modifies client
      ensures (r, client.State()) == Run(old(client.State()), command, true)
    {
      r := client.Execute(command, true);
    }

    /** One status query and the parse of its report (machine.py:102). */
    method QueryOnce() returns (r: Result<seq<Gpu>, Failure>)
      modifies client
      ensures (r, client.State()) == Query(old(client.State()))
    {
      var reply := Execute(SmiCommand);
      if reply.Failure? {
        return Failure(Transport(reply.error));
      }
      var parsed := GetGpus([], reply.value, false);
      if parsed.Failure? {
        return Failure(Unparsable(parsed.error));
      }
      return Success(parsed.value);
    }

    /** machine.py:101-107: `n_passes` status queries, each report's devices added to the
        group of their number. */
    method Sample(nPasses: nat) returns (r: Result<Groups, Failure>)
      modifies client
      ensures r.Failure? <==> SampleSpec(old(client.State()), nPasses).0.Failure?
      ensures r.Failure? ==> r.error == SampleSpec(old(client.State()), nPasses).0.error
      ensures r.Success? ==> r.value == GroupByNum(Flatten(SampleSpec(old(client.State()), nPasses).0.value))
      ensures client.State() == SampleSpec(old(client.State()), nPasses).1
    {
      ghost var s0 := client.State();
      ghost var passes: seq<seq<Gpu>> := [];
      var gs := Groups([], map[]);
      var p := 0;
      while p < nPasses
        invariant 0 <= p <= nPasses
        invariant SampleWith(Query, s0, p) == (Success(passes), client.State())
        invariant gs == GroupByNum(Flatten(passes))
      {
        ghost var before := client.State();
        var pass := QueryOnce();
        SampleWithNext(Query, s0, p, passes, before);
        if pass.Failure? {
          SampleFailureStops(Query, s0, p + 1, nPasses);
          return Failure(pass.error);
        }
        FlattenSnoc(passes, pass.value);
        gs := AddSamples(gs, pass.value, Flatten(passes));
        passes := passes + [pass.value];
        p := p + 1;
      }
      return Success(gs);
    }

    /** machine.py:98-135: the devices a job is matched against in this pass. */
    method FreeDevices(nPasses: nat, keepTime: real, now: real) returns (r: Result<seq<Device>, Failure>)
      modifies client
      ensures (r, client.State()) == Survey(old(client.State()), newProcesses, nPasses, keepTime, now)
    {
      var sampled := Sample(nPasses);
      if sampled.Failure? {
        return Failure(sampled.error);
      }
      GroupsOfSampling(old(client.State()), nPasses);
      r := TallyDevices(sampled.value, nPasses, Fresh(newProcesses, now, keepTime));
    }

    /** One pass of the loop of machine.py:93-172. */
    method PlaceOne(nPasses: nat, keepTime: real, now: real, startedAt: real) returns (step: Step)
      modifies this, store, client
      ensures (step, Snap()) == StepSpec(old(Snap()), id, nPasses, keepTime, now, startedAt)
    {
      var job := store.FindOne(id);
      if job.None? {
        return NoJobs;
      }
      var devs := FreeDevices(nPasses, keepTime, now);
      if devs.Failure? {
        return Raised(devs.error);
      }
      var best := Pick(devs.value, job.value.mem, job.value.util);
      if best.None? {
        return NoFit(job.value);
      }
      var gpu := devs.value[best.value].num;
      var cmd := Format(job.value.cmd, IntToString(gpu));
      if cmd.Failure? {
        return Raised(BadTemplate(cmd.error));
      }
      var output := Execute(Detached(cmd.value));
      if output.Failure? {
        return Raised(Transport(output.error));
      }
      newProcesses := Fresh(newProcesses, now, keepTime) + [NewProcess(cmd.value, gpu, job.value.mem, job.value.util, startedAt)];
      store.Remove(job.value.id);
      return Started(job.value, gpu, cmd.value);
    }

    /** `start_jobs`: place jobs until a pass does not start one; `clock(p)` gives the clock
        readings of pass `p`. */
    method StartJobs(nPasses: nat, keepTime: real, clock: nat -> (real, real)) returns (steps: seq<Step>)
      modifies this, store, client
      ensures (steps, Snap()) == StartWith(PassOf(id, nPasses, keepTime, clock), old(Snap()), 0)
    {
      ghost var passes := PassOf(id, nPasses, keepTime, clock);
      ghost var whole := StartWith(passes, Snap(), 0);
      steps := [];
      var pass := 0;
      assert [] + whole.0 == whole.0;
      while true
        invariant steps + StartWith(passes, Snap(), pass).0 == whole.0 && StartWith(passes, Snap(), pass).1 == whole.1
        decreases |store.jobs|
      {
        ghost var before := Snap();
        var t := clock(pass);
        var step := PlaceOne(nPasses, keepTime, t.0, t.1);
        assert passes(before, pass) == (step, Snap());
        StartWithTurn(passes, before, pass, step, Snap(), steps, whole);
        steps := steps + [step];
        if !step.Started? {
          return;
        }
        pass := pass + 1;
      }
    }
  }
}
