/** One pass of the single-machine runner loop (gpu_runner.py:52-138). The job file's head line
    `mem|util|command` is taken under the marker-file lock, the device reports of `n_passes`
    status queries are grouped by position, reservations of recently started jobs are pruned
    and held back, and the job is started on the qualifying device with the most free
    utilization; the job file then loses its head line. The status queries, the clock and the
    shell that starts the job are inputs and outputs of the tick. */
module GpuRunner {
  import opened Wrappers
  import opened Strings
  import opened Seqs
  import opened GpuUtils
  import opened Locking
  import opened Placement

  // ---------------------------------------------------------------------------------------
  // The job file

  /** Where the first line ends: the position of the first newline, or the end of the text. */
  function LineEnd(text: string): (i: nat)
    ensures i <= |text|
    ensures i < |text| ==> text[i] == '\n'
    ensures forall j :: 0 <= j < i ==> text[j] != '\n'
    decreases |text|
  {
    if text == [] || text[0] == '\n' then 0 else 1 + LineEnd(text[1..])
  }

  /** `f.readline()` without its newline. */
  function HeadLine(text: string): string {
    text[..LineEnd(text)]
  }

  /** `''.join(f.readlines())` after the first line was read: everything after the first
      newline, or nothing when there is none. */
  function OtherLines(text: string): string {
    if LineEnd(text) < |text| then text[LineEnd(text) + 1..] else ""
  }

  /** The head line holds no newline, and the head line and the other lines together are the
      whole file. */
  lemma HeadAndOthers(text: string)
    ensures '\n' !in HeadLine(text)
    ensures '\n' in text ==> text == HeadLine(text) + "\n" + OtherLines(text)
    ensures '\n' !in text ==> text == HeadLine(text) && OtherLines(text) == ""
  {
    var i := LineEnd(text);
    if i < |text| {
      assert text == text[..i] + [text[i]] + text[i + 1..];
    } else {
      assert text == text[..i];
    }
  }

  /** A job line: the memory and utilization the job needs and its command template. */
  datatype Job = Job(memNeeded: int, utilNeeded: int, script: string)

  /** Why a job line is rejected: `split('|')` does not give three fields (the unpacking
      fails), or one of the first two is not an integer (`int` fails). */
  datatype JobError = FieldCount(count: nat) | NotAnInt(field: string)

  /** `mem_needed, util_needed, job_script = job_spec.split('|')` followed by `int` on the first
      two fields (gpu_runner.py:69-71). */
  function ParseJob(spec: string): (r: Result<Job, JobError>)
    ensures r.Success? <==> |Split(spec, "|")| == 3 && ParseInt(Split(spec, "|")[0]).Some? &&
                            ParseInt(Split(spec, "|")[1]).Some?
    ensures r.Failure? && |Split(spec, "|")| != 3 ==> r.error == FieldCount(|Split(spec, "|")|)
    ensures r.Success? ==> r.value == Job(ParseInt(Split(spec, "|")[0]).value, ParseInt(Split(spec, "|")[1]).value,
                                          Split(spec, "|")[2])
    ensures r.Failure? && |Split(spec, "|")| == 3 ==>
              r.error == NotAnInt(if ParseInt(Split(spec, "|")[0]).None? then Split(spec, "|")[0] else Split(spec, "|")[1])
  {
    var fields := Split(spec, "|");
    if |fields| != 3 then Failure(FieldCount(|fields|))
    else match (ParseInt(fields[0]), ParseInt(fields[1]))
      case (None, _) => Failure(NotAnInt(fields[0]))
      case (_, None) => Failure(NotAnInt(fields[1]))
      case (Some(mem), Some(util)) => Success(Job(mem, util, fields[2]))
  }

  /** Writing a job line as `str(mem) + '|' + str(util) + '|' + command` and parsing it gives
      the job back, for every command without a '|'. */
  lemma ParseJobRoundTrip(job: Job)
    requires '|' !in job.script
    ensures ParseJob(IntToString(job.memNeeded) + "|" + IntToString(job.utilNeeded) + "|" + job.script) == Success(job)
  {
    var m := IntToString(job.memNeeded);
    var u := IntToString(job.utilNeeded);
    ParseIntOfIntToString(job.memNeeded);
    ParseIntOfIntToString(job.utilNeeded);
    assert '|' !in m && '|' !in u by {
      assert forall c :: c in m ==> c == '-' || IsDigit(c);
      assert forall c :: c in u ==> c == '-' || IsDigit(c);
    }
    var parts := [m, u, job.script];
    assert Join(parts, "|") == m + "|" + u + "|" + job.script by {
      assert Join(parts, "|") == m + "|" + Join([u, job.script], "|");
      assert Join([u, job.script], "|") == u + "|" + Join([job.script], "|");
    }
    SplitJoin(parts, '|');
  }

  // ---------------------------------------------------------------------------------------
  // Sampling: n_passes reports, grouped by position

  /** What `get_gpus(skip_gpus)` gives for each report: its devices, or the parse error. */
  function Sampled(reports: seq<string>, skipGpus: seq<int>): (r: seq<Result<seq<Gpu>, ParseError>>)
    ensures |r| == |reports|
  {
    seq(|reports|, p requires 0 <= p < |reports| => ParseRows(DataRows(reports[p]), skipGpus, false))
  }

  /** The passes, in order, when every report parsed; otherwise the error of the first report
      that did not. */
  function Passes(results: seq<Result<seq<Gpu>, ParseError>>): (r: Result<seq<seq<Gpu>>, ParseError>)
    ensures r.Success? <==> forall p :: 0 <= p < |results| ==> results[p].Success?
    ensures r.Success? ==> |r.value| == |results| && forall p :: 0 <= p < |results| ==> r.value[p] == results[p].value
    decreases |results|
  {
    if results == [] then Success([])
    else
      var init := results[..|results| - 1];
      match Passes(init)
      case Failure(e) => Failure(e)
      case Success(ps) =>
        match results[|results| - 1]
        case Failure(e) => Failure(e)
        case Success(pass) => Success(ps + [pass])
  }

  /** A failed sampling carries the error of the first report that did not parse. */
  lemma {:induction false} PassesFirstError(results: seq<Result<seq<Gpu>, ParseError>>)
    requires Passes(results).Failure?
    ensures exists p :: 0 <= p < |results| && results[p] == Failure(Passes(results).error) &&
                        forall q :: 0 <= q < p ==> results[q].Success?
    decreases |results|
  {
    var init := results[..|results| - 1];
    if Passes(init).Failure? {
      PassesFirstError(init);
      var p :| 0 <= p < |init| && init[p] == Failure(Passes(init).error) &&
               forall q :: 0 <= q < p ==> init[q].Success?;
      assert results[p] == init[p];
      assert forall q :: 0 <= q < p ==> results[q] == init[q];
    } else {
      var p := |results| - 1;
      assert forall q :: 0 <= q < p ==> results[q] == init[q];
    }
  }

  /** The passes of one more result: the error when it is one, otherwise one more pass. */
  lemma PassesStep(results: seq<Result<seq<Gpu>, ParseError>>, p: nat)
    requires p < |results| && Passes(results[..p]).Success?
    ensures results[p].Failure? ==> Passes(results[..p + 1]) == Failure(results[p].error)
    ensures results[p].Success? ==> Passes(results[..p + 1]) == Success(Passes(results[..p]).value + [results[p].value])
    ensures results[p].Success? ==> Grouped(Passes(results[..p + 1]).value) == AddPass(Grouped(Passes(results[..p]).value), results[p].value)
  {
    assert results[..p + 1][..p] == results[..p];
    if results[p].Success? {
      var ps := Passes(results[..p]).value;
      assert (ps + [results[p].value])[..|ps|] == ps;
    }
  }

  /** Once a prefix of the results holds an error, the whole sequence fails with it. */
  lemma {:induction false} PassesPrefixFails(results: seq<Result<seq<Gpu>, ParseError>>, k: nat)
    requires k <= |results| && Passes(results[..k]).Failure?
    ensures Passes(results) == Passes(results[..k])
    decreases |results| - k
  {
    if k < |results| {
      assert results[..k + 1][..k] == results[..k];
      PassesPrefixFails(results, k + 1);
    } else {
      assert results[..k] == results;
    }
  }

  /** The passes `get_gpus` produces list no skipped device and only devices that report their
      utilization. */
  lemma PassesKnown(reports: seq<string>, skipGpus: seq<int>)
    requires Passes(Sampled(reports, skipGpus)).Success?
    ensures Known(Passes(Sampled(reports, skipGpus)).value)
    ensures var ps := Passes(Sampled(reports, skipGpus)).value;
            forall p, j :: 0 <= p < |ps| && 0 <= j < |ps[p]| ==> ps[p][j].num !in skipGpus
  {
    var ps: seq<seq<Gpu>> := Passes(Sampled(reports, skipGpus)).value;
    forall p | 0 <= p < |ps|
      ensures forall j :: 0 <= j < |ps[p]| ==> ps[p][j].utilFree.Some? && ps[p][j].num !in skipGpus
    {
      assert Sampled(reports, skipGpus)[p] == ParseRows(DataRows(reports[p]), skipGpus, false);
      DevicesKept(DataRows(reports[p]), skipGpus, false);
    }
  }

  /** Every sampled device reports its utilization (`get_gpus` drops the others). */
  predicate Known(ps: seq<seq<Gpu>>) {
    forall p, j :: 0 <= p < |ps| && 0 <= j < |ps[p]| ==> ps[p][j].utilFree.Some?
  }

  /** The number of devices of the longest pass. */
  function MaxLen(ps: seq<seq<Gpu>>): nat
    decreases |ps|
  {
    if ps == [] then 0
    else
      var m := MaxLen(ps[..|ps| - 1]);
      if |ps[|ps| - 1]| > m then |ps[|ps| - 1]| else m
  }

  /** `[pass[i] for pass in ps if i < len(pass)]`: the samples of the device at position `i`,
      pass by pass. */
  function Column(ps: seq<seq<Gpu>>, i: nat): seq<Gpu>
    decreases |ps|
  {
    if ps == [] then []
    else Column(ps[..|ps| - 1], i) + (if i < |ps[|ps| - 1]| then [ps[|ps| - 1][i]] else [])
  }

  /** One pass of `for (i, gpu) in enumerate(pass): gpus[i].append(gpu)` over the groups. The
      dictionary's keys are always `0 .. len(gpus) - 1` in insertion order, so it is a sequence
      indexed by them. */
  function AddPass(groups: seq<seq<Gpu>>, pass: seq<Gpu>): (r: seq<seq<Gpu>>)
    ensures |r| == if |groups| < |pass| then |pass| else |groups|
  {
    seq(if |groups| < |pass| then |pass| else |groups|,
        k requires 0 <= k => (if k < |groups| then groups[k] else []) + (if k < |pass| then [pass[k]] else []))
  }

  /** Appending device `i` of a pass to the groups built from its first `i` devices: to its
      group when there is one, as a new group otherwise. */
  lemma AddPassStep(groups: seq<seq<Gpu>>, pass: seq<Gpu>, i: nat)
    requires i < |pass|
    ensures var g := AddPass(groups, pass[..i]);
            AddPass(groups, pass[..i + 1]) == if i < |g| then g[i := g[i] + [pass[i]]] else g + [[pass[i]]]
  {
    var g := AddPass(groups, pass[..i]);
    var h := AddPass(groups, pass[..i + 1]);
    var expected := if i < |g| then g[i := g[i] + [pass[i]]] else g + [[pass[i]]];
    assert |h| == |expected|;
    forall k | 0 <= k < |h|
      ensures h[k] == expected[k]
    {
      if k < i {
        assert pass[..i + 1][k] == pass[..i][k];
      }
    }
  }

  /** The groups after all passes, added in order. */
  function Grouped(ps: seq<seq<Gpu>>): seq<seq<Gpu>>
    decreases |ps|
  {
    if ps == [] then [] else AddPass(Grouped(ps[..|ps| - 1]), ps[|ps| - 1])
  }

  lemma {:induction false} ColumnBeyond(ps: seq<seq<Gpu>>, i: nat)
    requires i >= MaxLen(ps)
    ensures Column(ps, i) == []
    decreases |ps|
  {
    if ps != [] {
      ColumnBeyond(ps[..|ps| - 1], i);
    }
  }

  /** Grouping by position puts at position `i` exactly the `i`-th device of every pass that
      has one, in pass order, and there is one group per position of the longest pass. */
  lemma {:induction false} GroupedColumns(ps: seq<seq<Gpu>>)
    ensures |Grouped(ps)| == MaxLen(ps)
    ensures forall i :: 0 <= i < MaxLen(ps) ==> Grouped(ps)[i] == Column(ps, i)
    decreases |ps|
  {
    if ps != [] {
      var init := ps[..|ps| - 1];
      GroupedColumns(init);
      forall i | 0 <= i < MaxLen(ps)
        ensures Grouped(ps)[i] == Column(ps, i)
      {
        if i >= MaxLen(init) {
          ColumnBeyond(init, i);
        }
      }
    }
  }

  /** Every group holds at least one sample, and grouping keeps the samples' utilization. */
  lemma {:induction false} GroupedFilled(ps: seq<seq<Gpu>>)
    requires Known(ps)
    ensures forall i :: 0 <= i < |Grouped(ps)| ==> |Grouped(ps)[i]| > 0
    ensures Known(Grouped(ps))
    decreases |ps|
  {
    if ps != [] {
      var init := ps[..|ps| - 1];
      assert Known(init) by {
        forall p, j | 0 <= p < |init| && 0 <= j < |init[p]|
          ensures init[p][j].utilFree.Some?
        {
          assert init[p] == ps[p];
        }
      }
      GroupedFilled(init);
      var g: seq<seq<Gpu>> := Grouped(ps);
      forall p: int, j: int | 0 <= p < |g| && 0 <= j < |g[p]|
        ensures g[p][j].utilFree.Some?
      {
        var gi: seq<seq<Gpu>> := Grouped(init);
        if p < |gi| && j < |gi[p]| {
          assert g[p][j] == gi[p][j];
        } else {
          assert g[p][j] == ps[|ps| - 1][p];
        }
      }
    }
  }

  /** The inner loop of gpu_runner.py:82-86: each device of one pass joins the group of its
      position, which is created when the pass is the first to reach that position. */
  method AppendPass(groups: seq<seq<Gpu>>, devices: seq<Gpu>) returns (r: seq<seq<Gpu>>)
    ensures r == AddPass(groups, devices)
  {
    r := groups;
    assert devices[..0] == [];
    forall k | 0 <= k < |groups|
      ensures AddPass(groups, devices[..0])[k] == groups[k]
    {
      assert groups[k] + [] == groups[k];
    }
    assert AddPass(groups, devices[..0]) == groups;
    var i := 0;
    while i < |devices|
      invariant 0 <= i <= |devices|
      invariant r == AddPass(groups, devices[..i])
    {
      AddPassStep(groups, devices, i);
      if i < |r| {
        r := r[i := r[i] + [devices[i]]];
      } else {
        r := r + [[devices[i]]];
      }
      i := i + 1;
    }
    assert devices[..i] == devices;
  }

  /** The sampling loop (gpu_runner.py:79-86): one status query per report, each device
      appended to the group of its position in that report. */
  method SampleDevices(reports: seq<string>, skipGpus: seq<int>) returns (r: Result<seq<seq<Gpu>>, ParseError>)
    ensures r.Failure? <==> Passes(Sampled(reports, skipGpus)).Failure?
    ensures r.Failure? ==> r.error == Passes(Sampled(reports, skipGpus)).error
    ensures r.Success? ==> r.value == Grouped(Passes(Sampled(reports, skipGpus)).value)
  {
    ghost var results := Sampled(reports, skipGpus);
    var groups: seq<seq<Gpu>> := [];
    var p := 0;
    while p < |reports|
      invariant 0 <= p <= |reports|
      invariant Passes(results[..p]).Success?
      invariant groups == Grouped(Passes(results[..p]).value)
    {
      var pass := GetGpus(skipGpus, reports[p], false);
      assert pass == results[p];
      if pass.Failure? {
        PassesStep(results, p);
        PassesPrefixFails(results, p + 1);
        return Failure(pass.error);
      }
      PassesStep(results, p);
      groups := AppendPass(groups, pass.value);
      p := p + 1;
    }
    assert results[..p] == results;
    return Success(groups);
  }

  // ---------------------------------------------------------------------------------------
  // Reservations

  /** The two prunes of gpu_runner.py:90,93: a reservation whose command text appears in the
      status text has shown up on its device; one older than `keep_time` is assumed to have
      crashed. */
  function Prune(ps: seq<NewProcess>, status: string, now: real, keepTime: real): (r: seq<NewProcess>)
    ensures forall p :: p in r <==> p in ps && !Contains(status, p.command) && now - p.timestamp < keepTime
    ensures forall p :: multiset(r)[p] ==
              if !Contains(status, p.command) && now - p.timestamp < keepTime then multiset(ps)[p] else 0
  {
    FilterCounts(ps, (p: NewProcess) => !Contains(status, p.command));
    Fresh(Filter(ps, (p: NewProcess) => !Contains(status, p.command)), now, keepTime)
  }

  /** Both prunes keep the list's order: pruning a concatenation prunes each part. */
  lemma PruneAppend(a: seq<NewProcess>, b: seq<NewProcess>, status: string, now: real, keepTime: real)
    ensures Prune(a + b, status, now, keepTime) == Prune(a, status, now, keepTime) + Prune(b, status, now, keepTime)
  {
    var shown := (p: NewProcess) => !Contains(status, p.command);
    FilterAppend(a, b, shown);
    FreshAppend(Filter(a, shown), Filter(b, shown), now, keepTime);
  }

  /** The element `list[g]` of a list of length `n` denotes: Python counts negative indices
      from the end; anything else is an `IndexError`. */
  function Slot(g: int, n: nat): (r: Option<nat>)
    ensures r.Some? ==> r.value < n && (r.value == g || r.value == g + n)
    ensures r.None? <==> g >= n || g + n < 0
  {
    if 0 <= g < n then Some(g) else if 0 <= g + n < n then Some(g + n) else None
  }

  /** The memory held back for position `i`: the sum of `mem_needed` over the reservations
      whose `gpu_num` denotes `i`. */
  function ReservedMem(ps: seq<NewProcess>, i: nat, n: nat): int
    decreases |ps|
  {
    if ps == [] then 0
    else ReservedMem(ps[..|ps| - 1], i, n) + (if Slot(ps[|ps| - 1].gpuNum, n) == Some(i) then ps[|ps| - 1].memNeeded else 0)
  }

  /** The utilization held back for position `i`, likewise. */
  function ReservedUtil(ps: seq<NewProcess>, i: nat, n: nat): int
    decreases |ps|
  {
    if ps == [] then 0
    else ReservedUtil(ps[..|ps| - 1], i, n) + (if Slot(ps[|ps| - 1].gpuNum, n) == Some(i) then ps[|ps| - 1].utilNeeded else 0)
  }

  /** Whether every reservation's `gpu_num` is a valid index into a list of `n` devices. */
  predicate Slotted(ps: seq<NewProcess>, n: nat) {
    forall k :: 0 <= k < |ps| ==> Slot(ps[k].gpuNum, n).Some?
  }

  /** The totals of gpu_runner.py:100-104, accumulated in two arrays of `n` zeros; `ok` is false
      when a reservation's device index is out of range (an `IndexError`). */
  method ReservedTotals(ps: seq<NewProcess>, n: nat) returns (ok: bool, mem: seq<int>, util: seq<int>)
    ensures ok <==> Slotted(ps, n)
    ensures ok ==> |mem| == n && |util| == n
    ensures ok ==> forall i :: 0 <= i < n ==> mem[i] == ReservedMem(ps, i, n) && util[i] == ReservedUtil(ps, i, n)
  {
    var memArr := new int[n](_ => 0);
    var utilArr := new int[n](_ => 0);
    var k := 0;
    while k < |ps|
      invariant 0 <= k <= |ps|
      invariant Slotted(ps[..k], n)
      invariant forall i :: 0 <= i < n ==> memArr[i] == ReservedMem(ps[..k], i, n) && utilArr[i] == ReservedUtil(ps[..k], i, n)
    {
      assert ps[..k + 1][..k] == ps[..k];
      var slot := Slot(ps[k].gpuNum, n);
      if slot.None? {
        return false, [], [];
      }
      memArr[slot.value] := memArr[slot.value] + ps[k].memNeeded;
      utilArr[slot.value] := utilArr[slot.value] + ps[k].utilNeeded;
      k := k + 1;
    }
    assert ps[..k] == ps;
    return true, memArr[..], utilArr[..];
  }

  // ---------------------------------------------------------------------------------------
  // Aggregation and choice

  function MemFrees(samples: seq<Gpu>): (r: seq<int>)
    ensures |r| == |samples|
  {
    seq(|samples|, k requires 0 <= k < |samples| => samples[k].memFree)
  }

  function UtilFrees(samples: seq<Gpu>): (r: seq<int>)
    requires forall k :: 0 <= k < |samples| ==> samples[k].utilFree.Some?
    ensures |r| == |samples|
  {
    seq(|samples|, k requires 0 <= k < |samples| => samples[k].utilFree.value)
  }

  /** gpu_runner.py:107-111 for one group: device `i`'s free memory is the largest sampled free
      memory less what is reserved on it, its free utilization the mean sampled free
      utilization less what is reserved on it. */
  function Combine(i: nat, samples: seq<Gpu>, mem: int, util: int): (d: Device)
    requires |samples| > 0
    requires forall k :: 0 <= k < |samples| ==> samples[k].utilFree.Some?
    ensures d.num == i
    ensures d.memFree + mem in MemFrees(samples)
    ensures forall k :: 0 <= k < |samples| ==> samples[k].memFree - mem <= d.memFree
    ensures (d.utilFree + util as real) * |samples| as real == Sum(UtilFrees(samples)) as real
  {
    var total := Sum(UtilFrees(samples)) as real;
    var count := |samples| as real;
    assert total / count * count == total;
    assert forall k :: 0 <= k < |samples| ==> MemFrees(samples)[k] == samples[k].memFree;
    Device(i, Max(MemFrees(samples)) - mem, total / count - util as real)
  }

  /** gpu_runner.py:107-112: one device per group, numbered by the group's position. */
  function Aggregate(groups: seq<seq<Gpu>>, mem: seq<int>, util: seq<int>): (devs: seq<Device>)
    requires |mem| == |groups| && |util| == |groups|
    requires forall i :: 0 <= i < |groups| ==> |groups[i]| > 0
    requires Known(groups)
    ensures |devs| == |groups|
    ensures forall i :: 0 <= i < |groups| ==> devs[i] == Combine(i, groups[i], mem[i], util[i])
  {
    seq(|groups|, i requires 0 <= i < |groups| => Combine(i, groups[i], mem[i], util[i]))
  }

  /** The devices a job is matched against: the groups of the passes, less the reservations. */
  function Devices(ps: seq<seq<Gpu>>, live: seq<NewProcess>): (devs: seq<Device>)
    requires Known(ps) && Slotted(live, MaxLen(ps))
    ensures |devs| == MaxLen(ps)
  {
    GroupedFilled(ps);
    GroupedColumns(ps);
    var groups := Grouped(ps);
    var n := |groups|;
    Aggregate(groups, seq(n, i requires 0 <= i < n => ReservedMem(live, i, n)),
                      seq(n, i requires 0 <= i < n => ReservedUtil(live, i, n)))
  }

  /** Device `i` is aggregated from column `i` of the passes (the `i`-th device of every pass
      that has one) and the reservations whose index denotes `i`. */
  lemma DevicesAt(ps: seq<seq<Gpu>>, live: seq<NewProcess>, i: nat)
    requires Known(ps) && Slotted(live, MaxLen(ps)) && i < MaxLen(ps)
    ensures Column(ps, i) != [] && forall k :: 0 <= k < |Column(ps, i)| ==> Column(ps, i)[k].utilFree.Some?
    ensures Devices(ps, live)[i] == Combine(i, Column(ps, i), ReservedMem(live, i, MaxLen(ps)), ReservedUtil(live, i, MaxLen(ps)))
  {
    GroupedFilled(ps);
    GroupedColumns(ps);
    var g := Grouped(ps);
    assert g[i] == Column(ps, i);
    forall k | 0 <= k < |g[i]|
      ensures g[i][k].utilFree.Some?
    {
    }
  }

  /** Why a tick ends the runner: an exception propagates out of the loop (after the `finally`
      at gpu_runner.py:139-140 released the lock). */
  datatype Crash =
    | LockLeftBehind            // the runner's own marker was still there (gpu_runner.py:53)
    | LockError(fs: FsError)    // `acquire_lock` raised
    | BadJobLine(job: JobError) // the head line is not `mem|util|command`
    | BadReport(report: ParseError)
    | ReservationIndex          // a reservation's device index is out of range
    | BadTemplate(format: FormatError)

  /** How a tick ends. */
  datatype Outcome =
    | NoJobFile                 // the job file does not exist (the source waits)
    | LockUnavailable           // the lock was not obtained within the attempts modelled
    | NoJob                      // the head line is blank
    | NoFit                      // no device meets the job's thresholds
    | Dispatched(command: string, gpu: nat)
    | Crashed(reason: Crash)

  /** What choosing a device for `job` decides, and the reservation list afterwards. */
  datatype Decision = Decision(outcome: Outcome, reservations: seq<NewProcess>)

  /** gpu_runner.py:79-132 for a parsed job: sample, prune, hold back the reservations,
      aggregate, pick, render and reserve. */
  function Place(job: Job, reports: seq<string>, skipGpus: seq<int>, keepTime: real,
                 reservations: seq<NewProcess>, status: string, now: real, startedAt: real): (d: Decision)
    ensures d.outcome.Dispatched? ==>
              (Passes(Sampled(reports, skipGpus)).Success? &&
               d.outcome.gpu < MaxLen(Passes(Sampled(reports, skipGpus)).value) &&
               Format(job.script, IntToString(d.outcome.gpu)) == Success(d.outcome.command) &&
               d.reservations == Prune(reservations, status, now, keepTime) +
                                 [NewProcess(d.outcome.command, d.outcome.gpu, job.memNeeded, job.utilNeeded, startedAt)])
    ensures d.outcome.NoFit? ==> d.reservations == Prune(reservations, status, now, keepTime)
    ensures d.outcome.Dispatched? || d.outcome.NoFit? || d.outcome.Crashed?
  {
    match Passes(Sampled(reports, skipGpus))
    case Failure(e) => Decision(Crashed(BadReport(e)), reservations)
    case Success(ps) =>
      PassesKnown(reports, skipGpus);
      var live := Prune(reservations, status, now, keepTime);
      if !Slotted(live, MaxLen(ps)) then Decision(Crashed(ReservationIndex), live)
      else
        match Pick(Devices(ps, live), job.memNeeded, job.utilNeeded)
        case None => Decision(NoFit, live)
        case Some(g) =>
          match Format(job.script, IntToString(g))
          case Failure(e) => Decision(Crashed(BadTemplate(e)), live)
          case Success(cmd) => Decision(Dispatched(cmd, g), live + [NewProcess(cmd, g, job.memNeeded, job.utilNeeded, startedAt)])
  }

  /** The device a job is dispatched to meets both thresholds, has the largest free
      utilization among the devices that do, and is the first such (gpu_runner.py:114-117). */
  lemma PlaceChoosesBest(job: Job, reports: seq<string>, skipGpus: seq<int>, keepTime: real,
                         reservations: seq<NewProcess>, status: string, now: real, startedAt: real)
    ensures var d := Place(job, reports, skipGpus, keepTime, reservations, status, now, startedAt);
            d.outcome.Dispatched? ==>
              Passes(Sampled(reports, skipGpus)).Success? &&
              var ps := Passes(Sampled(reports, skipGpus)).value;
              var live := Prune(reservations, status, now, keepTime);
              Known(ps) && Slotted(live, MaxLen(ps)) &&
              var devs := Devices(ps, live);
              var g := d.outcome.gpu;
              g < |devs| && Fits(devs[g], job.memNeeded, job.utilNeeded) &&
              (forall i :: 0 <= i < |devs| && Fits(devs[i], job.memNeeded, job.utilNeeded) ==>
                 devs[i].utilFree <= devs[g].utilFree) &&
              (forall i :: 0 <= i < g && Fits(devs[i], job.memNeeded, job.utilNeeded) ==>
                 devs[i].utilFree < devs[g].utilFree)
  {
    var d := Place(job, reports, skipGpus, keepTime, reservations, status, now, startedAt);
    PlacePicks(job, reports, skipGpus, keepTime, reservations, status, now, startedAt);
    if d.outcome.Dispatched? {
      var ps := Passes(Sampled(reports, skipGpus)).value;
      var live := Prune(reservations, status, now, keepTime);
      PickedBest(Devices(ps, live), job.memNeeded, job.utilNeeded, d.outcome.gpu);
    }
  }

  /** A dispatched job goes to the device `Pick` chooses among the aggregated devices. */
  lemma PlacePicks(job: Job, reports: seq<string>, skipGpus: seq<int>, keepTime: real,
                   reservations: seq<NewProcess>, status: string, now: real, startedAt: real)
    ensures var d := Place(job, reports, skipGpus, keepTime, reservations, status, now, startedAt);
            d.outcome.Dispatched? ==>
              Passes(Sampled(reports, skipGpus)).Success? &&
              var ps := Passes(Sampled(reports, skipGpus)).value;
              var live := Prune(reservations, status, now, keepTime);
              Known(ps) && Slotted(live, MaxLen(ps)) &&
              Pick(Devices(ps, live), job.memNeeded, job.utilNeeded) == Some(d.outcome.gpu)
  {
    var d := Place(job, reports, skipGpus, keepTime, reservations, status, now, startedAt);
    if d.outcome.Dispatched? {
      PassesKnown(reports, skipGpus);
    }
  }

  /** When a job finds no device, no device meets both of its thresholds
      (gpu_runner.py:114,121). */
  lemma PlaceNoFit(job: Job, reports: seq<string>, skipGpus: seq<int>, keepTime: real,
                   reservations: seq<NewProcess>, status: string, now: real, startedAt: real)
    ensures var d := Place(job, reports, skipGpus, keepTime, reservations, status, now, startedAt);
            d.outcome.NoFit? ==>
              Passes(Sampled(reports, skipGpus)).Success? &&
              var ps := Passes(Sampled(reports, skipGpus)).value;
              var live := Prune(reservations, status, now, keepTime);
              Known(ps) && Slotted(live, MaxLen(ps)) &&
              var devs := Devices(ps, live);
              forall i :: 0 <= i < |devs| ==> !Fits(devs[i], job.memNeeded, job.utilNeeded)
  {
    var d := Place(job, reports, skipGpus, keepTime, reservations, status, now, startedAt);
    if d.outcome.NoFit? {
      PassesKnown(reports, skipGpus);
      var ps := Passes(Sampled(reports, skipGpus)).value;
      var live := Prune(reservations, status, now, keepTime);
      assert Slotted(live, MaxLen(ps));
      assert Pick(Devices(ps, live), job.memNeeded, job.utilNeeded) == None;
    }
  }

  // ---------------------------------------------------------------------------------------
  // The tick

  /** The runner's settings: `--job_file`, `--skip_gpus`, `--keep_time` and the lock suffix. */
  datatype Config = Config(jobFile: string, skipGpus: seq<int>, keepTime: real, suffix: string)

  /** What a tick leaves behind: how it ended, the disk, the reservations, and the commands it
      handed to the shell. */
  datatype Step = Step(outcome: Outcome, disk: Disk, reservations: seq<NewProcess>, run: seq<string>)

  /** The text `open(job_file).read()` would give. */
  function FileText(disk: Disk, p: string): string {
    if LocOf(p) in disk.text then disk.text[LocOf(p)] else ""
  }

  /** What a tick makes of the job file's text while it holds the lock, given the reservations. */
  type Handler = (string, seq<NewProcess>) -> Decision

  /** gpu_runner.py:62-132 on the text of the job file: a blank head line is no job, a head line
      that does not parse ends the tick, and a parsed job is placed. */
  function JobDecision(text: string, reservations: seq<NewProcess>, cfg: Config, reports: seq<string>,
                       status: string, now: real, startedAt: real): (d: Decision)
    ensures d.outcome.NoJob? <==> Strip(HeadLine(text)) == ""
    ensures d.outcome.NoJob? ==> d.reservations == reservations
    ensures d.outcome.Dispatched? ==>
              var job := ParseJob(Strip(HeadLine(text)));
              job.Success? &&
              d.reservations == Prune(reservations, status, now, cfg.keepTime) +
                [NewProcess(d.outcome.command, d.outcome.gpu, job.value.memNeeded, job.value.utilNeeded, startedAt)]
  {
    var spec := Strip(HeadLine(text));
    if spec == "" then Decision(NoJob, reservations)
    else match ParseJob(spec)
      case Failure(e) => Decision(Crashed(BadJobLine(e)), reservations)
      case Success(job) => Place(job, reports, cfg.skipGpus, cfg.keepTime, reservations, status, now, startedAt)
  }

  /** The runner's handler: `JobDecision` over the status reports of this tick, the status text
      of line 89 and the clock at lines 92 and 132. */
  function Handle(cfg: Config, reports: seq<string>, status: string, now: real, startedAt: real): (h: Handler)
    ensures forall t, res :: h(t, res).outcome.NoJob? ==> h(t, res).reservations == res
  {
    (t: string, res: seq<NewProcess>) => JobDecision(t, res, cfg, reports, status, now, startedAt)
  }

  /** One pass of gpu_runner.py:52-138 from a disk state and a reservation list, with the job
      file's text, once the lock is held, handed to `handle`. `rivals` are the other processes'
      markers during lock acquisition. */
  function TickWith(handle: Handler, disk: Disk, reservations: seq<NewProcess>, cfg: Config,
                    rivals: seq<set<string>>): (r: Step)
    ensures (forall t, res :: handle(t, res).outcome.NoJob? ==> handle(t, res).reservations == res) ==>
              (r.outcome.NoJob? ==> r.reservations == reservations)
    ensures r.run != [] <==> r.outcome.Dispatched?
    ensures r.outcome.Dispatched? ==> r.run == [r.outcome.command + " &"]
  {
    var marker := Marker(cfg.jobFile, cfg.suffix);
    if LocOf(marker) in disk.text then Step(Crashed(LockLeftBehind), Remove(disk, marker), reservations, [])
    else if LocOf(cfg.jobFile) !in disk.text then Step(NoJobFile, disk, reservations, [])
    else
      var acquired := AcquireSpec(disk, cfg.jobFile, cfg.suffix, rivals);
      var locked := acquired.1;
      match acquired.0
      case GaveUp => Step(LockUnavailable, locked, reservations, [])
      case AcquireFailed(e) => Step(Crashed(LockError(e)), Remove(locked, marker), reservations, [])
      case Held(_) =>
        var text := FileText(locked, cfg.jobFile);
        var d := handle(text, reservations);
        if d.outcome.Dispatched? then
          var rewritten := locked.(text := locked.text[LocOf(cfg.jobFile) := OtherLines(text)]);
          Step(d.outcome, Remove(rewritten, marker), d.reservations, [d.outcome.command + " &"])
        else Step(d.outcome, Remove(locked, marker), d.reservations, [])
  }

  /** One tick of the runner: `reports` are the outputs of the `n_passes` status queries. A blank
      head line starts nothing; a command is handed to the shell exactly when a job is
      dispatched. */
  function TickSpec(disk: Disk, reservations: seq<NewProcess>, cfg: Config, reports: seq<string>,
                    status: string, now: real, startedAt: real, rivals: seq<set<string>>): (r: Step)
    ensures r.outcome.NoJob? ==> r.reservations == reservations && r.run == []
    ensures r.run != [] <==> r.outcome.Dispatched?
    ensures r.outcome.Dispatched? ==> r.run == [r.outcome.command + " &"]
  {
    TickWith(Handle(cfg, reports, status, now, startedAt), disk, reservations, cfg, rivals)
  }

  /** Every tick leaves the disk without the runner's marker: each path out of the loop body,
      the `continue`s and the `finally` included, releases it. */
  lemma TickReleases(handle: Handler, disk: Disk, reservations: seq<NewProcess>, cfg: Config, rivals: seq<set<string>>)
    requires '/' !in cfg.suffix
    ensures LocOf(Marker(cfg.jobFile, cfg.suffix)) !in TickWith(handle, disk, reservations, cfg, rivals).disk.text
  {
    var marker := Marker(cfg.jobFile, cfg.suffix);
    if LocOf(marker) !in disk.text && LocOf(cfg.jobFile) in disk.text {
      AcquireEffect(disk, cfg.jobFile, cfg.suffix, rivals);
    }
  }

  /** A tick that dispatches nothing leaves every file as it was (the job stays at the head of
      the job file); one that dispatches a job replaces the job file's text by its other lines
      and changes nothing else. */
  lemma TickFileEffect(handle: Handler, disk: Disk, reservations: seq<NewProcess>, cfg: Config, rivals: seq<set<string>>)
    requires '/' !in cfg.suffix
    requires LocOf(Marker(cfg.jobFile, cfg.suffix)) !in disk.text
    ensures var r := TickWith(handle, disk, reservations, cfg, rivals);
            (!r.outcome.Dispatched? ==> r.disk == disk) &&
            (r.outcome.Dispatched? ==>
               r.disk == disk.(text := disk.text[LocOf(cfg.jobFile) := OtherLines(disk.text[LocOf(cfg.jobFile)])]))
  {
    var file := LocOf(cfg.jobFile);
    if file in disk.text {
      AcquireEffect(disk, cfg.jobFile, cfg.suffix, rivals);
      MarkerIsNotFile(cfg.jobFile, cfg.suffix);
      var acquired := AcquireSpec(disk, cfg.jobFile, cfg.suffix, rivals);
      if acquired.0.Held? {
        LockedDisk(disk, acquired.1, cfg.jobFile, cfg.suffix, OtherLines(disk.text[file]));
      }
    }
  }

  /** While the runner holds the lock, the job file reads as before, and releasing the marker
      gives back the disk as it was, with the job file rewritten or not. */
  lemma LockedDisk(disk: Disk, locked: Disk, fname: string, suffix: string, t: string)
    requires LocOf(Marker(fname, suffix)) != LocOf(fname) && LocOf(fname) in disk.text
    requires LocOf(Marker(fname, suffix)) !in disk.text
    requires locked.dirs == disk.dirs && locked.text == disk.text[LocOf(Marker(fname, suffix)) := ""]
    ensures FileText(locked, fname) == disk.text[LocOf(fname)]
    ensures Remove(locked, Marker(fname, suffix)) == disk
    ensures Remove(locked.(text := locked.text[LocOf(fname) := t]), Marker(fname, suffix)) ==
            disk.(text := disk.text[LocOf(fname) := t])
  {
    var own := LocOf(Marker(fname, suffix));
    assert Remove(locked, Marker(fname, suffix)).text == disk.text;
    assert locked.text[LocOf(fname) := t] - {own} == disk.text[LocOf(fname) := t];
  }

  /** A tick dispatches only a job it read from the head of the job file while holding the lock:
      its outcome and reservations are what the handler made of the file's text. */
  lemma TickDispatchReads(handle: Handler, disk: Disk, reservations: seq<NewProcess>, cfg: Config, rivals: seq<set<string>>)
    requires '/' !in cfg.suffix
    ensures var r := TickWith(handle, disk, reservations, cfg, rivals);
            r.outcome.Dispatched? ==>
              LocOf(cfg.jobFile) in disk.text &&
              var d := handle(disk.text[LocOf(cfg.jobFile)], reservations);
              r.outcome == d.outcome && r.reservations == d.reservations
  {
    var file := LocOf(cfg.jobFile);
    if LocOf(Marker(cfg.jobFile, cfg.suffix)) !in disk.text && file in disk.text {
      AcquireEffect(disk, cfg.jobFile, cfg.suffix, rivals);
      MarkerIsNotFile(cfg.jobFile, cfg.suffix);
      var acquired := AcquireSpec(disk, cfg.jobFile, cfg.suffix, rivals);
      if acquired.0.Held? {
        LockedDisk(disk, acquired.1, cfg.jobFile, cfg.suffix, "");
      }
    }
  }

  /** A dispatching tick appends exactly one reservation for the started command to the pruned
      list; the job line it came from is the head line of the job file. */
  lemma TickDispatchReserves(disk: Disk, reservations: seq<NewProcess>, cfg: Config, reports: seq<string>,
                             status: string, now: real, startedAt: real, rivals: seq<set<string>>)
    requires '/' !in cfg.suffix
    ensures var r := TickSpec(disk, reservations, cfg, reports, status, now, startedAt, rivals);
            r.outcome.Dispatched? ==>
              LocOf(cfg.jobFile) in disk.text &&
              var job := ParseJob(Strip(HeadLine(disk.text[LocOf(cfg.jobFile)])));
              job.Success? &&
              r.reservations == Prune(reservations, status, now, cfg.keepTime) +
                [NewProcess(r.outcome.command, r.outcome.gpu, job.value.memNeeded, job.value.utilNeeded, startedAt)]
  {
    TickDispatchReads(Handle(cfg, reports, status, now, startedAt), disk, reservations, cfg, rivals);
  }

  /** The runner process: its settings, the file system it shares with other processes, the
      reservations of jobs it started, and the commands it has handed to the shell. */
  class Runner {
    const cfg: Config
    const fs: FileSystem
    var reservations: seq<NewProcess>
    var launched: seq<string>

    /** The suffix is `str(randint(10000))` (gpu_runner.py:44). */
    predicate Valid() {
      cfg.suffix != "" && '/' !in cfg.suffix
    }

    constructor (jobFile: string, skipGpus: seq<int>, keepTime: real, draw: nat, fs: FileSystem)
      requires draw < 10000
      ensures Valid()
      ensures cfg == Config(jobFile, skipGpus, keepTime, IntToString(draw)) && this.fs == fs
      ensures reservations == [] && launched == []
    {
      var suffix := IntToString(draw);
      assert forall c :: c in suffix ==> IsDigit(c);
      cfg := Config(jobFile, skipGpus, keepTime, suffix);
      this.fs := fs;
      reservations := [];
      launched := [];
    }

    /** gpu_runner.py:79-132 for a parsed job: the reservations and the started commands are
        updated, the file system is not touched. */
    method PlaceJob(job: Job, reports: seq<string>, status: string, now: real, startedAt: real) returns (outcome: Outcome)
      modifies this
      ensures var d := Place(job, reports, cfg.skipGpus, cfg.keepTime, old(reservations), status, now, startedAt);
              outcome == d.outcome && reservations == d.reservations
      ensures launched == old(launched) + if outcome.Dispatched? then [outcome.command + " &"] else []
    {
      ghost var ps := Passes(Sampled(reports, cfg.skipGpus));
      var sampled := SampleDevices(reports, cfg.skipGpus);
      if sampled.Failure? {
        return Crashed(BadReport(sampled.error));
      }
      var groups := sampled.value;
      PassesKnown(reports, cfg.skipGpus);
      GroupedColumns(ps.value);
      GroupedFilled(ps.value);
      reservations := Prune(reservations, status, now, cfg.keepTime);
      var ok, mem, util := ReservedTotals(reservations, |groups|);
      if !ok {
        return Crashed(ReservationIndex);
      }
      var devs := Aggregate(groups, mem, util);
      assert devs == Devices(ps.value, reservations);
      var best := Pick(devs, job.memNeeded, job.utilNeeded);
      if best.None? {
        return NoFit;
      }
      var rendered := Format(job.script, IntToString(best.value));
      if rendered.Failure? {
        return Crashed(BadTemplate(rendered.error));
      }
      launched := launched + [rendered.value + " &"];
      reservations := reservations + [NewProcess(rendered.value, best.value, job.memNeeded, job.utilNeeded, startedAt)];
      return Dispatched(rendered.value, best.value);
    }

    /** gpu_runner.py:62-132 on the text of the job file: the reservations and the started
        commands are updated as `JobDecision` says, the file system is not touched. */
    method HandleJob(text: string, reports: seq<string>, status: string, now: real, startedAt: real)
      returns (outcome: Outcome)
      modifies this
      ensures var d := JobDecision(text, old(reservations), cfg, reports, status, now, startedAt);
              outcome == d.outcome && reservations == d.reservations
      ensures launched == old(launched) + if outcome.Dispatched? then [outcome.command + " &"] else []
    {
      var spec := Strip(HeadLine(text));
      if spec == "" {
        return NoJob;
      }
      var job := ParseJob(spec);
      if job.Failure? {
        return Crashed(BadJobLine(job.error));
      }
      outcome := PlaceJob(job.value, reports, status, now, startedAt);
    }

    /** One pass of the runner loop (gpu_runner.py:52-138, with the `finally` at 139-140). */
    method Tick(reports: seq<string>, status: string, now: real, startedAt: real, rivals: seq<set<string>>)
      returns (outcome: Outcome)
      requires Valid()
      modifies this, fs
      ensures var r := TickSpec(old(fs.State()), old(reservations), cfg, reports, status, now, startedAt, rivals);
              outcome == r.outcome && fs.State() == r.disk && reservations == r.reservations &&
              launched == old(launched) + r.run
    {
      var marker := Marker(cfg.jobFile, cfg.suffix);
      if LocOf(marker) in fs.text {
        fs.ReleaseLock(cfg.jobFile, cfg.suffix);
        return Crashed(LockLeftBehind);
      }
      if LocOf(cfg.jobFile) !in fs.text {
        return NoJobFile;
      }
      var acquired := fs.AcquireLock(cfg.jobFile, cfg.suffix, 0, rivals);
      match acquired {
        case GaveUp =>
          return LockUnavailable;
        case AcquireFailed(e) =>
          fs.ReleaseLock(cfg.jobFile, cfg.suffix);
          return Crashed(LockError(e));
        case Held(_) =>
      }
      var text := FileText(fs.State(), cfg.jobFile);
      outcome := HandleJob(text, reports, status, now, startedAt);
      if outcome.Dispatched? {
        fs.text := fs.text[LocOf(cfg.jobFile) := OtherLines(text)];
      }
      fs.ReleaseLock(cfg.jobFile, cfg.suffix);
    }
  }
}
