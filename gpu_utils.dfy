/** The status-report parser and device picker (gpu_utils.py). A report is the text printed by
    `nvidia-smi --query-gpu=index,memory.used,memory.total,utilization.gpu --format=csv`:
    a header line, then one `index, used MiB, total MiB, util %` row per device. */
module GpuUtils {
  import opened Wrappers
  import opened Strings
  import Seqs

  /** One device of a report: its index, memory used and free in MiB, and utilization used and
      free in percent; both utilizations are None for a device that does not report one. */
  datatype Gpu = Gpu(num: int, memUsed: int, memFree: int, utilUsed: Option<int>, utilFree: Option<int>)

  /** Why `get_gpus` raises ValueError: a row that does not unpack into four fields, or an index
      or memory field that `int` rejects. */
  datatype ParseError = WrongFieldCount(row: string) | NotAnInteger(field: string)

  /** What one data row contributes: nothing (`continue`), a device, or an exception. */
  datatype RowOutcome = Skipped | Parsed(gpu: Gpu) | Failed(error: ParseError)

  /** `row.split(', ')`. */
  function Fields(row: string): seq<string> {
    Split(row, ", ")
  }

  /** `field.split(' ')[0]`: the number in front of its unit. */
  function FirstWord(field: string): string {
    Split(field, " ")[0]
  }

  /** The body of the loop over data rows. */
  function ParseRow(row: string, skipGpus: seq<int>, keepAll: bool): (r: RowOutcome)
    ensures r.Failed? <==> |Fields(row)| != 4 || ParseInt(Fields(row)[0]).None? ||
                           (ParseInt(Fields(row)[0]).value !in skipGpus &&
                            (ParseInt(FirstWord(Fields(row)[1])).None? || ParseInt(FirstWord(Fields(row)[2])).None?))
    ensures r.Parsed? ==> |Fields(row)| == 4 && ParseInt(Fields(row)[0]) == Some(r.gpu.num) && r.gpu.num !in skipGpus
    ensures r.Parsed? ==> ParseInt(FirstWord(Fields(row)[1])) == Some(r.gpu.memUsed) &&
                          ParseInt(FirstWord(Fields(row)[2])) == Some(r.gpu.memUsed + r.gpu.memFree)
    ensures r.Parsed? ==> r.gpu.utilUsed == ParseInt(FirstWord(Fields(row)[3]))
    ensures r.Parsed? && r.gpu.utilUsed.Some? ==> r.gpu.utilFree == Some(100 - r.gpu.utilUsed.value)
    ensures r.Parsed? && r.gpu.utilUsed.None? ==> keepAll && r.gpu.utilFree.None?
    ensures r.Skipped? ==> |Fields(row)| == 4 && ParseInt(Fields(row)[0]).Some? &&
                           (ParseInt(Fields(row)[0]).value in skipGpus ||
                            (!keepAll && ParseInt(FirstWord(Fields(row)[3])).None?))
  {
    var f := Fields(row);
    if |f| != 4 then Failed(WrongFieldCount(row))
    else match ParseInt(f[0]) {
      case None => Failed(NotAnInteger(f[0]))
      case Some(num) =>
        if num in skipGpus then Skipped
        else match ParseInt(FirstWord(f[1])) {
          case None => Failed(NotAnInteger(FirstWord(f[1])))
          case Some(memUsed) => match ParseInt(FirstWord(f[2])) {
            case None => Failed(NotAnInteger(FirstWord(f[2])))
            case Some(memTotal) => match ParseInt(FirstWord(f[3])) {
              case Some(utilUsed) =>
                Parsed(Gpu(num, memUsed, memTotal - memUsed, Some(utilUsed), Some(100 - utilUsed)))
              case None =>
                if keepAll then Parsed(Gpu(num, memUsed, memTotal - memUsed, None, None)) else Skipped
            }
          }
        }
    }
  }

  /** What each data row contributes, in row order. */
  function Outcomes(rows: seq<string>, skipGpus: seq<int>, keepAll: bool): (outs: seq<RowOutcome>)
    ensures |outs| == |rows|
  {
    seq(|rows|, j requires 0 <= j < |rows| => ParseRow(rows[j], skipGpus, keepAll))
  }

  /** The loop's accumulation: the devices of the parsed rows in order, unless some row raised, in
      which case the first such row decides the error. */
  function Collect(outs: seq<RowOutcome>): (r: Result<seq<Gpu>, ParseError>)
    ensures r.Success? ==> |r.value| <= |outs|
    ensures r.Failure? <==> exists j :: 0 <= j < |outs| && outs[j].Failed?
    ensures r.Failure? ==> exists j :: 0 <= j < |outs| && outs[j] == Failed(r.error) &&
                                       forall i :: 0 <= i < j ==> !outs[i].Failed?
    decreases |outs|
  {
    if outs == [] then Success([])
    else
      var rest := Collect(outs[1..]);
      match outs[0] {
        case Failed(e) => Failure(e)
        case Skipped => rest
        case Parsed(g) => if rest.Success? then Success([g] + rest.value) else rest
      }
  }

  /** `get_gpus` over the given data rows. */
  function ParseRows(rows: seq<string>, skipGpus: seq<int>, keepAll: bool): Result<seq<Gpu>, ParseError> {
    Collect(Outcomes(rows, skipGpus, keepAll))
  }

  /** The data rows of a report: `report.strip().split('\n')[1:]`, the first line being the header. */
  function DataRows(report: string): seq<string> {
    Split(Strip(report), "\n")[1..]
  }

  /** After the first `i` outcomes the loop holds `gpus`, and finishing the rest gives `Collect`. */
  predicate CollectedUpTo(outs: seq<RowOutcome>, i: nat, gpus: seq<Gpu>)
    requires i <= |outs|
  {
    Collect(outs) == if Collect(outs[i..]).Success? then Success(gpus + Collect(outs[i..]).value) else Collect(outs[i..])
  }

  /** One turn of the loop over the outcomes keeps `CollectedUpTo`, or ends it with the error. */
  lemma CollectStep(outs: seq<RowOutcome>, i: nat, gpus: seq<Gpu>)
    requires i < |outs| && CollectedUpTo(outs, i, gpus)
    ensures outs[i].Failed? ==> Collect(outs) == Failure(outs[i].error)
    ensures outs[i].Skipped? ==> CollectedUpTo(outs, i + 1, gpus)
    ensures outs[i].Parsed? ==> CollectedUpTo(outs, i + 1, gpus + [outs[i].gpu])
  {
    assert outs[i..][1..] == outs[i + 1..];
    if outs[i].Parsed? {
      var tail := Collect(outs[i + 1..]);
      if tail.Success? {
        assert gpus + ([outs[i].gpu] + tail.value) == (gpus + [outs[i].gpu]) + tail.value;
      }
    }
  }

  /** Before the loop nothing is held; after the last outcome what is held is the result. */
  lemma CollectedEnds(outs: seq<RowOutcome>, gpus: seq<Gpu>)
    ensures CollectedUpTo(outs, 0, [])
    ensures CollectedUpTo(outs, |outs|, gpus) ==> Collect(outs) == Success(gpus)
  {
    assert outs[0..] == outs;
    if Collect(outs).Success? {
      assert [] + Collect(outs).value == Collect(outs).value;
    }
    assert outs[|outs|..] == [];
    assert gpus + [] == gpus;
  }

  /** `get_gpus(skip_gpus, info_string=report, keep_all)`: the data rows of the report, then the
      loop over them. */
  method GetGpus(skipGpus: seq<int>, report: string, keepAll: bool) returns (r: Result<seq<Gpu>, ParseError>)
    ensures r == ParseRows(DataRows(report), skipGpus, keepAll)
  {
    r := CollectRows(DataRows(report), skipGpus, keepAll);
  }

  /** The loop of `get_gpus` over the data rows: it appends each parsed device, `continue`s past
      skipped ones and stops at the first row that raises. */
  method CollectRows(rows: seq<string>, skipGpus: seq<int>, keepAll: bool) returns (r: Result<seq<Gpu>, ParseError>)
    ensures r == ParseRows(rows, skipGpus, keepAll)
  {
    ghost var outs := Outcomes(rows, skipGpus, keepAll);
    var gpus: seq<Gpu> := [];
    var i := 0;
    CollectedEnds(outs, gpus);
    while i < |rows|
      invariant 0 <= i <= |rows| && |outs| == |rows|
      invariant CollectedUpTo(outs, i, gpus)
    {
      var o := ParseRow(rows[i], skipGpus, keepAll);
      assert o == outs[i];
      CollectStep(outs, i, gpus);
      match o {
        case Failed(e) =>
          return Failure(e);
        case Skipped =>
        case Parsed(g) =>
          gpus := gpus + [g];
      }
      i := i + 1;
    }
    CollectedEnds(outs, gpus);
    r := Success(gpus);
  }

  predicate Increasing(idx: seq<nat>) {
    forall k, l :: 0 <= k < l < |idx| ==> idx[k] < idx[l]
  }

  /** The positions of `idx` moved one place on, optionally preceded by position 0. */
  lemma ShiftIndices(tail: seq<nat>, withFirst: bool) returns (idx: seq<nat>)
    requires Increasing(tail)
    ensures |idx| == |tail| + (if withFirst then 1 else 0)
    ensures withFirst ==> idx[0] == 0
    ensures forall k :: 0 <= k < |tail| ==> idx[k + |idx| - |tail|] == tail[k] + 1
    ensures Increasing(idx)
  {
    var shifted := seq(|tail|, k requires 0 <= k < |tail| => tail[k] + 1);
    idx := if withFirst then [0] + shifted else shifted;
  }

  /** The step of `CollectParsed`: positions of the devices collected from all outcomes but the
      first, moved one place on and preceded by position 0 when the first outcome is parsed. */
  lemma ParsedStep(outs: seq<RowOutcome>, tail: seq<nat>, gs: seq<Gpu>) returns (idx: seq<nat>)
    requires |outs| > 0 && |tail| == |gs| && Increasing(tail)
    requires forall k :: 0 <= k < |tail| ==> tail[k] + 1 < |outs| && outs[tail[k] + 1] == Parsed(gs[k])
    requires forall j :: 1 <= j < |outs| && outs[j].Parsed? ==> j - 1 in tail
    ensures var all := (if outs[0].Parsed? then [outs[0].gpu] else []) + gs;
            |idx| == |all| && Increasing(idx) &&
            (forall k :: 0 <= k < |idx| ==> idx[k] < |outs| && outs[idx[k]] == Parsed(all[k])) &&
            (forall j :: 0 <= j < |outs| && outs[j].Parsed? ==> j in idx)
  {
    idx := ShiftIndices(tail, outs[0].Parsed?);
    ParsedStepFrom(outs, tail, gs, idx);
    ParsedStepCovers(outs, tail, idx);
  }

  /** Each shifted position holds the device it stands for. */
  lemma ParsedStepFrom(outs: seq<RowOutcome>, tail: seq<nat>, gs: seq<Gpu>, idx: seq<nat>)
    requires |outs| > 0 && |tail| == |gs|
    requires forall k :: 0 <= k < |tail| ==> tail[k] + 1 < |outs| && outs[tail[k] + 1] == Parsed(gs[k])
    requires |idx| == |tail| + (if outs[0].Parsed? then 1 else 0)
    requires outs[0].Parsed? ==> idx[0] == 0
    requires forall k :: 0 <= k < |tail| ==> idx[k + |idx| - |tail|] == tail[k] + 1
    ensures var all := (if outs[0].Parsed? then [outs[0].gpu] else []) + gs;
            forall k :: 0 <= k < |idx| ==> idx[k] < |outs| && outs[idx[k]] == Parsed(all[k])
  {
    var d := |idx| - |tail|;
    var all := (if outs[0].Parsed? then [outs[0].gpu] else []) + gs;
    forall k | 0 <= k < |idx|
      ensures idx[k] < |outs| && outs[idx[k]] == Parsed(all[k])
    {
      if k >= d {
        assert idx[k] == tail[k - d] + 1 && all[k] == gs[k - d];
      }
    }
  }

  /** Every parsed outcome has its position among the shifted ones. */
  lemma ParsedStepCovers(outs: seq<RowOutcome>, tail: seq<nat>, idx: seq<nat>)
    requires |outs| > 0
    requires forall j :: 1 <= j < |outs| && outs[j].Parsed? ==> j - 1 in tail
    requires |idx| == |tail| + (if outs[0].Parsed? then 1 else 0)
    requires outs[0].Parsed? ==> idx[0] == 0
    requires forall k :: 0 <= k < |tail| ==> idx[k + |idx| - |tail|] == tail[k] + 1
    ensures forall j :: 0 <= j < |outs| && outs[j].Parsed? ==> j in idx
  {
    var d := |idx| - |tail|;
    forall j | 0 <= j < |outs| && outs[j].Parsed?
      ensures j in idx
    {
      if j > 0 {
        var k :| 0 <= k < |tail| && tail[k] == j - 1;
        assert idx[k + d] == j;
      } else {
        assert idx[0] == 0;
      }
    }
  }

  /** Every device collected comes from its own outcome, in order, and every parsed outcome is
      collected: the result is exactly the parsed outcomes, in order. */
  lemma {:induction false} CollectParsed(outs: seq<RowOutcome>) returns (idx: seq<nat>)
    requires Collect(outs).Success?
    ensures var gs := Collect(outs).value;
            |idx| == |gs| && Increasing(idx) &&
            (forall k :: 0 <= k < |idx| ==> idx[k] < |outs| && outs[idx[k]] == Parsed(gs[k])) &&
            (forall j :: 0 <= j < |outs| && outs[j].Parsed? ==> j in idx)
    decreases |outs|
  {
    if outs == [] {
      idx := [];
    } else {
      var rest := outs[1..];
      var tail := CollectParsed(rest);
      var gs := Collect(rest).value;
      assert Collect(outs).value == (if outs[0].Parsed? then [outs[0].gpu] else []) + gs;
      forall k | 0 <= k < |tail|
        ensures tail[k] + 1 < |outs| && outs[tail[k] + 1] == Parsed(gs[k])
      {
        assert rest[tail[k]] == outs[tail[k] + 1];
      }
      forall j | 1 <= j < |outs| && outs[j].Parsed?
        ensures j - 1 in tail
      {
        assert rest[j - 1] == outs[j];
      }
      idx := ParsedStep(outs, tail, gs);
    }
  }

  /** Every device returned by `get_gpus` has an index outside `skip_gpus`, and reports its
      utilization unless `keep_all` is set. */
  lemma DevicesKept(rows: seq<string>, skipGpus: seq<int>, keepAll: bool)
    requires ParseRows(rows, skipGpus, keepAll).Success?
    ensures var gs := ParseRows(rows, skipGpus, keepAll).value;
            forall k :: 0 <= k < |gs| ==> gs[k].num !in skipGpus && (!keepAll ==> gs[k].utilFree.Some?)
  {
    var outs := Outcomes(rows, skipGpus, keepAll);
    var idx := CollectParsed(outs);
    var gs := ParseRows(rows, skipGpus, keepAll).value;
    forall k | 0 <= k < |gs|
      ensures gs[k].num !in skipGpus && (!keepAll ==> gs[k].utilFree.Some?)
    {
      assert outs[idx[k]] == ParseRow(rows[idx[k]], skipGpus, keepAll) == Parsed(gs[k]);
    }
  }

  /** A report whose stripped text is a single line has no data rows: the header line never
      yields a device, even when it is shaped like a data row. */
  lemma HeaderOnly(report: string, skipGpus: seq<int>, keepAll: bool)
    requires '\n' !in Strip(report)
    ensures ParseRows(DataRows(report), skipGpus, keepAll) == Success([])
  {
    SplitNoSep(Strip(report), '\n');
  }

  /** The first line is the header: the data rows of `header + "\n" + body` are the lines of `body`. */
  lemma FirstLineIsHeader(header: string, body: string)
    requires '\n' !in header && header != [] && !IsSpace(header[0])
    requires body != [] && !IsSpace(body[|body| - 1])
    ensures DataRows(header + "\n" + body) == Split(body, "\n")
  {
    var report := header + "\n" + body;
    assert report[0] == header[0] && report[|report| - 1] == body[|body| - 1];
    StripUnchanged(report);
    SplitAtFirst(header, '\n', body);
  }

  /** Why `get_best_gpu` fails: the report raises, the metric is neither 'util' nor 'mem'
      (AssertionError), or no device is left for `max` (ValueError). */
  datatype BestError = ReportError(error: ParseError) | UnknownMetric(metric: string) | NoDevices

  /** The quantity `get_best_gpu` maximises. */
  function Key(g: Gpu, metric: string): real
    requires metric == "util" ==> g.utilFree.Some?
  {
    if metric == "util" then g.utilFree.value as real else g.memFree as real
  }

  /** The choice `get_best_gpu` makes among devices that all report their utilization: the
      index of the first device with the most free utilization, or free memory. */
  function BestOf(gs: seq<Gpu>, metric: string): (r: Result<int, BestError>)
    requires forall i :: 0 <= i < |gs| ==> gs[i].utilFree.Some?
    ensures r.Success? <==> |gs| > 0 && (metric == "util" || metric == "mem")
    ensures metric != "util" && metric != "mem" ==> r == Failure(UnknownMetric(metric))
    ensures r.Success? ==>
              exists k :: 0 <= k < |gs| && gs[k].num == r.value &&
                (forall i :: 0 <= i < |gs| ==> Key(gs[i], metric) <= Key(gs[k], metric)) &&
                (forall i :: 0 <= i < k ==> Key(gs[i], metric) < Key(gs[k], metric))
  {
    if metric != "util" && metric != "mem" then Failure(UnknownMetric(metric))
    else if gs == [] then Failure(NoDevices)
    else
      var keys := seq(|gs|, i requires 0 <= i < |gs| => Key(gs[i], metric));
      var k := Seqs.ArgMax(keys);
      assert forall i :: 0 <= i < |gs| ==> keys[i] == Key(gs[i], metric);
      Success(gs[k].num)
  }

  /** `get_best_gpu(metric)` over the devices of `report` (parsed with no skip list and `keep_all`
      false). */
  function BestGpu(report: string, metric: string): (r: Result<int, BestError>)
    ensures r.Success? <==> ParseRows(DataRows(report), [], false).Success? &&
                            |ParseRows(DataRows(report), [], false).value| > 0 &&
                            (metric == "util" || metric == "mem")
    ensures ParseRows(DataRows(report), [], false).Success? && metric != "util" && metric != "mem" ==>
              r == Failure(UnknownMetric(metric))
    ensures r.Success? ==>
              var gs := ParseRows(DataRows(report), [], false).value;
              (forall i :: 0 <= i < |gs| ==> gs[i].utilFree.Some?) &&
              exists k :: 0 <= k < |gs| && gs[k].num == r.value &&
                (forall i :: 0 <= i < |gs| ==> Key(gs[i], metric) <= Key(gs[k], metric)) &&
                (forall i :: 0 <= i < k ==> Key(gs[i], metric) < Key(gs[k], metric))
  {
    match ParseRows(DataRows(report), [], false) {
      case Failure(e) => Failure(ReportError(e))
      case Success(gs) =>
        DevicesKept(DataRows(report), [], false);
        BestOf(gs, metric)
    }
  }
}
