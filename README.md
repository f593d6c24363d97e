# GPU job placer: a Dafny model

This project models the bookkeeping core of a small GPU job placer and proves properties of it.
The placer has five parts:

- **`gpu_utils.py`**: parses the CSV status report of `nvidia-smi
  --query-gpu=index,memory.used,memory.total,utilization.gpu --format=csv` into device records.
  It also picks the device with the most free utilization or free memory.
- **`gpu_runner.py`**: a single-machine runner. Each turn of its loop does the following.
  - It takes the head line `mem|util|command` of a job file under a marker-file lock.
  - It samples the devices several times, groups the samples by position, and holds back the
    resources of recently started jobs.
  - It starts the job on the fitting device with the most free utilization, and rewrites the job
    file without that line.
- **`machine.py`**: the multi-machine placer `Machine.start_jobs`. It takes jobs from a queue in
  ascending order of utilization need, and samples the machine over its shell session. Each
  started command is wrapped as `(cmd >> ~/.gpu_log 2>&1 &)`, and the machine keeps a ledger of
  recent reservations (`new_processes`).
- **`locking.py`**: the marker-file lock: `lock_exists`, `make_lock`, `release_lock`,
  `check_lock`, `acquire_lock` and `write_to_locked_file`.
- **`ssh.py`**: the prompt-delimited command channel. `execute` sends a command and reads until
  the text ends with `$ `, then drops the echoed first line and the prompt line. `_start_shell`
  drains the initial prompt.

## How the model is built

- **Pure logic becomes functions with named results and contracts.** This covers CSV rows,
  `int()`, `str.strip`/`split`/`join`, `str.format`, path handling, argmax, aggregation and
  picking.
- **Code that changes state becomes methods, each proved against a specification function:**
  - `GetGpus`: the `get_gpus` loop.
  - `Locking.FileSystem`: the lock operations over a mutable directory state.
  - `Ssh.Shell`: `execute` and `_start_shell` as loops over the bursts still to arrive.
  - `GpuRunner.Runner.Tick`: one turn of the runner loop.
  - `Machine.Machine.StartJobs`: the `start_jobs` loop over the `new_processes` field, the job
    queue (`JobStore`) and the session (`Shell`).

  A method's `ensures` equates its result and new state with the specification function applied
  to the old state, for example `(r, State()) == AcquireSpec(old(State()), …)`. The properties
  the source promises are proved as lemmas about those functions.
- **Inputs that come from outside become parameters.**
  - Status reports are strings.
  - The clock readings (`now` and the reservation timestamp) are `real` parameters, so each
    pass's two readings of `time()` are explicit.
  - The other processes' markers seen during lock acquisition are a sequence, one set per
    attempt.
  - The bursts the remote shell will send are a sequence of chunk sequences.
- **Retries are bounded.** `acquire_lock` polls and retries for ever. The model runs one attempt
  per entry of the rivals sequence and reports `GaveUp` when the entries run out. A pass of
  `start_jobs` takes a clock pair `clock(p)`.
- **Lock handling and placement are stated apart.** `GpuRunner.TickWith` is a tick that hands
  the job file's text to any handler once the lock is held. The lemmas about the lock and the
  files (`TickReleases`, `TickFileEffect`) hold for every handler. `TickSpec` plugs in the
  runner's own handler, `JobDecision`, which parses the head line and places the job.

### Where the code and its documentation differ, the model follows the code

- **Reserved resources are not clamped at zero.** Free memory and utilization may go negative
  after the subtraction (gpu_runner.py:108-109, machine.py:129-132).
- **The runner keeps a device missing from some passes.** It groups samples by position in
  each pass, so such a device is not dropped. Its mean is taken over the samples it has
  (gpu_runner.py:82-86, 109). `start_jobs` groups by the reported device number and divides the
  sum by `n_passes` (machine.py:131).
- **Ties between equally free devices go to the first in list order.** Python's `max` keeps the
  first maximal element; there is no lowest-id rule. For the runner the list position is the
  device id, and for `start_jobs` the order is the order in which device numbers were first seen.
- **The runner uses the maximum of sampled free memory** (gpu_runner.py:108). Its help text
  (gpu_runner.py:25-27) speaks of the maximum of memory used instead.
- **Errors are not degraded to "try again".**
  - An exception from sampling, from parsing, from a reservation index or from the command
    template ends the loop.
  - The runner's `finally` at gpu_runner.py:139-140 releases the lock, and the model removes the
    marker on those paths.
  - A report with no devices is not an error.
- **Both callers drop devices without a utilization reading** (`keep_all` false).
- **`Machine.execute` always awaits the reply.** It passes the codec name as the second argument
  of `SSHConnection.execute`, which is `await_output`, and a non-empty string is true
  (machine.py:61, ssh.py:41).
- **`__init__` never starts a shell** (the call at ssh.py:22 is commented out). Until
  `StartShell` runs, `execute` fails (`NoShell`), as the missing `self.shell` attribute makes it
  fail in the source.

Two places are the exception: where the code itself is wrong (see "## Findings"), the model
states the code as written in one member and builds the rest on the corrected member.

- **The lock's poll uses the corrected check.** `lock_exists` as written (locking.py:10) is
  `Locking.LockExists`, and it never reports a marker (`LockExistsNeverTrue`). `acquire_lock`
  and `write_to_locked_file` are modelled polling with the corrected `Locking.LockHeld`.
- **`start_jobs` uses the corrected utilization formula.** machine.py:131-132 as written is
  `Machine.CombineAsWritten`. The placer's devices are built with the corrected
  `Machine.Combine`, whose free utilization is lower by twice the reserved utilization
  (`ReservationRaisesFreeUtil`).

## Model

| member | source | states |
|---|---|---|
| Seqs.ArgMax | gpu_utils.py:71 | the index returned holds a largest key and no earlier index holds an equal key, as Python's `max` with a key function keeps the first maximum |
| Seqs.Max | machine.py:129 | the result is an element of the list and no element exceeds it |
| Strings.TrimStart | gpu_utils.py:36 | `lstrip()`: the result is a suffix of the input, everything removed is whitespace in Python's sense (ASCII and Unicode spaces and separators), and the result does not start with whitespace |
| Strings.TrimEnd | gpu_utils.py:36 | `rstrip()`: the result is a prefix of the input, everything removed is whitespace in Python's sense (ASCII and Unicode spaces and separators), and the result does not end with whitespace |
| Strings.StripUnchanged | gpu_utils.py:36 | `strip()` leaves a text without surrounding whitespace unchanged |
| Strings.StripKeepsInner | gpu_utils.py:36 | every non-space character survives `strip()`, at its position shifted by the removed prefix |
| Strings.JoinSplit | ssh.py:67 | `sep.join(s.split(sep)) == s` for every text and non-empty separator |
| Strings.SplitAtFirst | ssh.py:67 | splitting `a + c + b`, where `a` has no `c`, gives `a` followed by the pieces of `b` |
| Strings.SplitAtLast | ssh.py:67 | splitting `a + c + b`, where `b` has no `c`, gives the pieces of `a` followed by `b` |
| Strings.SplitNoSep | gpu_runner.py:69 | a text without the separator splits into itself alone |
| Strings.SplitJoin | gpu_runner.py:69 | splitting the join of separator-free pieces gives the pieces back |
| Strings.ContainsIff | gpu_runner.py:90 | `sub in s` holds exactly when `sub` occurs in `s` at some index |
| Strings.ParseIntStrips | gpu_utils.py:39 | `int(s)` is the signed decimal reading of `s` with surrounding whitespace removed |
| Strings.ParseIntRejects | gpu_utils.py:48-50 | a text with a character that is no digit, sign or space raises `ValueError` in `int()` |
| Strings.DigitChar | gpu_runner.py:126 | the character is a digit whose value is the given number |
| Strings.NatToString | gpu_runner.py:126 | `str(n)` of a natural number is a non-empty run of digits |
| Strings.DigitsRoundTrip | gpu_runner.py:126 | reading the digits of `str(n)` gives back `n` |
| Strings.ParseIntOfIntToString | gpu_runner.py:70-71 | `int(str(n)) == n` for every integer, negative ones included |
| Strings.FormatBraceFree | gpu_runner.py:126 | `str.format` copies text without braces unchanged and goes on with the rest |
| Strings.FormatOnePlaceholder | gpu_runner.py:126 | a template with one `{}` becomes the template with the argument in place of `{}` |
| Strings.FormatTwoPlaceholders | gpu_runner.py:126 | a template with two `{}` and one argument raises `IndexError` |
| GpuUtils.ParseRow | gpu_utils.py:37-56 | a row fails exactly when it lacks four `, `-separated fields, or has a bad number, or has a bad memory field on a device that is not skipped. A parsed row's device is not in the skip list, `mem_free = mem_total - mem_used` (each the integer before the first space) and `util_free = 100 - util_used`; missing utilization only with `keep_all`. A row is skipped exactly for a listed device, or for an unreadable utilization without `keep_all` |
| GpuUtils.Collect | gpu_utils.py:35-58 | the rows fail exactly when some row fails, and the error is that of the first failing row; otherwise there are at most as many devices as rows |
| GpuUtils.GetGpus | gpu_utils.py:23-58 | the loop with `continue` returns exactly the devices of the parsed data rows, or the first row's exception |
| GpuUtils.CollectRows | gpu_utils.py:35-58 | the loop over the data rows returns what `ParseRows` gives for them |
| GpuUtils.CollectParsed | gpu_utils.py:35-58 | the devices come from strictly increasing row positions and every parsed row contributes its device, so input order is kept |
| GpuUtils.DevicesKept | gpu_utils.py:39-54 | no returned device is in the skip list, and without `keep_all` every device has a utilization |
| GpuUtils.HeaderOnly | gpu_utils.py:36 | a report of a single line (the header) yields no devices |
| GpuUtils.FirstLineIsHeader | gpu_utils.py:36 | the data rows are the lines after the first line of the stripped report |
| GpuUtils.BestOf | gpu_utils.py:70-76 | succeeds exactly for a non-empty list and metric `util` or `mem`; any other metric fails the assertion. The number returned is that of a device with the largest key, the first such on ties |
| GpuUtils.BestGpu | gpu_utils.py:61-76 | `get_best_gpu` over a report: succeeds exactly when it parses to at least one device and the metric is known; the result is a first device of largest free utilization (or free memory) |
| Locking.SlashEnd | locking.py:26 | the position after the last `/`: a slash precedes it and none follows it |
| Locking.Basename | locking.py:26 | `os.path.basename`: a slash-free suffix of the path |
| Locking.TrimSlashes | locking.py:26 | a prefix of the text that ends in no slash, and is empty only when the text is all slashes |
| Locking.Dirname | locking.py:26 | `os.path.dirname` is empty exactly when the path has no slash |
| Locking.SlashEndAppend | locking.py:15 | appending slash-free text does not move the last slash |
| Locking.AppendNoSlash | locking.py:15 | appending slash-free text keeps the directory and extends the base name |
| Locking.MarkerNamePrefix | locking.py:27 | every marker name `base.lock_suffix` starts with `base.lock` |
| Locking.MarkerPlacement | locking.py:15 | the marker of `fname` lies in the directory of `fname`, named `basename(fname).lock_suffix` |
| Locking.Listing | locking.py:27 | `os.listdir(d)` fails for `''` and for missing directories; otherwise it lists exactly the names stored under `d` |
| Locking.LockExists | locking.py:9-11 | as written: it fails exactly when listing the directory fails |
| Locking.LockExistsNeverTrue | locking.py:10 | as written, `lock_exists` never returns true, whatever the directory holds |
| Locking.LockHeld | locking.py:9-11 | corrected: true exactly when some entry of the directory starts with `basename(fname).lock` |
| Locking.LockExistsMissesMarker | locking.py:10 | with a marker present, the written check answers false and the corrected one true |
| Locking.CheckLock | locking.py:25-29 | it fails exactly when listing the directory fails |
| Locking.CheckLockIff | locking.py:25-29 | the check passes exactly when our marker exists and is the only entry starting with `basename.lock` |
| Locking.Create | locking.py:15 | `open(p, 'w')` succeeds exactly when the directory exists, and then the file exists |
| Locking.Remove | locking.py:18-22 | the file is gone, every other file is unchanged, and a missing file is no error |
| Locking.RivalLocs | locking.py:56-58 | other processes' markers lie beside `fname` and start with `basename.lock` |
| Locking.AcquireSpec | locking.py:49-62 | the directories are unchanged; when the lock is held it is held with our suffix and the check passes |
| Locking.ClashRestores | locking.py:56-61 | an attempt that makes its marker, meets rivals and backs off leaves the disk as it found it |
| Locking.SoleMakesNothingElse | locking.py:58-62 | when the check passes after rivals acted, no rival marker was added |
| Locking.AcquireEffect | locking.py:52-62 | on success the only change is our empty marker; otherwise the disk is unchanged |
| Locking.WrittenText | locking.py:105-106 | mode `w` leaves exactly the text; `a+` appends it to an existing file or creates it |
| Locking.MarkerIsNotFile | locking.py:15 | a marker with a slash-free suffix is never the file it locks |
| Locking.WriteReleases | locking.py:103-108 | once the lock was held, the marker is gone afterwards, even when `write` fails. Without the lock nothing changes, and a successful write always leaves the file holding the written text |
| Locking.FileSystem.MakeLock | locking.py:14-15 | adds exactly the empty marker `fname.lock_suffix`, or fails on a missing directory and changes nothing |
| Locking.FileSystem.ReleaseLock | locking.py:18-22 | removes exactly the marker; without one it changes nothing, so it is idempotent |
| Locking.FileSystem.AcquireLock | locking.py:32-62 | the result and the new disk are those of `AcquireSpec` with the given suffix, or with a drawn one below 10000 when none is given |
| Locking.FileSystem.WriteToLockedFile | locking.py:93-108 | the result and the new disk are those of `WriteSpec` |
| Ssh.ReplyLength | ssh.py:57-65 | reading stops after the first burst that leaves the accumulated text ending in `$ `; no such burst means no reply |
| Ssh.FirstPromptBurst | ssh.py:31-39 | `_start_shell` stops at the first burst whose own text ends in `$ ` |
| Ssh.StripEchoAndPrompt | ssh.py:66-67 | the text loses its first and last lines; fewer than three lines give `""` |
| Ssh.TrimFramed | ssh.py:66-67 | a reply framed by an echo line and a prompt line gives back exactly the text between them |
| Ssh.ExecSpec | ssh.py:41-68 | without a shell `execute` fails; without `await_output` it returns `""` and reads nothing |
| Ssh.Run | ssh.py:54-68 | with a shell the command and a newline are sent first, and a reply consumes at least one burst; without one nothing changes and the call fails |
| Ssh.ExecuteReturnsOutput | ssh.py:54-67 | when the first `n` bursts together hold echo, output and prompt, and no earlier burst ends the text with the prompt, `execute` returns the output and leaves the bursts after the `n`-th |
| Ssh.ReplyAt | ssh.py:58-65 | reading stops after exactly the first burst that makes the text end with the prompt |
| Ssh.ExecuteNoPrompt | ssh.py:58-65 | when no burst makes the text end with the prompt, `execute` fails and every burst is consumed |
| Ssh.Shell.constructor | ssh.py:17-22 | a new connection has no shell and has sent nothing |
| Ssh.Shell.StartShell | ssh.py:27-39 | sends one newline and consumes the bursts up to the first ending in `$ `; when there is none it fails having read everything |
| Ssh.Shell.Execute | ssh.py:41-68 | the result and the new channel state are those of `Run` |
| Ssh.Shell.ReadReply | ssh.py:54-67 | reading stops at the first burst that makes the text end with the prompt and returns the text without echo and prompt, leaving the later bursts; without a prompt every burst is consumed and the call fails |
| Placement.Filter | gpu_runner.py:90 | a list comprehension with a condition keeps exactly the elements meeting it, and is no longer than its input |
| Placement.FilterCounts | gpu_runner.py:90 | every occurrence of a kept element is kept, and no occurrence of another |
| Placement.FilterSnoc | gpu_runner.py:90 | a further element at the end is kept at the end of the result exactly when it meets the condition |
| Placement.FilterAppend | gpu_runner.py:90 | filtering keeps the list's order: the filter of a concatenation is the concatenation of the filters |
| Placement.Fresh | gpu_runner.py:93 | exactly the reservations with `now - timestamp < keep_time` are kept, each with all its occurrences |
| Placement.FreshAppend | gpu_runner.py:93 | the age test keeps the list's order |
| Placement.Pick | gpu_runner.py:114-117 | no device when none fits; otherwise a device meeting both thresholds with the largest free utilization among those that do, the first such on ties |
| GpuRunner.LineEnd | gpu_runner.py:62 | the position of the first newline, or the end of the text |
| GpuRunner.HeadAndOthers | gpu_runner.py:62-73 | the file text is the head line, a newline and the other lines; the head line holds no newline |
| GpuRunner.ParseJob | gpu_runner.py:69-71 | succeeds exactly for three `\|`-separated fields whose first two are integers, and the job is `int()` of the first two fields and the third field. A wrong field count is reported with the count; otherwise the first field that is not an integer is reported |
| GpuRunner.ParseJobRoundTrip | gpu_runner.py:69-71 | the line `mem\|util\|command` of a job parses back to that job |
| GpuRunner.Passes | gpu_runner.py:81-86 | the passes succeed exactly when every report parses, and then hold each report's devices |
| GpuRunner.PassesFirstError | gpu_runner.py:81-82 | a failed sampling carries the error of the first report that did not parse; every earlier report parsed |
| GpuRunner.PassesPrefixFails | gpu_runner.py:81-82 | once a report fails, the later reports do not change the result |
| GpuRunner.PassesKnown | gpu_runner.py:82 | every sampled device has a utilization and is not in the skip list |
| GpuRunner.AddPass | gpu_runner.py:82-86 | adding a pass by position gives as many groups as the longer of the groups and the pass |
| GpuRunner.GroupedColumns | gpu_runner.py:81-86 | group `i` holds the `i`-th device of every pass that has one, in pass order, and there are as many groups as the longest pass |
| GpuRunner.GroupedFilled | gpu_runner.py:81-86 | every group is non-empty and its samples all have a utilization |
| GpuRunner.AppendPass | gpu_runner.py:82-86 | the `try`/`except KeyError` loop adds the pass as `AddPass` does |
| GpuRunner.SampleDevices | gpu_runner.py:79-86 | fails exactly when some report fails, with the first failure; otherwise the groups by position of all passes |
| GpuRunner.Prune | gpu_runner.py:88-93 | a reservation is kept exactly when its command is not in the status text and it is younger than `keep_time`, with all its occurrences |
| GpuRunner.PruneAppend | gpu_runner.py:88-93 | both prunes keep the list's order |
| GpuRunner.Slot | gpu_runner.py:103-104 | Python list indexing: in range, or counted from the end for a negative index; no slot otherwise |
| GpuRunner.ReservedTotals | gpu_runner.py:100-104 | fails exactly when some reservation's index is out of range; otherwise each device's totals are the sums over its reservations |
| GpuRunner.Combine | gpu_runner.py:107-109 | the free memory is the largest sampled free memory minus the reserved memory. The free utilization plus the reserved one, times the number of samples, is the sum of the sampled free utilizations: a mean minus the reservation, not clamped |
| GpuRunner.Aggregate | gpu_runner.py:107-112 | one aggregated device per group; device `i` is group `i` combined with the reservations for `i` |
| GpuRunner.Devices | gpu_runner.py:99-112 | one device per position seen in any pass |
| GpuRunner.DevicesAt | gpu_runner.py:81-112 | device `i` combines the `i`-th device of every pass that has one (a non-empty column) with the memory and utilization reserved on position `i` |
| GpuRunner.Place | gpu_runner.py:79-132 | a dispatch uses a sampled position and the rendered template, and appends its reservation to the pruned list; no fit keeps the pruned list |
| GpuRunner.PlaceChoosesBest | gpu_runner.py:114-117 | the device dispatched to fits, has the largest free utilization among fitting devices, and is the first such |
| GpuRunner.PlacePicks | gpu_runner.py:107-117 | a dispatched job goes to the position `Pick` chooses among the devices aggregated from the sampled passes and the pruned reservations, every reservation's index being in range |
| GpuRunner.PlaceNoFit | gpu_runner.py:114-124 | no fit means no device meets both thresholds |
| GpuRunner.JobDecision | gpu_runner.py:62-132 | a blank head line, and only that, is no job and keeps the reservations; a dispatch comes from a head line that parses, and appends that job's reservation to the pruned list |
| GpuRunner.Handle | gpu_runner.py:62-132 | the runner's handling of the job file's text never reports no job while changing the reservations |
| GpuRunner.TickWith | gpu_runner.py:52-138 | for any handling of the job file's text that keeps the reservations on no job, a tick with no job keeps them; a command is handed to the shell exactly on dispatch, and it is the rendered command plus ` &` |
| GpuRunner.TickSpec | gpu_runner.py:52-138 | a blank head line starts nothing and keeps the reservations; a command is handed to the shell exactly on dispatch, and it is the rendered command plus ` &` |
| GpuRunner.TickReleases | gpu_runner.py:59-140 | every tick ends with the runner's marker removed, on every path, whatever is done with the job file's text |
| GpuRunner.TickFileEffect | gpu_runner.py:61-138 | starting without a leftover marker, a tick that does not dispatch leaves the disk unchanged; a dispatch only rewrites the job file to its lines after the head. This holds whatever is done with the job file's text |
| GpuRunner.TickDispatchReads | gpu_runner.py:59-73 | a dispatching tick found the job file, and its outcome and reservations are what was made of the file's text as it stood before the lock |
| GpuRunner.LockedDisk | gpu_runner.py:59-138 | while the runner holds the lock the job file reads as before, and releasing the lock gives back the earlier disk, with the job file rewritten or not |
| GpuRunner.TickDispatchReserves | gpu_runner.py:126-132 | a dispatch reserves the head job's memory and utilization on the chosen device after pruning |
| GpuRunner.Runner.constructor | gpu_runner.py:44-47 | the runner starts with no reservations and a suffix `str(randint(10000))` |
| GpuRunner.Runner.PlaceJob | gpu_runner.py:79-132 | outcome and reservations are those of `Place`; a dispatch launches exactly its command plus ` &` |
| GpuRunner.Runner.HandleJob | gpu_runner.py:62-132 | outcome and reservations are those of `JobDecision`; a dispatch launches exactly its command plus ` &` |
| GpuRunner.Runner.Tick | gpu_runner.py:52-138 | outcome, disk, reservations and launched commands are those of `TickSpec` |
| Machine.Detached | machine.py:158 | the line is the command wrapped in a background subshell, 23 characters longer, the command starting after `(` |
| Machine.NextJob | machine.py:93-95 | none exactly when no job is for the machine; otherwise a job of the machine with the smallest `util`, the first such |
| Machine.WithoutId | machine.py:172 | exactly the documents with another `_id` remain, and one fewer at least when the `_id` was present |
| Machine.JobStore.FindOne | machine.py:93 | returns the job `NextJob` names and changes nothing |
| Machine.JobStore.Remove | machine.py:172 | the queue becomes `WithoutId` of the old one |
| Machine.Query | machine.py:102 | whether a shell was started is unchanged, and every device parsed has a utilization |
| Machine.Flatten | machine.py:101-107 | when every sample of every pass has a utilization, so does every sample of the flattened list; no passes give no samples |
| Machine.SampleWith | machine.py:101-102 | a successful sampling holds one pass per query |
| Machine.SampleSpec | machine.py:101-102 | a successful sampling holds `n_passes` passes |
| Machine.SampleFailureStops | machine.py:101-102 | after a failing query no later query is sent and the result stays that failure |
| Machine.SampledKnown | machine.py:102 | every sampled device has a utilization |
| Machine.GroupByNumSpec | machine.py:98-107 | each sampled number has one group holding exactly its samples in sampling order; the numbers appear once each, in first-seen order, and only sampled numbers have groups |
| Machine.OfNumAbsent | machine.py:103-107 | a number never sampled has no samples |
| Machine.Unsampled | machine.py:119-123 | names the first live reservation whose device was not sampled, if any |
| Machine.UnsampledFirst | machine.py:119-123 | the reservation reported is the first one whose device was not sampled |
| Machine.ReservedTotals | machine.py:119-123 | raises `KeyError` for exactly that reservation; otherwise each sampled device's totals are the sums over its reservations |
| Machine.Combine | machine.py:127-133 | corrected: memory in use is the largest sampled use plus the reserved memory; utilization in use is the sampled sum over `n_passes` plus the reserved utilization |
| Machine.ReservationRaisesFreeUtil | machine.py:131-132 | the written formula reports twice the reserved utilization more free than the corrected one |
| Machine.ReservationCounterexample | machine.py:131-132 | a device at 50% use with 30% reserved: as written 80% free and a 60% job fits; corrected 20% free and it does not |
| Machine.Aggregate | machine.py:126-135 | one device per sampled number, in first-seen order |
| Machine.Devices | machine.py:119-135 | one device per sampled number, in first-seen order, with the kept reservations held back |
| Machine.GroupsOfSampling | machine.py:98-107 | the groups of a sampling are well formed and every sample has a utilization; no passes give no groups |
| Machine.Survey | machine.py:98-135 | a failed sampling is that failure; the session after it is the session after sampling; no passes give no devices |
| Machine.SurveyDevices | machine.py:119-135 | fails exactly when a kept reservation names an unsampled number. Otherwise device `i` is the `i`-th first-seen number, combined from exactly that number's samples and its kept reservations |
| Machine.StepSpec | machine.py:93-172 | a start takes a queued job of this machine and removes exactly the documents with its `_id`. It replaces the reservations by the kept ones plus the new reservation. Without a start the queue and reservations are unchanged; no jobs exactly when none is for the machine |
| Machine.StepPicks | machine.py:137-150 | a started job is the machine's next job, and its device is the surveyed device `Pick` chooses; the command is the rendered template |
| Machine.StepSends | machine.py:155-158 | the last line a starting pass sends is the detached command |
| Machine.StepChoosesBest | machine.py:137-158 | a started job is the machine's job with the smallest `util`. Its device fits and has the largest free utilization, the first such. The command is the rendered template, and the last line sent is the detached command |
| Machine.StepNoFit | machine.py:137-148 | no fit means that no surveyed device meets both thresholds for the machine's next job; only the session changes |
| Machine.StartWith | machine.py:92-95 | every step but the last started a job and the last did not; at most one step more than there were jobs |
| Machine.StartTakesOwnJobs | machine.py:93 | every started job was queued for this machine |
| Machine.StartOnlyRemoves | machine.py:172 | every job left queued was queued before |
| Machine.StartKeepsOthers | machine.py:172 | a job whose `_id` no started job carries stays queued |
| Machine.StepsConsume | machine.py:93-172 | every pass that starts a job shortens the queue by removing that job's `_id`; other passes leave it |
| Machine.PassOf | machine.py:92-172 | the passes of `start_jobs` take queued jobs of the machine only and shorten the queue |
| Machine.AddSamples | machine.py:103-107 | the `try`/`except KeyError` loop adds the devices of a pass as `GroupByNum` does |
| Machine.Machine.constructor | machine.py:37 | a new machine has no reservations |
| Machine.Machine.Execute | machine.py:51-65 | the reply and session are those of `Run` with the reply awaited |
| Machine.Machine.QueryOnce | machine.py:102 | the pass and session are those of `Query` |
| Machine.Machine.Sample | machine.py:101-107 | fails exactly as `SampleSpec` does; otherwise the groups by number of all passes |
| Machine.TallyDevices | machine.py:118-135 | the totals and aggregation after sampling give what `Survey` makes of the grouped samples: a failure for a kept reservation on an unsampled number, otherwise the combined devices |
| Machine.Machine.FreeDevices | machine.py:98-135 | the devices and session are those of `Survey` |
| Machine.Machine.PlaceOne | machine.py:93-172 | the step, queue, reservations and session are those of `StepSpec` |
| Machine.Machine.StartJobs | machine.py:80-172 | the steps, queue, reservations and session are those of the loop `StartWith` over `StepSpec` |

## Left out

- Threads and the in-process lock: `Machine.start`, `_client_lock` and `SSHLoggingConnection` (threads, pickling, MongoDB) are not modelled, since they are concurrency and I/O.
- Logging, `verbose` printing and `dashboard_data` are not modelled; they have no effect on placement.
- Signals: `cleanup` and `setup_cleanup` (signal handlers and `sys.exit`) are not modelled.
- `save_to_locked_hdf` is not modelled; it writes pandas data.
- `nvidia_smi` and `subprocess.run` are external processes. Their output texts are inputs, and the runner's launched commands are recorded instead of run.
- `sleep` and the waits are bounded or collapsed.
  - The wait for the job file becomes the `NoJobFile` outcome.
  - The lock's poll and retry run once per entry of the rivals sequence.
  - `execute` without a prompt ends in `NoPrompt` instead of waiting for ever.
- `time()` and `randint` are parameters.
- Floating point: utilization means are exact `real` numbers, not IEEE doubles.
- File newline translation and text encodings are not modelled. The job file is its text; the head line and the remaining lines are cut from it at the first newline. `readline` and `readlines` keep the line endings, so writing the other lines back gives exactly the text after the first newline.
- `int()` accepts only ASCII digits with an optional sign and surrounding whitespace. Underscores and non-ASCII digits are not modelled.
- `str.format` covers literal text, `{}`, `{0}`, `{{` and `}}`. Other fields are reported as a format error rather than modelled.
- Paramiko connection setup and byte decoding are not modelled. Chunks are already text.
- `get_gpus_from_info_string` and `_GPU` are not part of this model. They are taken to parse as `get_gpus` does without a skip list, with `mem_total = mem_used + mem_free` and `util_free = 100 - util_used`.
- The queue's order among jobs with equal `util` is unspecified in the store. The model takes the first in queue order.
- Machine.Survey: its own contract states only the failure and session cases. The devices it returns are stated by `SurveyDevices`. Like every member below, it builds devices with the corrected `Combine`, not the formula of machine.py:131-132 as written.
- Machine.Aggregate: combines each device with the corrected `Combine`. As written, machine.py:131-132 subtracts the reserved utilization from the utilization in use, so the source's free utilization is higher by twice the reservation (`ReservationRaisesFreeUtil`).
- Machine.Devices: the devices use the corrected `Combine`, as `Aggregate` does.
- Machine.SurveyDevices: states the devices as the corrected `Combine`. The figure the source computes is `CombineAsWritten`, which differs by twice the reserved utilization.
- Machine.TallyDevices: yields the devices of the corrected `Combine`.
- Machine.Machine.FreeDevices: yields the devices of the corrected `Combine`.
- Machine.StepSpec: matches jobs against devices of the corrected `Combine`. Where a reservation is live, the source may start a job the model refuses with `NoFit`, as `ReservationCounterexample` shows.
- Machine.Machine.PlaceOne: places against the corrected devices, as `StepSpec` does.
- Machine.Machine.StartJobs: its passes place against the corrected devices, as `StepSpec` does.
- Locking.AcquireSpec: polls with the corrected `LockHeld`, not `lock_exists` as written (locking.py:53), which never reports a marker. If a marker is already present, the model sleeps through that attempt. The source instead makes its own marker and checks. With our own leftover marker (same suffix) that check passes, and the source returns the suffix where the model gives up.
- Locking.FileSystem.AcquireLock: polls with the corrected `LockHeld`, as `AcquireSpec` does.
- Locking.FileSystem.WriteToLockedFile: acquires with the corrected poll, as `AcquireSpec` does. So a leftover marker with the caller's suffix blocks a write the source performs.
- Locking.AcquireEffect: "a failed acquisition leaves the disk unchanged" rests on the corrected poll and on the rival model. Every rival that made a marker during a failed attempt removes it within that attempt (`RivalsBackOff`). A rival that checks after our release, finds itself alone and keeps its marker is not represented.
- Machine.SampleWith: its contract states only the number of passes. The rest is stated by `SampleFailureStops`, `SampledKnown` and `Machine.Sample`.

## Findings

| source | as written | input that shows it | evidently intended | confidence | as-written member | corrected member |
|---|---|---|---|---|---|---|
| locking.py:10 | `lock_exists` lists `dirname(fname)` but compares each entry name with the full path `fname + ".lock"`. For a path with a `/` no entry can match; for a bare name `listdir('')` raises. | `fname = "jobs/q.txt"` with `jobs/q.txt.lock_7` present: the check answers false | compare entries with `basename(fname) + ".lock"`, as `check_lock` does at locking.py:26-27 | not executed | Locking.LockExistsMissesMarker | Locking.LockHeld |
| machine.py:131-132 | the reserved utilization is subtracted from the utilization in use, which raises the free utilization | one device at 50% use, 30% reserved, a job needing 60%: 80% free is reported and the job is placed | add it, as the reserved memory is added at machine.py:129 | not executed | Machine.ReservationCounterexample | Machine.Combine |
