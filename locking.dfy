/** The marker-file lock of locking.py. A process locks `fname` by creating the empty file
    `fname + ".lock_" + suffix` next to it and then checking that it is the only marker there;
    on a clash it removes its own marker and tries again.

    The file system is a set of existing directories and a map from file locations to their
    text. A location is a (directory, entry name) pair, the directory spelled as
    `os.path.dirname` spells it, so a directory listing is the set of names stored under it. */
module Locking {
  import opened Wrappers
  import opened Strings

  // ---------------------------------------------------------------- paths (posixpath)

  /** `p.rfind('/') + 1`: where the last path component starts. */
  function SlashEnd(p: string): (i: nat)
    ensures i <= |p|
    ensures i > 0 ==> p[i - 1] == '/'
    ensures forall j :: i <= j < |p| ==> p[j] != '/'
    decreases |p|
  {
    if p == [] then 0 else if p[|p| - 1] == '/' then |p| else SlashEnd(p[..|p| - 1])
  }

  /** `os.path.basename(p)`: the last component, which never holds a slash. */
  function Basename(p: string): (b: string)
    ensures '/' !in b
    ensures |b| <= |p| && p[|p| - |b|..] == b
  {
    p[SlashEnd(p)..]
  }

  predicate AllSlashes(s: string) {
    forall j :: 0 <= j < |s| ==> s[j] == '/'
  }

  /** `s.rstrip('/')`. */
  function TrimSlashes(s: string): (r: string)
    ensures r <= s
    ensures r == [] || r[|r| - 1] != '/'
    ensures !AllSlashes(s) ==> r != []
    decreases |s|
  {
    if |s| > 0 && s[|s| - 1] == '/' then TrimSlashes(s[..|s| - 1]) else s
  }

  /** `os.path.dirname(p)`: everything before the last component, without its trailing slashes
      unless it is made of slashes only. It is empty exactly when `p` holds no slash. */
  function Dirname(p: string): (d: string)
    ensures d == [] <==> '/' !in p
  {
    var head := p[..SlashEnd(p)];
    assert SlashEnd(p) > 0 ==> head[|head| - 1] == '/';
    if AllSlashes(head) then head else TrimSlashes(head)
  }

  /** Appending text without a slash leaves the last slash where it was. */
  lemma {:induction false} SlashEndAppend(p: string, x: string)
    requires '/' !in x
    ensures SlashEnd(p + x) == SlashEnd(p)
    decreases |x|
  {
    if x == [] {
      assert p + x == p;
    } else {
      var y := x[..|x| - 1];
      assert (p + x)[|p + x| - 1] == x[|x| - 1];
      assert (p + x)[..|p + x| - 1] == p + y;
      SlashEndAppend(p, y);
    }
  }

  /** Where a file lives: its directory, as `os.path.dirname` spells it, and its entry name. */
  datatype Loc = Loc(dir: string, name: string)

  function LocOf(p: string): Loc {
    Loc(Dirname(p), Basename(p))
  }

  /** The marker path `fname + ".lock_" + suffix` (locking.py:15, 20). */
  function Marker(fname: string, suffix: string): string {
    fname + ".lock_" + suffix
  }

  /** Appending a slash-free tail keeps the directory and extends the last component. */
  lemma AppendNoSlash(p: string, x: string)
    requires '/' !in x
    ensures Dirname(p + x) == Dirname(p)
    ensures Basename(p + x) == Basename(p) + x
  {
    SlashEndAppend(p, x);
    var k := SlashEnd(p);
    assert (p + x)[..k] == p[..k];
    assert (p + x)[k..] == p[k..] + x;
  }

  /** Where the marker for `fname` with `suffix` sits when it lands next to `fname`. */
  function MarkerLoc(fname: string, suffix: string): Loc {
    Loc(Dirname(fname), Basename(fname) + ".lock_" + suffix)
  }

  /** A marker name starts with the prefix `check_lock` looks for. */
  lemma MarkerNamePrefix(base: string, suffix: string)
    ensures base + ".lock" <= base + ".lock_" + suffix
  {
    assert base + ".lock_" + suffix == (base + ".lock") + ("_" + suffix);
  }

  /** A marker whose suffix holds no slash lives in the directory of `fname`, under the name
      `basename(fname) + ".lock_" + suffix`. */
  lemma MarkerPlacement(fname: string, suffix: string)
    requires '/' !in suffix
    ensures LocOf(Marker(fname, suffix)) == MarkerLoc(fname, suffix)
  {
    var x := ".lock_" + suffix;
    assert '/' !in ".lock_";
    assert Marker(fname, suffix) == fname + x;
    AppendNoSlash(fname, x);
    assert Basename(fname) + x == Basename(fname) + ".lock_" + suffix;
  }

  // ---------------------------------------------------------------- the file system

  /** FileNotFoundError: listing or creating in a directory that does not exist. `listdir('')`
      always raises it. */
  datatype FsError = NoSuchDirectory(path: string)

  /** A snapshot of the file system: the existing directories and the text of each existing file. */
  datatype Disk = Disk(dirs: set<string>, text: map<Loc, string>)

  /** Entry names never hold a slash. */
  predicate WellFormed(disk: Disk) {
    forall l :: l in disk.text ==> '/' !in l.name
  }

  /** `os.listdir(d)`: the entry names in `d`. */
  function Listing(disk: Disk, d: string): (r: Result<set<string>, FsError>)
    ensures r.Success? <==> d != "" && d in disk.dirs
    ensures r.Success? ==> forall name :: name in r.value <==> Loc(d, name) in disk.text
  {
    if d == "" || d !in disk.dirs then Failure(NoSuchDirectory(d))
    else
      var names := set l | l in disk.text.Keys && l.dir == d :: l.name;
      assert forall name :: Loc(d, name) in disk.text ==> name in names;
      Success(names)
  }

  /** A file of `disk` in directory `d` whose name starts with `prefix + ".lock"`. */
  predicate HasMarker(disk: Disk, d: string, prefix: string) {
    exists l :: l in disk.text && l.dir == d && prefix + ".lock" <= l.name
  }

  /** `lock_exists(fname)` as written: it lists the directory of `fname` and looks for an entry
      that starts with the whole path `fname + ".lock"` (locking.py:9-11). */
  function LockExists(disk: Disk, fname: string): (r: Result<bool, FsError>)
    ensures r.Success? <==> Listing(disk, Dirname(fname)).Success?
  {
    match Listing(disk, Dirname(fname))
    case Failure(e) => Failure(e)
    case Success(entries) => Success(exists e :: e in entries && fname + ".lock" <= e)
  }

  /** Listed names hold no slash, and a listable directory is never the empty dirname, so the
      path handed to `lock_exists` always holds a slash: no entry can start with it, and
      `lock_exists` never reports a lock, whatever the directory holds. */
  lemma LockExistsNeverTrue(disk: Disk, fname: string)
    requires WellFormed(disk)
    ensures LockExists(disk, fname) != Success(true)
  {
    var d := Dirname(fname);
    if Listing(disk, d).Success? {
      assert '/' in fname;
      var slash :| 0 <= slash < |fname| && fname[slash] == '/';
      assert (fname + ".lock")[slash] == '/';
      forall e | e in Listing(disk, d).value
        ensures !(fname + ".lock" <= e)
      {
        assert Loc(d, e) in disk.text;
      }
    }
  }

  /** The test `lock_exists` evidently means, written like `check_lock`: an entry starting with
      `basename(fname) + ".lock"` in the directory of `fname`. */
  function LockHeld(disk: Disk, fname: string): (r: Result<bool, FsError>)
    ensures r.Success? <==> Listing(disk, Dirname(fname)).Success?
    ensures r.Success? ==> (r.value <==> HasMarker(disk, Dirname(fname), Basename(fname)))
  {
    match Listing(disk, Dirname(fname))
    case Failure(e) => Failure(e)
    case Success(entries) =>
      var held := exists e :: e in entries && Basename(fname) + ".lock" <= e;
      assert held ==> HasMarker(disk, Dirname(fname), Basename(fname)) by {
        if held {
          var e :| e in entries && Basename(fname) + ".lock" <= e;
          assert Loc(Dirname(fname), e) in disk.text;
        }
      }
      Success(held)
  }

  /** The finding: once a marker for `fname` exists, the corrected test sees it while `lock_exists`
      as written reports the file free. */
  lemma LockExistsMissesMarker(disk: Disk, fname: string, suffix: string)
    requires WellFormed(disk) && '/' !in suffix
    requires Dirname(fname) != "" && Dirname(fname) in disk.dirs
    requires LocOf(Marker(fname, suffix)) in disk.text
    ensures LockExists(disk, fname) == Success(false)
    ensures LockHeld(disk, fname) == Success(true)
  {
    LockExistsNeverTrue(disk, fname);
    MarkerPlacement(fname, suffix);
    MarkerNamePrefix(Basename(fname), suffix);
    var l := LocOf(Marker(fname, suffix));
    assert l.dir == Dirname(fname) && Basename(fname) + ".lock" <= l.name;
    assert HasMarker(disk, Dirname(fname), Basename(fname));
  }

  /** `check_lock(fname, suffix)`: the markers for `basename(fname)` in its directory are exactly
      our own; `Success(false)` is the AssertionError that `acquire_lock` catches, a listing error
      propagates (locking.py:25-29). */
  function CheckLock(disk: Disk, fname: string, suffix: string): (r: Result<bool, FsError>)
    ensures r.Success? <==> Listing(disk, Dirname(fname)).Success?
  {
    match Listing(disk, Dirname(fname))
    case Failure(e) => Failure(e)
    case Success(entries) =>
      var markers := set e | e in entries && Basename(fname) + ".lock" <= e;
      Success(markers == {Basename(fname) + ".lock_" + suffix})
  }

  /** The check passes exactly when our marker exists and every marker file for `fname` in its
      directory is ours. */
  lemma CheckLockIff(disk: Disk, fname: string, suffix: string)
    requires '/' !in suffix
    requires Listing(disk, Dirname(fname)).Success?
    ensures CheckLock(disk, fname, suffix) == Success(true) <==>
            LocOf(Marker(fname, suffix)) in disk.text &&
            forall l :: l in disk.text && l.dir == Dirname(fname) && Basename(fname) + ".lock" <= l.name ==>
                          l == LocOf(Marker(fname, suffix))
  {
    MarkerPlacement(fname, suffix);
    MarkerNamePrefix(Basename(fname), suffix);
    var d := Dirname(fname);
    var entries := Listing(disk, d).value;
    SoleMarker(disk.text, d, Basename(fname) + ".lock", Basename(fname) + ".lock_" + suffix, entries);
  }

  /** Within one directory listing, the names starting with `prefix` are exactly `{own}` when
      `own` is there and no other file starting with `prefix` is. */
  lemma SoleMarker(text: map<Loc, string>, d: string, prefix: string, own: string, entries: set<string>)
    requires prefix <= own
    requires forall name :: name in entries <==> Loc(d, name) in text
    ensures (set e | e in entries && prefix <= e) == {own} <==>
            Loc(d, own) in text && forall l :: l in text && l.dir == d && prefix <= l.name ==> l == Loc(d, own)
  {
    var markers := set e | e in entries && prefix <= e;
    if markers == {own} {
      assert own in markers;
      forall l | l in text && l.dir == d && prefix <= l.name
        ensures l == Loc(d, own)
      {
        assert l == Loc(d, l.name);
        assert l.name in markers;
      }
    }
    if Loc(d, own) in text && forall l :: l in text && l.dir == d && prefix <= l.name ==> l == Loc(d, own) {
      assert own in markers;
      forall e | e in markers
        ensures e == own
      {
        assert Loc(d, e) in text;
      }
    }
  }

  /** `open(p, 'w')`: creates or empties the file, if its directory exists. */
  function Create(disk: Disk, p: string): (r: Result<Disk, FsError>)
    ensures r.Success? <==> Dirname(p) in disk.dirs
    ensures r.Success? ==> r.value.dirs == disk.dirs && LocOf(p) in r.value.text
  {
    if Dirname(p) in disk.dirs then Success(disk.(text := disk.text[LocOf(p) := ""]))
    else Failure(NoSuchDirectory(Dirname(p)))
  }

  /** `os.remove(p)` with FileNotFoundError ignored. */
  function Remove(disk: Disk, p: string): (r: Disk)
    ensures r.dirs == disk.dirs && LocOf(p) !in r.text
    ensures forall l :: l != LocOf(p) ==> (l in r.text <==> l in disk.text)
  {
    disk.(text := disk.text - {LocOf(p)})
  }

  /** The markers other processes using `suffixes` make next to `fname`. */
  function RivalLocs(fname: string, suffixes: set<string>): (ls: set<Loc>)
    ensures forall l :: l in ls ==> l.dir == Dirname(fname) && Basename(fname) + ".lock" <= l.name
  {
    var ls := set s | s in suffixes :: MarkerLoc(fname, s);
    assert forall l :: l in ls ==> l.dir == Dirname(fname) && Basename(fname) + ".lock" <= l.name by {
      forall l | l in ls
        ensures l.dir == Dirname(fname) && Basename(fname) + ".lock" <= l.name
      {
        var s :| s in suffixes && l == MarkerLoc(fname, s);
        MarkerNamePrefix(Basename(fname), s);
      }
    }
    ls
  }

  /** Other processes create their markers. */
  function RivalsMake(disk: Disk, fname: string, suffixes: set<string>): Disk {
    disk.(text := disk.text + map l | l in RivalLocs(fname, suffixes) :: "")
  }

  /** Other processes, having seen more than one marker, remove theirs. */
  function RivalsBackOff(disk: Disk, fname: string, suffixes: set<string>): Disk {
    disk.(text := disk.text - RivalLocs(fname, suffixes))
  }

  /** `str(randint(10000))` when no suffix is given, else the given suffix. */
  function SuffixFor(given: string, draw: nat): string {
    if given == "" then IntToString(draw) else given
  }

  /** How `acquire_lock` ends: holding the lock with the returned suffix, out of attempts (the
      source would keep trying for ever), or on an exception from the file system. */
  datatype Acquired = Held(suffix: string) | GaveUp | AcquireFailed(error: FsError)

  /** The retry loop of `acquire_lock` (locking.py:52-62), polling with the corrected check
      `LockHeld` rather than `lock_exists` as written (which never reports a marker). `rivals[k]`
      holds the suffixes of the markers other processes create during step `k`, between our
      `make_lock` and our `check_lock`, and remove again when that step fails; a step whose poll
      finds a marker already present sleeps instead. There are `|rivals|` steps. */
  function AcquireSpec(disk: Disk, fname: string, suffix: string, rivals: seq<set<string>>): (r: (Acquired, Disk))
    ensures r.1.dirs == disk.dirs
    ensures r.0.Held? ==> r.0.suffix == suffix && CheckLock(r.1, fname, suffix) == Success(true)
    decreases |rivals|
  {
    if rivals == [] then (GaveUp, disk)
    else match LockHeld(disk, fname)
      case Failure(e) => (AcquireFailed(e), disk)
      case Success(busy) =>
        if busy then AcquireSpec(disk, fname, suffix, rivals[1..])
        else match Create(disk, Marker(fname, suffix))
          case Failure(e) => (AcquireFailed(e), disk)
          case Success(made) =>
            var contended := RivalsMake(made, fname, rivals[0]);
            match CheckLock(contended, fname, suffix)
            case Failure(e) => (AcquireFailed(e), contended)
            case Success(sole) =>
              if sole then (Held(suffix), contended)
              else
                var cleared := RivalsBackOff(Remove(contended, Marker(fname, suffix)), fname, rivals[0]);
                AcquireSpec(cleared, fname, suffix, rivals[1..])
  }

  /** One attempt that made its marker and failed the check leaves the disk as it found it:
      neither our marker nor a rival's can have been there, or the poll would have seen it. */
  lemma ClashRestores(disk: Disk, fname: string, suffix: string, suffixes: set<string>)
    requires '/' !in suffix
    requires LockHeld(disk, fname) == Success(false)
    ensures Create(disk, Marker(fname, suffix)).Success?
    ensures RivalsBackOff(Remove(RivalsMake(Create(disk, Marker(fname, suffix)).value, fname, suffixes),
                                 Marker(fname, suffix)), fname, suffixes) == disk
  {
    MarkerPlacement(fname, suffix);
    MarkerNamePrefix(Basename(fname), suffix);
    var own := LocOf(Marker(fname, suffix));
    var rivals := RivalLocs(fname, suffixes);
    assert !HasMarker(disk, Dirname(fname), Basename(fname));
    assert own !in disk.text;
    assert forall l :: l in rivals ==> l !in disk.text;
    var made := Create(disk, Marker(fname, suffix)).value;
    assert made.text == disk.text[own := ""];
    Restored(disk.text, own, rivals);
  }

  /** Adding a file and a set of files, then removing them again, gives back a map that had
      none of them. */
  lemma Restored(text: map<Loc, string>, own: Loc, rivals: set<Loc>)
    requires own !in text && forall l :: l in rivals ==> l !in text
    ensures (text[own := ""] + map l | l in rivals :: "") - {own} - rivals == text
  {
    var back := (text[own := ""] + map l | l in rivals :: "") - {own} - rivals;
    assert back.Keys == text.Keys;
  }

  /** When the check passes, no rival's marker was new: each rival uses our suffix. */
  lemma SoleMakesNothingElse(made: Disk, fname: string, suffix: string, suffixes: set<string>)
    requires '/' !in suffix
    requires LocOf(Marker(fname, suffix)) in made.text && made.text[LocOf(Marker(fname, suffix))] == ""
    requires CheckLock(RivalsMake(made, fname, suffixes), fname, suffix) == Success(true)
    ensures RivalsMake(made, fname, suffixes) == made
  {
    var contended := RivalsMake(made, fname, suffixes);
    CheckLockIff(contended, fname, suffix);
    assert forall l :: l in RivalLocs(fname, suffixes) ==> l == LocOf(Marker(fname, suffix));
    assert contended.text.Keys == made.text.Keys;
    assert contended.text == made.text;
  }

  /** With a slash-free suffix, `acquire_lock` either adds exactly its own empty marker (when it
      holds the lock) or leaves the disk exactly as it found it: a failed attempt removes its
      marker before retrying, and nothing else is left behind. */
  lemma {:induction false} AcquireEffect(disk: Disk, fname: string, suffix: string, rivals: seq<set<string>>)
    requires '/' !in suffix
    ensures var r := AcquireSpec(disk, fname, suffix, rivals);
            (r.0.Held? ==> r.1.text == disk.text[LocOf(Marker(fname, suffix)) := ""]) &&
            (!r.0.Held? ==> r.1 == disk)
    decreases |rivals|
  {
    if rivals != [] {
      var held := LockHeld(disk, fname);
      if held == Success(true) {
        AcquireEffect(disk, fname, suffix, rivals[1..]);
      } else if held == Success(false) {
        MarkerPlacement(fname, suffix);
        var made := Create(disk, Marker(fname, suffix)).value;
        var contended := RivalsMake(made, fname, rivals[0]);
        if CheckLock(contended, fname, suffix) == Success(true) {
          SoleMakesNothingElse(made, fname, suffix, rivals[0]);
        } else {
          assert Listing(contended, Dirname(fname)).Success?;
          ClashRestores(disk, fname, suffix, rivals[0]);
          AcquireEffect(disk, fname, suffix, rivals[1..]);
        }
      }
    }
  }

  /** The mode `write_to_locked_file` opens the file with: 'a+' appends, 'w' truncates. */
  datatype OpenMode = Append | Truncate

  /** How `write_to_locked_file` ends: written, the lock never obtained, or an exception (from
      acquiring, from `open`, or from `write`) that propagates after the lock is released. */
  datatype WriteOutcome = Written | NotLocked | AcquireError(error: FsError) | OpenError(error: FsError) | WriteError

  /** The text `fname` holds after writing `t` to it in `mode`. */
  function WrittenText(disk: Disk, fname: string, t: string, mode: OpenMode): (s: string)
    ensures mode.Truncate? ==> s == t
    ensures mode.Append? && LocOf(fname) !in disk.text ==> s == t
    ensures mode.Append? && LocOf(fname) in disk.text ==> s == disk.text[LocOf(fname)] + t
  {
    if mode.Append? && LocOf(fname) in disk.text then disk.text[LocOf(fname)] + t else t
  }

  /** `write_to_locked_file` (locking.py:93-108): acquire, open and write, and release the marker in
      every case once it was held. `writeFails` stands for an I/O error raised by `write`, after
      `open` has created the file. */
  function WriteSpec(disk: Disk, fname: string, t: string, suffix: string, mode: OpenMode,
                     writeFails: bool, rivals: seq<set<string>>): (r: (WriteOutcome, Disk))
  {
    var acquired := AcquireSpec(disk, fname, suffix, rivals);
    var locked := acquired.1;
    match acquired.0
    case GaveUp => (NotLocked, locked)
    case AcquireFailed(e) => (AcquireError(e), locked)
    case Held(s) =>
      if Dirname(fname) !in locked.dirs then
        (OpenError(NoSuchDirectory(Dirname(fname))), Remove(locked, Marker(fname, s)))
      else
        var loc := LocOf(fname);
        var created := if mode.Truncate? || loc !in locked.text then locked.(text := locked.text[loc := ""]) else locked;
        if writeFails then (WriteError, Remove(created, Marker(fname, s)))
        else (Written, Remove(created.(text := created.text[loc := WrittenText(locked, fname, t, mode)]), Marker(fname, s)))
  }

  /** Whatever happens once the lock is held, the marker is gone afterwards; a successful write
      leaves `fname` holding the written text. */
  lemma WriteReleases(disk: Disk, fname: string, t: string, suffix: string, mode: OpenMode,
                      writeFails: bool, rivals: seq<set<string>>)
    requires '/' !in suffix
    ensures var r := WriteSpec(disk, fname, t, suffix, mode, writeFails, rivals);
            (AcquireSpec(disk, fname, suffix, rivals).0.Held? ==> LocOf(Marker(fname, suffix)) !in r.1.text) &&
            (r.0.NotLocked? || r.0.AcquireError? ==> r.1 == disk) &&
            (r.0 == Written ==> LocOf(fname) in r.1.text && r.1.text[LocOf(fname)] == WrittenText(disk, fname, t, mode))
  {
    MarkerIsNotFile(fname, suffix);
    AcquireEffect(disk, fname, suffix, rivals);
    var acq := AcquireSpec(disk, fname, suffix, rivals);
    if acq.0.Held? {
      LockedWrittenText(disk, acq.1, fname, t, mode, LocOf(Marker(fname, suffix)));
    }
  }

  /** A marker with a slash-free suffix is never the file it locks. */
  lemma MarkerIsNotFile(fname: string, suffix: string)
    requires '/' !in suffix
    ensures LocOf(Marker(fname, suffix)) != LocOf(fname)
  {
    var x := ".lock_" + suffix;
    assert '/' !in ".lock_";
    assert Marker(fname, suffix) == fname + x;
    AppendNoSlash(fname, x);
    assert |LocOf(fname + x).name| == |LocOf(fname).name| + |x|;
  }

  /** Making the marker does not change what writing to the locked file produces. */
  lemma LockedWrittenText(disk: Disk, locked: Disk, fname: string, t: string, mode: OpenMode, m: Loc)
    requires locked.text == disk.text[m := ""] && LocOf(fname) != m
    ensures WrittenText(locked, fname, t, mode) == WrittenText(disk, fname, t, mode)
  {
    assert LocOf(fname) in disk.text <==> LocOf(fname) in locked.text;
  }

  /** The directory the locks live in, updated in place by the lock operations. */
  class FileSystem {
    var dirs: set<string>
    var text: map<Loc, string>

    function State(): Disk
      reads this
    {
      Disk(dirs, text)
    }

    constructor (dirs: set<string>, text: map<Loc, string>)
      ensures this.dirs == dirs && this.text == text
    {
      this.dirs := dirs;
      this.text := text;
    }

    /** `make_lock(fname, suffix)`: creates exactly the empty marker file and nothing else
        (locking.py:14-15). */
    method MakeLock(fname: string, suffix: string) returns (err: Option<FsError>)
      modifies this
      ensures dirs == old(dirs)
      ensures err.None? <==> Dirname(Marker(fname, suffix)) in dirs
      ensures err.None? ==> text == old(text)[LocOf(Marker(fname, suffix)) := ""]
      ensures err.Some? ==> err.value == NoSuchDirectory(Dirname(Marker(fname, suffix))) && text == old(text)
    {
      var p := Marker(fname, suffix);
      if Dirname(p) in dirs {
        text := text[LocOf(p) := ""];
        err := None;
      } else {
        err := Some(NoSuchDirectory(Dirname(p)));
      }
    }

    /** `release_lock(fname, suffix)`: removes the marker when present and changes nothing
        otherwise, so releasing twice is releasing once (locking.py:18-22). */
    method ReleaseLock(fname: string, suffix: string)
      modifies this
      ensures dirs == old(dirs)
      ensures text == old(text) - {LocOf(Marker(fname, suffix))}
      ensures LocOf(Marker(fname, suffix)) !in old(text) ==> text == old(text)
    {
      text := text - {LocOf(Marker(fname, suffix))};
    }

    /** `acquire_lock(fname, given)`: the suffix is `given`, or `str(draw)` when none is given,
        `draw` standing for `randint(10000)`. */
    method AcquireLock(fname: string, given: string, draw: nat, rivals: seq<set<string>>) returns (r: Acquired)
      requires draw < 10000
      modifies this
      ensures (r, State()) == AcquireSpec(old(State()), fname, SuffixFor(given, draw), rivals)
    {
      var suffix := SuffixFor(given, draw);
      var k := 0;
      while k < |rivals|
        invariant 0 <= k <= |rivals|
        invariant AcquireSpec(old(State()), fname, suffix, rivals) == AcquireSpec(State(), fname, suffix, rivals[k..])
      {
        assert rivals[k..][1..] == rivals[k + 1..];
        ghost var before := State();
        var busy := LockHeld(State(), fname);
        if busy.Failure? {
          return AcquireFailed(busy.error);
        }
        if !busy.value {
          var err := MakeLock(fname, suffix);
          if err.Some? {
            assert AcquireSpec(before, fname, suffix, rivals[k..]) == (AcquireFailed(err.value), before);
            return AcquireFailed(err.value);
          }
          assert State() == Create(before, Marker(fname, suffix)).value;
          text := RivalsMake(State(), fname, rivals[k]).text;
          var sole := CheckLock(State(), fname, suffix);
          assert sole.Success?;
          if sole.value {
            return Held(suffix);
          }
          ReleaseLock(fname, suffix);
          text := RivalsBackOff(State(), fname, rivals[k]).text;
        }
        k := k + 1;
      }
      return GaveUp;
    }

    /** `write_to_locked_file(fname, t, given, mode)`. */
    method WriteToLockedFile(fname: string, t: string, given: string, draw: nat, mode: OpenMode,
                             writeFails: bool, rivals: seq<set<string>>) returns (r: WriteOutcome)
      requires draw < 10000
      modifies this
      ensures (r, State()) == WriteSpec(old(State()), fname, t, SuffixFor(given, draw), mode, writeFails, rivals)
    {
      ghost var start := State();
      var acq := AcquireLock(fname, given, draw, rivals);
      ghost var locked := State();
      match acq {
        case GaveUp => return NotLocked;
        case AcquireFailed(e) => return AcquireError(e);
        case Held(s) =>
          if Dirname(fname) !in dirs {
            ReleaseLock(fname, s);
            return OpenError(NoSuchDirectory(Dirname(fname)));
          }
          var loc := LocOf(fname);
          var newText := WrittenText(State(), fname, t, mode);
          if mode.Truncate? || loc !in text {
            text := text[loc := ""];
          }
          if writeFails {
            ReleaseLock(fname, s);
            return WriteError;
          }
          text := text[loc := newText];
          ReleaseLock(fname, s);
          return Written;
      }
    }
  }
}
