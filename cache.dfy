/**
 * The time-expiring, file-backed cache of the latest entries.
 *
 * The cache keeps the last entry set and its expiry in memory and mirrors
 * both to one JSON file. `Set` replaces memory wholesale and overwrites the
 * file; `Get` ignores memory, re-reads the file and answers from it alone.
 * Each operation is first given as a pure step on `State` (memory plus the
 * file's content), and the `Cache` class is proved against those steps.
 */
module FileCache {
  import opened Wrappers
  import opened Feedbin

  /** How long a freshly set entry set stays valid: five minutes. */
  const TTL: int := 5 * 60 * 1_000_000_000

  /** Go's zero time.Time (1 January of year 1, UTC), the initial `exp`. */
  const ZeroTime: Time := -62_135_596_800 * 1_000_000_000

  /** The fixed name of the mirror file inside the cache directory. */
  const FileName: string := "feedbin_cache.json"

  type Path = string

  /** What reading the mirror file yields. */
  datatype CacheFile =
    | Absent                                  // missing or unreadable
    | Corrupt                                 // read, but not a decodable snapshot
    | Snapshot(entries: seq<Entry>, exp: Time)

  /** The outcome of the operating system's whole-file write. */
  datatype WriteOutcome =
    | Written
    | CreateFailed   // the file could not be opened: its old content stays
    | WriteFailed    // opened and truncated, then the write failed
    | CloseFailed    // all bytes written, but closing the file failed

  datatype CacheError =
    | DirNotSet
    | MkdirFailed
    | MarshalFailed
    | WriteFileFailed

  /** The abstract state of one cache: its two fields and its file. */
  datatype State = State(entries: seq<Entry>, exp: Time, file: CacheFile)

  datatype GetResult = GetResult(entries: seq<Entry>, found: bool, after: State)

  datatype SetResult = SetResult(err: Option<CacheError>, after: State)

  /** Strips every trailing '/' from a path. */
  function TrimTrailingSeparators(p: Path): (r: Path)
    ensures r <= p
    ensures r == [] || r[|r| - 1] != '/'
    ensures forall i | |r| <= i < |p| :: p[i] == '/'
  {
    if p != [] && p[|p| - 1] == '/' then TrimTrailingSeparators(p[..|p| - 1]) else p
  }

  /** `name` inside directory `dir`, with exactly one separator between them. */
  function Join(dir: Path, name: string): (r: Path)
    ensures |r| > |name|
    ensures r[|r| - |name| - 1..] == "/" + name
    ensures r[..|r| - |name| - 1] <= dir
    ensures r[..|r| - |name| - 1] == [] || r[|r| - |name| - 2] != '/'
    ensures forall i | |r| - |name| - 1 <= i < |dir| :: dir[i] == '/'
  {
    var base := TrimTrailingSeparators(dir);
    var r := base + "/" + name;
    assert |r| - |name| - 1 == |base|;
    assert r[..|base|] == base && r[|base|..] == "/" + name;
    r
  }

  /** The file's content after a whole-file write of `content` over `prior`. */
  function AfterWrite(prior: CacheFile, content: CacheFile, outcome: WriteOutcome): (r: CacheFile)
    ensures outcome == CreateFailed ==> r == prior
    ensures outcome == WriteFailed ==> r == Corrupt
    ensures outcome in {Written, CloseFailed} ==> r == content
  {
    match outcome
    case Written => content
    case CreateFailed => prior
    case WriteFailed => Corrupt
    case CloseFailed => content
  }

  /**
   * `Get`: the file alone decides. A snapshot whose expiry is strictly
   * later than `now` is a hit and is copied into memory; anything else is
   * a miss that changes nothing.
   */
  function GetStep(s: State, now: Time): (r: GetResult)
    ensures r.found <==> s.file.Snapshot? && now < s.file.exp
    ensures r.found ==> r.entries == s.file.entries
    ensures r.found ==> r.after == State(s.file.entries, s.file.exp, s.file)
    ensures !r.found ==> r.entries == [] && r.after == s
  {
    match s.file
    case Snapshot(es, exp) =>
      if now < exp then GetResult(es, true, State(es, exp, s.file))
      else GetResult([], false, s)
    case _ => GetResult([], false, s)
  }

  /**
   * `Set`: memory is replaced by `es` with expiry `now + TTL` whatever
   * happens next; then the snapshot is marshalled and written over the
   * whole file. A failed marshal or write is reported, and memory is not
   * rolled back.
   */
  function SetStep(s: State, es: seq<Entry>, now: Time, marshalOk: bool, write: WriteOutcome): (r: SetResult)
    ensures r.after.entries == es && r.after.exp == now + TTL
    ensures r.err == None <==> marshalOk && write == Written
    ensures r.err != None ==> r.err == Some(if marshalOk then WriteFileFailed else MarshalFailed)
    ensures marshalOk && write in {Written, CloseFailed} ==> r.after.file == Snapshot(es, now + TTL)
    ensures !marshalOk || write == CreateFailed ==> r.after.file == s.file
    ensures marshalOk && write == WriteFailed ==> r.after.file == Corrupt
  {
    var snapshot := Snapshot(es, now + TTL);
    if !marshalOk then
      SetResult(Some(MarshalFailed), State(es, now + TTL, s.file))
    else
      SetResult(if write == Written then None else Some(WriteFileFailed),
                State(es, now + TTL, AfterWrite(s.file, snapshot, write)))
  }

  /** The replies of successive `Get` calls at the given times. */
  function GetReplies(s: State, times: seq<Time>): (r: seq<(seq<Entry>, bool)>)
    ensures |r| == |times|
    decreases |times|
  {
    if times == [] then []
    else
      var g := GetStep(s, times[0]);
      [(g.entries, g.found)] + GetReplies(g.after, times[1..])
  }

  /**
   * `Get` never changes the file, so in any run of `Get` calls each reply
   * is what a lone `Get` at that time on the starting state would give:
   * earlier hits, and whatever memory held, have no influence.
   */
  lemma {:induction false} GetRepliesDependOnlyOnFile(s: State, times: seq<Time>, i: nat)
    requires i < |times|
    ensures GetReplies(s, times)[i] == (GetStep(s, times[i]).entries, GetStep(s, times[i]).found)
    decreases i
  {
    if i > 0 {
      var g := GetStep(s, times[0]);
      GetRepliesDependOnlyOnFile(g.after, times[1..], i - 1);
      assert g.after.file == s.file;
    }
  }

  /** Two states that share a file give the same `Get` reply. */
  lemma GetIgnoresMemory(s1: State, s2: State, now: Time)
    requires s1.file == s2.file
    ensures GetStep(s1, now).entries == GetStep(s2, now).entries
    ensures GetStep(s1, now).found == GetStep(s2, now).found
  {
  }

  /** A second `Get` at the same time changes nothing more and answers the same. */
  lemma GetIdempotent(s: State, now: Time)
    ensures GetStep(GetStep(s, now).after, now) == GetStep(s, now)
  {
  }

  /**
   * A `Set` whose snapshot reached the file (even when closing it then
   * failed) is read back by any `Get` before its expiry, exactly.
   */
  lemma SetThenGetHits(s: State, es: seq<Entry>, t: Time, write: WriteOutcome, t': Time)
    requires write in {Written, CloseFailed}
    requires t' < t + TTL
    ensures GetStep(SetStep(s, es, t, true, write).after, t').found
    ensures GetStep(SetStep(s, es, t, true, write).after, t').entries == es
  {
  }

  /** Once `TTL` has elapsed since the `Set`, `Get` misses. */
  lemma SetThenGetAfterExpiryMisses(s: State, es: seq<Entry>, t: Time, marshalOk: bool, write: WriteOutcome, t': Time)
    requires t' >= t + TTL
    requires s.file.Snapshot? ==> s.file.exp <= t + TTL
    ensures !GetStep(SetStep(s, es, t, marshalOk, write).after, t').found
  {
  }

  /**
   * A failed write leaves memory updated but the file truncated, and since
   * `Get` reads only the file the entries just set are not served.
   */
  lemma FailedWriteIsNotServed(s: State, es: seq<Entry>, t: Time, t': Time)
    ensures SetStep(s, es, t, true, WriteFailed).after.entries == es
    ensures !GetStep(SetStep(s, es, t, true, WriteFailed).after, t').found
  {
  }

  /**
   * The file system, reduced to the content of each file that `Get` can
   * read: a path not in `files` has no readable file.
   */
  class Disk {
    var files: map<Path, CacheFile>

    constructor (files: map<Path, CacheFile>)
      ensures this.files == files
    {
      this.files := files;
    }

    function Read(p: Path): (f: CacheFile)
      reads this
      ensures p !in files ==> f == Absent
      ensures p in files ==> f == files[p]
    {
      if p in files then files[p] else Absent
    }

    /** A whole-file write: truncate, write, close. Only `p` can change. */
    method WriteFile(p: Path, content: CacheFile, outcome: WriteOutcome) returns (ok: bool)
      modifies this
      ensures ok <==> outcome == Written
      ensures Read(p) == AfterWrite(old(Read(p)), content, outcome)
      ensures files - {p} == old(files) - {p}
    {
      ok := outcome == Written;
      match outcome
      case Written => files := files[p := content];
      case CreateFailed =>
      case WriteFailed => files := files[p := Corrupt];
      case CloseFailed => files := files[p := content];
    }
  }

  /** One cache instance: two fields in memory and a mirror file on `disk`. */
  class Cache {
    var entries: seq<Entry>
    var exp: Time
    const filePath: Path
    const disk: Disk

    /** The cache's abstract state: its fields and its file's content. */
    function Abs(): State
      reads this, disk
    {
      State(entries, exp, disk.Read(filePath))
    }

    constructor Init(filePath: Path, disk: Disk)
      ensures this.filePath == filePath && this.disk == disk
      ensures entries == [] && exp == ZeroTime
    {
      entries := [];
      exp := ZeroTime;
      this.filePath := filePath;
      this.disk := disk;
    }

    /**
     * `New`: an empty directory name is refused; otherwise the directory is
     * created (`mkdirOk` is whether that succeeded) and a cache with empty
     * fields and the mirror file inside that directory is returned.
     */
    static method New(cacheDir: Path, disk: Disk, mkdirOk: bool) returns (r: Result<Cache, CacheError>)
      ensures cacheDir == [] ==> r == Failure(DirNotSet)
      ensures cacheDir != [] && !mkdirOk ==> r == Failure(MkdirFailed)
      ensures cacheDir != [] && mkdirOk ==>
        r.Success? && fresh(r.value) &&
        r.value.filePath == Join(cacheDir, FileName) && r.value.disk == disk &&
        r.value.entries == [] && r.value.exp == ZeroTime
    {
      if cacheDir == [] {
        return Failure(DirNotSet);
      }
      var cacheFile := Join(cacheDir, FileName);
      if !mkdirOk {
        return Failure(MkdirFailed);
      }
      var c := new Cache.Init(cacheFile, disk);
      return Success(c);
    }

    /**
     * `Set(es)` at time `now`; `marshalOk` is whether the snapshot could be
     * encoded and `write` is the outcome of writing it to the file.
     */
    method Set(es: seq<Entry>, now: Time, marshalOk: bool, write: WriteOutcome) returns (err: Option<CacheError>)
      modifies this`entries, this`exp, disk
      ensures Abs() == SetStep(old(Abs()), es, now, marshalOk, write).after
      ensures err == SetStep(old(Abs()), es, now, marshalOk, write).err
      ensures disk.files - {filePath} == old(disk.files) - {filePath}
    {
      entries := es;
      exp := now + TTL;
      if !marshalOk {
        return Some(MarshalFailed);
      }
      var ok := disk.WriteFile(filePath, Snapshot(entries, exp), write);
      if !ok {
        return Some(WriteFileFailed);
      }
      return None;
    }

    /** `Get()` at time `now`: re-reads the file and answers from it. */
    method Get(now: Time) returns (es: seq<Entry>, found: bool)
      modifies this`entries, this`exp
      ensures Abs() == GetStep(old(Abs()), now).after
      ensures es == GetStep(old(Abs()), now).entries
      ensures found == GetStep(old(Abs()), now).found
    {
      var data := disk.Read(filePath);
      if !data.Snapshot? {
        return [], false;
      }
      if now < data.exp {
        entries := data.entries;
        exp := data.exp;
        return entries, true;
      }
      return [], false;
    }
  }

  /**
   * A cache created in a fresh directory, `Set` at `t` and read back at
   * `t'` before expiry, returns exactly the entries that were set.
   */
  method SetThenGetScenario(cacheDir: Path, es: seq<Entry>, t: Time, t': Time) returns (got: seq<Entry>, found: bool)
    requires cacheDir != []
    requires t' < t + TTL
    ensures found && got == es
  {
    var disk := new Disk(map[]);
    var r := Cache.New(cacheDir, disk, true);
    var c := r.value;
    var _ := c.Set(es, t, true, Written);
    got, found := c.Get(t');
  }
}
