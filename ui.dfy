/**
 * The presentation side: the read-through rule that serves entries from
 * the cache or from the client, and the selection of the entries shown.
 */
module Ui {
  import opened Wrappers
  import opened Feedbin
  import opened FileCache

  /**
   * One `FetchEntries` call, given the cache state, the clock when `Get`
   * runs, the clock when `Set` runs, the server's answer and the I/O
   * outcomes of `Set`. `requested` is whether the client was asked.
   */
  datatype FetchResult = FetchResult(result: Result<seq<Entry>, FetchError>, requested: bool, after: State)

  /**
   * The read-through rule: a hit is served from the cache without asking
   * the client; on a miss the client is asked once, a failure is returned
   * with the cache untouched, and a success is stored with `Set` (whose
   * error is discarded) and returned as fetched.
   */
  function FetchStep(s: State, getNow: Time, setNow: Time, response: Result<seq<Entry>, FetchError>,
                     marshalOk: bool, write: WriteOutcome): (r: FetchResult)
    ensures r.requested <==> !GetStep(s, getNow).found
    ensures !r.requested ==>
      r.result == Success(s.file.entries) && r.after == GetStep(s, getNow).after
    ensures r.requested && response.Failure? ==>
      r.result == Failure(response.error) && r.after == s
    ensures r.requested && response.Success? ==>
      r.result == Success(response.value) &&
      r.after == SetStep(s, response.value, setNow, marshalOk, write).after
  {
    var cached := GetStep(s, getNow);
    if cached.found then
      FetchResult(Success(cached.entries), false, cached.after)
    else if response.Failure? then
      FetchResult(Failure(response.error), true, cached.after)
    else
      FetchResult(Success(response.value), true,
                  SetStep(cached.after, response.value, setNow, marshalOk, write).after)
  }

  /** The arguments of one `FetchEntries` call in a session. */
  datatype Call = Call(getNow: Time, setNow: Time, response: Result<seq<Entry>, FetchError>,
                       marshalOk: bool, write: WriteOutcome)

  /** What a session of calls returned, how many requests it sent, and where it left the cache. */
  datatype Session = Session(results: seq<Result<seq<Entry>, FetchError>>, requests: nat, final: State)

  function RunSession(s: State, calls: seq<Call>): (r: Session)
    ensures |r.results| == |calls|
    decreases |calls|
  {
    if calls == [] then Session([], 0, s)
    else
      var c := calls[0];
      var f := FetchStep(s, c.getNow, c.setNow, c.response, c.marshalOk, c.write);
      var rest := RunSession(f.after, calls[1..]);
      Session([f.result] + rest.results, (if f.requested then 1 else 0) + rest.requests, rest.final)
  }

  /**
   * While the file holds a snapshot that has not expired at any call's
   * `Get` time, every call of a session is served the snapshot's entries,
   * the client is never asked, and the file is never rewritten.
   */
  lemma {:induction false} UnexpiredSnapshotServesSession(s: State, calls: seq<Call>)
    requires s.file.Snapshot?
    requires forall i | 0 <= i < |calls| :: calls[i].getNow < s.file.exp
    ensures RunSession(s, calls).requests == 0
    ensures forall i | 0 <= i < |calls| :: RunSession(s, calls).results[i] == Success(s.file.entries)
    ensures RunSession(s, calls).final.file == s.file
    decreases |calls|
  {
    if calls != [] {
      var c := calls[0];
      var f := FetchStep(s, c.getNow, c.setNow, c.response, c.marshalOk, c.write);
      assert f.after.file == s.file;
      UnexpiredSnapshotServesSession(f.after, calls[1..]);
      var r := RunSession(s, calls);
      forall i | 0 <= i < |calls|
        ensures r.results[i] == Success(s.file.entries)
      {
        if i > 0 {
          assert r.results[i] == RunSession(f.after, calls[1..]).results[i - 1];
        }
      }
    }
  }

  /**
   * After a miss whose fetched entries were written to the file, a later
   * call within five minutes of that `Set` is a hit: it returns the same
   * entries and does not ask the client.
   */
  lemma SecondFetchWithinTtlHits(s: State, first: Call, second: Call)
    requires !GetStep(s, first.getNow).found
    requires first.response.Success? && first.marshalOk && first.write == Written
    requires second.getNow < first.setNow + TTL
    ensures var f1 := FetchStep(s, first.getNow, first.setNow, first.response, first.marshalOk, first.write);
            var f2 := FetchStep(f1.after, second.getNow, second.setNow, second.response, second.marshalOk, second.write);
            f1.result == Success(first.response.value) && f2.result == f1.result && !f2.requested
  {
  }

  /**
   * `FetchEntries(client, cache)` at clock readings `getNow` (for `Get`)
   * and `setNow` (for `Set`).
   */
  method FetchEntries(client: Client, cache: Cache, getNow: Time, setNow: Time,
                      marshalOk: bool, write: WriteOutcome) returns (r: Result<seq<Entry>, FetchError>)
    modifies client`requests, cache`entries, cache`exp, cache.disk
    ensures var f := FetchStep(old(cache.Abs()), getNow, setNow, old(client.response), marshalOk, write);
            r == f.result && cache.Abs() == f.after &&
            client.requests == old(client.requests) + (if f.requested then 1 else 0)
    ensures cache.disk.files - {cache.filePath} == old(cache.disk.files) - {cache.filePath}
  {
    var cachedEntries, ok := cache.Get(getNow);
    if ok {
      return Success(cachedEntries);
    }
    var entries := client.GetLatestEntries();
    if entries.Failure? {
      return Failure(entries.error);
    }
    var _ := cache.Set(entries.value, setNow, marshalOk, write);
    return Success(entries.value);
  }

  /**
   * The entries `DisplayEntries` renders, as written: the slice
   * `entries[:displayLimit]`, which is a run-time panic (`None`) unless
   * `0 <= displayLimit <= |entries|`.
   */
  function Displayed(entries: seq<Entry>, displayLimit: int): (r: Option<seq<Entry>>)
    ensures r.Some? <==> 0 <= displayLimit <= |entries|
    ensures r.Some? ==> |r.value| == displayLimit
    ensures r.Some? ==> forall i | 0 <= i < displayLimit :: r.value[i] == entries[i]
  {
    if 0 <= displayLimit <= |entries| then Some(entries[..displayLimit]) else None
  }

  /** `DisplayEntries`: renders, in order, each entry of the prefix. */
  method DisplayEntries(entries: seq<Entry>, displayLimit: int) returns (shown: Option<seq<Entry>>)
    ensures shown == Displayed(entries, displayLimit)
  {
    if displayLimit < 0 || displayLimit > |entries| {
      return None;
    }
    var rendered: seq<Entry> := [];
    var i := 0;
    while i < displayLimit
      invariant 0 <= i <= displayLimit
      invariant rendered == entries[..i]
    {
      rendered := rendered + [entries[i]];
      i := i + 1;
    }
    return Some(rendered);
  }

  /** The evidently intended selection: the first `min(displayLimit, |entries|)` entries. */
  function ClampedPrefix(entries: seq<Entry>, displayLimit: nat): (r: seq<Entry>)
    ensures |r| == if displayLimit < |entries| then displayLimit else |entries|
    ensures r <= entries
    ensures displayLimit >= |entries| ==> r == entries
  {
    if displayLimit < |entries| then entries[..displayLimit] else entries
  }

  /** The corrected selection agrees with the written one wherever the latter does not panic. */
  lemma ClampedPrefixAgreesWhenInRange(entries: seq<Entry>, displayLimit: nat)
    requires Displayed(entries, displayLimit).Some?
    ensures Displayed(entries, displayLimit).value == ClampedPrefix(entries, displayLimit)
  {
  }

  /**
   * An empty batch with the command line's default display limit of 5,
   * which passes its `displayLimit > 0` check: the written slice panics,
   * the clamped selection shows nothing.
   */
  lemma EmptyBatchPanics()
    ensures Displayed([], 5) == None
    ensures ClampedPrefix([], 5) == []
  {
  }

  /**
   * The test `TestFeedbinClient`: on a new cache over an empty directory,
   * a client that answers with one entry yields exactly that entry.
   */
  method FetchScenario(cacheDir: Path, e: Entry, t: Time) returns (r: Result<seq<Entry>, FetchError>)
    requires cacheDir != []
    ensures r == Success([e])
  {
    var disk := new Disk(map[]);
    var created := Cache.New(cacheDir, disk, true);
    var client := new Client(5, Success([e]));
    r := FetchEntries(client, created.value, t, t, true, Written);
  }
}
