# greed: the entry cache and its read-through rule, in Dafny

greed is a terminal client for the Feedbin feed-reading API. It fetches the
latest entries, keeps them in a cache that expires five minutes after it was
filled, and prints the first few of them. This project models that core:

- `FileCache` (`cache.dfy`) models `internal/cache/cache.go`. A `Cache`
  object has two fields in memory, `entries` and `exp`, and a mirror file
  `<dir>/feedbin_cache.json` on an abstract `Disk`.
  - `Set` replaces the entries wholesale and stamps `exp = now + 5 min`. It
    then overwrites the whole file with a snapshot of both fields.
  - `Get` ignores memory and re-reads the file. A missing, unreadable or
    undecodable file is a miss. A snapshot is a hit only while `now` is
    strictly before its expiry, and a hit is copied back into memory.

  Each operation is first given as a pure step on `State` (the two fields
  plus the file's content): `GetStep` and `SetStep`. The class methods are
  proved to perform exactly those steps. The lemmas about the steps relate
  several calls: read-back before expiry, a miss after it, and independence
  from memory over any run of `Get` calls.
- `Ui` (`ui.dfy`) models `internal/ui/pterm_ui.go`.
  - `FetchEntries` serves a hit from the cache without asking the client. On
    a miss it asks the client once. A failed fetch is returned and the cache
    is left untouched. A successful fetch is stored with `Set`, whose error is
    discarded, and is returned unchanged.
  - `DisplayEntries` shows the slice `entries[:displayLimit]` in order.
- `Feedbin` (`feedbin.dfy`) holds the `Entry` record and an abstract API
  client. `Wrappers` (`wrappers.dfy`) holds `Option` and `Result`.

The clock, the file system and the network are inputs:
- Every operation takes the clock reading `now` as an argument, as an
  integer count of nanoseconds. `FetchEntries` takes two readings, one for
  its `Get` and one for its `Set`.
- `New` takes whether creating the directory succeeded.
- `Set` takes whether the snapshot could be marshalled, and the outcome of
  the whole-file write:
  - `Written`: the write succeeded.
  - `CreateFailed`: the file could not be opened, so its old content stays.
  - `WriteFailed`: the file was truncated and then the write failed, so the
    file is now corrupt.
  - `CloseFailed`: every byte was written but closing the file failed, so
    an error is returned although the snapshot is on disk.
- The client's `response` field is the server's next answer. Its `requests`
  counter records whether the client was consulted.

The cache code and some of its callers disagree on signatures.
`cmd/greed/main.go` calls `cache.New` with a TTL (line 150), `FetchEntries`
with extra show-progress and ignore-cache flags (line 155), and
`DisplayEntries` with an extra shuffle flag (line 161). `main_test.go` calls
`cache.New` as defined, but passes one extra `false` to `FetchEntries`
(line 60). The model follows
`cache.go` and `pterm_ui.go` as they are, with the fixed five-minute TTL.
`cmd/feedbin-cli/main.go` calls these signatures. `pterm_ui.go` calls the
client's `GetLatestFeeds`, but `client.go` defines that operation as
`GetLatestEntries`. The model has one operation, under the latter name.

## Model

| member | source | states |
|---|---|---|
| `FileCache.TrimTrailingSeparators` | internal/cache/cache.go:26 | the result is a prefix of the path that does not end in '/', and only separators were removed |
| `FileCache.Join` | internal/cache/cache.go:26 | the mirror path ends in "/" + the file name, and what precedes it is the directory without its trailing separators |
| `FileCache.Cache.Init` | internal/cache/cache.go:31-33 | a new cache has the given file path, no entries and Go's zero time as expiry |
| `FileCache.Cache.New` | internal/cache/cache.go:21-34 | an empty directory name fails with no cache. Otherwise a failed directory creation fails. Otherwise the result is a fresh cache on `dir/feedbin_cache.json` with empty entries and zero expiry |
| `FileCache.AfterWrite` | internal/cache/cache.go:54-56 | a whole-file write leaves the old content if the file could not be opened, a corrupt file if the write failed after truncation, and the new content otherwise |
| `FileCache.Disk.Read` | internal/cache/cache.go:65-77 | a path with no readable file reads as `Absent`; otherwise the read yields the content stored there (a snapshot, or `Corrupt` when it does not decode) |
| `FileCache.Disk.WriteFile` | internal/cache/cache.go:54-56 | the write reports success only when it succeeded, changes only the written path, and leaves that path as `AfterWrite` says |
| `FileCache.SetStep` | internal/cache/cache.go:36-59 | memory becomes exactly the given entries with expiry now + 5 min, on every path, with no merge and no rollback on error. The error is absent iff marshal and write both succeeded. The file holds the snapshot after a write that completed, and is unchanged after a marshal or open failure |
| `FileCache.GetStep` | internal/cache/cache.go:61-86 | a hit iff the file is a snapshot whose expiry is strictly after now, so now == exp is a miss. A hit returns the snapshot's entries and loads its entries and expiry into memory. A miss returns no entries and changes nothing |
| `FileCache.Cache.Set` | internal/cache/cache.go:36-59 | the cache's fields, its file and its error are those of `SetStep`, and no other file changes |
| `FileCache.Cache.Get` | internal/cache/cache.go:61-86 | the reply and the new fields are those of `GetStep`, and the disk is not modified |
| `FileCache.GetRepliesDependOnlyOnFile` | internal/cache/cache.go:61-86 | in any run of `Get` calls, each reply equals what a single `Get` at that time on the starting state gives. Earlier hits and the prior memory have no influence |
| `FileCache.GetIgnoresMemory` | internal/cache/cache.go:65-85 | two states with the same file give the same `Get` reply, whatever their memory holds |
| `FileCache.GetIdempotent` | internal/cache/cache.go:79-83 | a second `Get` at the same time returns the same reply and leaves the same state |
| `FileCache.SetThenGetHits` | internal/cache/cache.go:36-82 | after a `Set` at t whose snapshot reached the file, a `Get` at any t' < t + 5 min returns exactly the entries set |
| `FileCache.SetThenGetAfterExpiryMisses` | internal/cache/cache.go:40-85 | a `Get` at t' >= t + 5 min after a `Set` at t misses, whatever the write's outcome, unless an older snapshot that was left in place outlives it |
| `FileCache.FailedWriteIsNotServed` | internal/cache/cache.go:40-56 | after a write that fails past truncation, memory holds the new entries, but `Get` misses |
| `FileCache.SetThenGetScenario` | main_test.go:80-102 | a new cache, `Set` and then `Get` before expiry returns a hit with exactly the entries set |
| `Feedbin.Client.constructor` | internal/feedbin/client.go:31-39 | a new client has the given fetch limit and has sent no request |
| `Feedbin.Client.GetLatestEntries` | internal/feedbin/client.go:40-73 | one request is sent, and its result is the server's answer, unchanged |
| `Ui.FetchStep` | internal/ui/pterm_ui.go:9-21 | on a hit, the cached entries are returned, the client is not asked, and the state is as after the `Get`. On a miss the client is asked. A failed fetch returns its error and leaves the state untouched. A successful fetch returns the fetched entries whatever `Set` reports, and leaves the state as after `Set` of them |
| `Ui.FetchEntries` | internal/ui/pterm_ui.go:9-21 | the result, the cache's new state and the client's request count are those of `FetchStep`, and no other file changes |
| `Ui.SecondFetchWithinTtlHits` | internal/ui/pterm_ui.go:10-20 | after a miss whose fetched entries were written at t, a later call whose `Get` runs before t + 5 min returns the same entries without asking the client |
| `Ui.UnexpiredSnapshotServesSession` | internal/ui/pterm_ui.go:10-12 | while the file's snapshot is unexpired at every call, every call in a session returns its entries, no request is sent and the file is never rewritten |
| `Ui.FetchScenario` | main_test.go:17-78 | on a new cache, a client answering with one entry makes `FetchEntries` return exactly that entry |
| `Ui.Displayed` | internal/ui/pterm_ui.go:26 | as written, the selection exists iff 0 <= displayLimit <= the entry count, and is then the first displayLimit entries in source order. Otherwise the slice panics |
| `Ui.DisplayEntries` | internal/ui/pterm_ui.go:23-36 | the loop renders exactly the entries of `Displayed`, in order, or panics when `Displayed` does |
| `Ui.ClampedPrefix` | internal/ui/pterm_ui.go:26 | corrected selection: the first min(displayLimit, count) entries, a prefix of the input, and the whole input when displayLimit reaches the count |
| `Ui.ClampedPrefixAgreesWhenInRange` | internal/ui/pterm_ui.go:26 | wherever the written slice does not panic, the corrected selection equals it |
| `Ui.EmptyBatchPanics` | internal/ui/pterm_ui.go:26 | an empty batch with display limit 5 panics as written, and shows nothing when clamped |

## Left out

- The `sync.RWMutex` and all concurrency. Operations run one at a time. The model does not capture that `Get` assigns the fields while holding only the read lock, or races between processes that share the file.
- JSON encoding and the RFC 3339 time format. A file is `Absent`, `Corrupt` or a `Snapshot`, and whether marshalling succeeds is an input. Go's JSON encoder replaces invalid UTF-8 in strings. Strings here are sequences of Unicode characters, so that loss is not modelled, and the read-back lemmas assume text that survives encoding.
- `os.MkdirAll`, `os.ReadFile` and `os.WriteFile`. They are reduced to a success flag, a file's readable content and the four write outcomes above. Directories themselves are not modelled. A read error counts as `Absent`.
- FileCache.Join: only the removal of trailing separators is modelled. The other cleaning that `filepath.Join` does is not: `.` and `..` elements and repeated separators inside the path.
- The wall clock. `time.Now()` is an argument, and the monotonic reading that Go keeps in a `time.Time` is not modelled.
- Go's nil slice versus empty slice: a miss returns `[]` where Go returns `nil`. Slice aliasing is not modelled either: `Set` keeps the caller's slice in Go, while the model copies a value.
- Ui.Displayed: a Go slice may be resliced up to its capacity, not only its length. The model takes the capacity to equal the length. When the capacity is larger, `entries[:n]` with length < n <= capacity shows zero-valued entries instead of panicking, and the model does not capture that.
- The HTTP request of `GetLatestEntries`: URL building, basic authentication, the 10-second timeout, the status check and decoding. The client returns an abstract answer, `Success(entries)` or a `FetchError`.
- pterm rendering: the header, the per-entry layout, the timestamp format and the closing line. `DisplayEntries` returns the entries it renders.
- internal/ui/tui.go (the interactive list view). Its `fetchEntries` repeats `FetchEntries` except that it turns a fetch error into no entries.
- cmd/greed/main.go and cmd/feedbin-cli/main.go: flag and environment parsing, the default cache directory, version printing and exit handling.
- The memory-only mode, the caller-chosen TTL, the ignore-cache flag and the shuffle described for other versions of this program. The cache code modelled here has none of them.

## Findings

| source | as written | input that shows it | evidently intended | confidence | as-written member | corrected member |
|---|---|---|---|---|---|---|
| internal/ui/pterm_ui.go:26 | `DisplayEntries` ranges over `entries[:displayLimit]`. This panics when `displayLimit` exceeds the slice's capacity (the model takes it to equal the length). The caller at cmd/feedbin-cli/main.go:85-90 passes the display limit unchecked, and cmd/greed/main.go:138-141 checks only that it is positive | a feed that returns `[]` (an empty batch, capacity 0), with the default display limit 5 | show the first min(displayLimit, count) entries | medium, not executed | `Ui.Displayed`, `Ui.DisplayEntries`, `Ui.EmptyBatchPanics` | `Ui.ClampedPrefix`, `Ui.ClampedPrefixAgreesWhenInRange` |
