# Node-File-Cache, modelled in Dafny

Node-File-Cache is a key/value cache that several Node.js processes share through a work
directory. The directory has three sub-directories:

- `proc/` holds one heartbeat file per process. Each file contains the time of that process's last heartbeat.
- `queue/` holds queue markers named `<timestamp>-<processTag>`.
- `data/` holds one JSON file per cache key, `{arriveAt, data, ttl?, processTag?}`.

The file name of a key is the key with `/`, `#`, `&` and space escaped. A process writes its
own marker before it touches `data/`. The marker with the smallest timestamp is the head of
the queue. Only the process whose tag the head carries runs a job: the front job of its local
FIFO. It then deletes the head marker.

Every heartbeat runs a health check:
- it keeps a heartbeat file only when its content reads as a number `ts` with `now - ts` below the heartbeat timeout, and deletes every other one, including a file exactly as old as the timeout and a file whose content is not a number;
- it deletes the markers whose owner is not alive;
- in the entry-point `Cache` only, it also deletes the data files that are expired and whose owner is not alive.

There are two implementations of this protocol:
- the `Cache` class of `src/index.js`, which keeps its own job queue;
- `CacheInFile` (`src/cacheInFile.js`), which runs its disk accesses as callbacks of an `OperationQueueInFile` (`src/operationQueueInFile.js`).

Both also keep an in-process mirror of the values.

The model works on the directory contents rather than on files. The class `Disk.Workdir` holds
one field per directory:
- heartbeats: a map from tag to text;
- markers: a set of names;
- data files: a map from escaped key to `Entry`.

The cache classes update these fields in place. The order in which `readdirSync` lists a
directory is a parameter of each method that reads one. The ghost predicate `IsListing` ties
it to the directory's contents: each name once, in any order. The clock (`Date.now()`) is a
parameter `now`. JSON values are the closed union `JsValues.Value`.

Modules, one per file:

| module | models |
|---|---|
| `JsValues` | the JSON value union; `Number(string)` (`JsNumber`); the decimal rendering of times |
| `KeyEscape` | `safeKey` and `originalKey`, as literal chains of global replaces |
| `Ttl` | `parseTtl` and the expiry test `now - arriveAt > parseTtl(ttl)` |
| `QueueMarker` | marker names, `parseProcQueueItem`, `split('-')[1]`, the head-selection loop |
| `Disk` | the shared work directory |
| `Liveness` | the heartbeat and marker loops of `healthCheck`, shared by both implementations |
| `OperationQueue` | the class `OperationQueueInFile` |
| `DataEntry` | reading and sweeping data files, as functions of the data directory |
| `CacheInFileStore` | the class `CacheInFile`, including `append`'s merge |
| `IndexCache` | the class `Cache` of the entry point |

Quirks of the code that the model keeps:
- `src/index.js:210` writes `this.processTag`, which `Cache` never sets. Its data files
  therefore carry no owner, and its health check looks them up under the property name
  `"undefined"`.
- The success path of `CacheInFile.reset` never settles its promise (`Reply.Unsettled`).
- `append` changes only the mirror, and only for a key absent from it.
- The health check reads a marker's owner with `split('-')[1]`, while the queue reads it with
  `parseProcQueueItem`, which takes everything after the first `-`.
- A job of the entry-point `Cache` whose key is empty throws out of `processJob` before its
  callback runs. The head marker is then left in place (`JobOutcome.Escaped`).
- A falsy job type returns before the callback runs, and its marker is also left in place.

`parseTtl` is meant to clamp a TTL into `[0, maxTTL]`, and it does for every TTL stored as a
number or a string. An object TTL (or an array whose string form is not a number) passes
`Number.isNaN` unchanged, though, so `Math.min` gives NaN and such an entry never expires
(`Ttl.ObjectTtlNeverExpires`); the model follows the code.

## Model

| member | source | states |
|---|---|---|
| JsValues.JsNumber | src/index.js:241 | `Number(s)` of a non-empty digit string is its decimal value |
| JsValues.NumberOfShowNat | src/operationQueueInFile.js:133-134 | a timestamp written as text and read back with `Number` gives the same time, and its text has no `-` |
| KeyEscape.SafeKey | src/index.js:37-44 | the file name is null exactly for the empty key |
| KeyEscape.ReplaceAllRemoves | src/index.js:39-42 | a global replace of a one-character pattern, by a text that does not contain that character, leaves no occurrence of it |
| KeyEscape.SafeKeyHasNoReserved | src/cacheInFile.js:10-17 | an escaped key contains none of `/`, `#`, `&` or space |
| KeyEscape.SafeKeyIdentity | src/index.js:39-43 | escaping leaves a key without reserved characters unchanged |
| KeyEscape.OriginalKey | src/index.js:46-53 | decoding gives null exactly for the empty name |
| KeyEscape.OriginalKeyOfSafeKey | src/index.js:46-53 | for keys free of the sentinel characters (underscore, vertical bar, colon, at sign), decoding an escaped key gives back the key character by character, except that each `/` comes back as `\` |
| KeyEscape.OriginalKeyOfSafeKeyExact | src/index.js:46-53 | decoding inverts escaping for keys with no `/` and no sentinel character |
| KeyEscape.SlashComesBackAsBackslash | src/index.js:50 | `a/b` is stored with three vertical bars in place of the slash, and that name decodes to `a\b` |
| KeyEscape.DistinctKeysShareAFile | src/index.js:40 | escaping is not injective: `a/b` and the key spelled with three vertical bars in place of the slash use the same data file |
| KeyEscape.UnderscoresDecodeToHash | src/index.js:49 | the key `___` is stored under its own name but decodes to `#` |
| Ttl.ParseTtl | src/index.js:176-181 | a missing, falsy, negative or non-numeric-string TTL gives `maxTTL`, a positive one gives `min(ttl, maxTTL)`, and any number returned lies in `[0, maxTTL]`; the result is NaN exactly for an array or object TTL with no numeric reading (the same code is at src/cacheInFile.js:91-97) |
| Ttl.IsExpired | src/cacheInFile.js:116 | an expired entry has a numeric TTL, and with a non-negative ceiling it arrived strictly before now; an entry with a numeric TTL that is older than the ceiling is expired |
| Ttl.FreshEntryNotExpired | src/cacheInFile.js:116 | an entry is never expired at the instant it was written |
| Ttl.ExpiresAfterTtl | src/index.js:195 | with a numeric TTL within the ceiling, an entry is expired exactly when `now - arriveAt > ttl` (strict) |
| Ttl.MissingTtlUsesCeiling | src/index.js:177 | without a TTL, an entry is expired exactly when `now - arriveAt > maxTTL` |
| Ttl.ObjectTtlNeverExpires | src/cacheInFile.js:91-97 | an entry whose TTL is an object never expires |
| QueueMarker.IndexOf | src/index.js:32 | `indexOf` gives -1 exactly when the character is absent, otherwise its first position |
| QueueMarker.MarkerNameSplitsAtFirstDash | src/operationQueueInFile.js:80 | the first `-` of the marker name `<now>-<tag>` comes right after the decimal time, so the time is the text before it and the tag the text after it |
| QueueMarker.FileNameOfParsed | src/operationQueueInFile.js:98-101 | the name rebuilt from a parsed marker is the marker name of its time and tag for a numeric timestamp, and `NaN-<tag>` for a NaN one |
| QueueMarker.ParseProcQueueItem | src/operationQueueInFile.js:9-15 | an empty name gives `(NaN, '')`; a name without `-` gives timestamp 0 and the whole name as tag; otherwise the name splits at its first `-` |
| QueueMarker.ParseMarkerName | src/operationQueueInFile.js:78-101 | a marker `<now>-<tag>` parses back to `(now, tag)`, and rebuilding its name gives the same file |
| QueueMarker.TimestampNeverNegative | src/index.js:32 | a parsed marker timestamp is NaN or non-negative |
| QueueMarker.SplitOwner | src/operationQueueInFile.js:154 | `split('-')[1]` is undefined exactly when the name has no `-`, and never contains `-` |
| QueueMarker.SplitOwnerAgreesWithParse | src/index.js:254 | `split('-')[1]` equals the parsed tag exactly when the name has a `-` and the tag after the first `-` has none |
| QueueMarker.OwnerOfMarkerName | src/operationQueueInFile.js:154 | for a tag without `-`, the health check reads the marker's owner correctly |
| QueueMarker.SplitOwnerOfDashedTag | src/operationQueueInFile.js:154 | after a dash-free time, `split('-')[1]` of `<time>-a-b` is `a` |
| QueueMarker.DashedTagMisread | src/operationQueueInFile.js:154 | for tag `a-b` the queue reads owner `a-b` but the health check reads `a` |
| QueueMarker.Scan | src/operationQueueInFile.js:84-96 | over a non-empty listing, the scan ends on a valid index holding the recorded minimum |
| QueueMarker.ScanFindsFirstMinimum | src/operationQueueInFile.js:84-96 | with numeric timestamps, the head has a timestamp no greater than any marker's and is the first such in listing order |
| QueueMarker.NaNFirstWins | src/index.js:131 | a NaN timestamp listed first is never displaced, since `NaN < min` is false |
| QueueMarker.ScanListing | src/index.js:126-134 | the scan read off the listing itself ends, for a non-empty listing, on a valid index whose timestamp is the recorded minimum; it agrees with `Scan` over the parsed timestamps |
| QueueMarker.HeadIsFirstMinimum | src/operationQueueInFile.js:84-96 | with numeric timestamps, the selected head has a timestamp no greater than any listed marker's, and every marker before it has a larger one |
| QueueMarker.SelectHead | src/index.js:126-136 | the loop with mutable `top`/`min` computes the scan: a valid index with the first minimum timestamp |
| Liveness.IsAlive | src/operationQueueInFile.js:134-135 | a heartbeat is alive only if its content reads as a number; with a timeout that is not positive, no heartbeat written at or before now is alive |
| Liveness.FreshHeartbeatIsAlive | src/operationQueueInFile.js:134-135 | a heartbeat written at `now` and read at `now` is alive exactly when the timeout is positive |
| Liveness.Truthy | src/operationQueueInFile.js:155 | `aliveprocs[tag]` is falsy for a tag that was not recorded, and truthy only for a non-zero timestamp |
| Liveness.OwnerKey | src/operationQueueInFile.js:154-155 | a missing owner is looked up under the property name `"undefined"`, so it collides with the tag `undefined` and no other |
| Liveness.KeepMarker | src/operationQueueInFile.js:154-155 | a marker with no `-` in its name survives only when some live process is named `undefined` |
| Liveness.LiveHeartbeats | src/operationQueueInFile.js:130-146 | exactly the heartbeats with `now - ts < heartbeatTimeout` remain, with unchanged contents |
| Liveness.AliveProcs | src/index.js:239-248 | `aliveprocs` has exactly the alive tags |
| Liveness.ClassifyHeartbeats | src/operationQueueInFile.js:130-146 | the loop deletes exactly the dead heartbeat files and returns the alive tags with their timestamps |
| Liveness.PruneMarkers | src/operationQueueInFile.js:148-163 | the loop keeps exactly the markers whose `split('-')[1]` owner is truthy in `aliveprocs` |
| Liveness.OwnMarkersSurvive | src/operationQueueInFile.js:172-175 | right after its own heartbeat, a process's markers survive the health check (tag without `-`, positive time and timeout) |
| Liveness.MarkerOfVanishedOwnerPruned | src/index.js:251-259 | a marker whose owner has no heartbeat file is deleted |
| OperationQueue.AfterWrite | src/operationQueueInFile.js:78-82 | a non-notification pass adds exactly the marker `<now>-<tag>`; a notification pass adds none |
| OperationQueue.HeadOf | src/operationQueueInFile.js:83-96 | there is a head marker exactly when the listing is non-empty |
| OperationQueue.OperationQueueInFile.constructor | src/operationQueueInFile.js:18-39 | a new queue has no jobs and no heartbeat timer |
| OperationQueue.OperationQueueInFile.Dequeue | src/operationQueueInFile.js:200-202 | removes and returns the front job; an empty queue gives undefined |
| OperationQueue.OperationQueueInFile.ProcessJobQueue | src/operationQueueInFile.js:70-122 | if this process's tag is at the head, the front job (if any) is dequeued and the head marker deleted, whether or not a job ran; otherwise only the pass's own marker is added |
| OperationQueue.OperationQueueInFile.Enqueue | src/operationQueueInFile.js:193-198 | a non-function is refused and nothing changes; otherwise the job joins the tail and a non-notification pass runs |
| OperationQueue.OperationQueueInFile.HealthCheck | src/operationQueueInFile.js:125-168 | dead heartbeats are deleted, and so are the markers whose owner is not alive |
| OperationQueue.OperationQueueInFile.Heartbeat | src/operationQueueInFile.js:172-190 | writes `now` for this process, runs the health check, and installs the timer only when none exists |
| OperationQueue.OperationQueueInFile.Init | src/operationQueueInFile.js:45-62 | heartbeats and yields this process's tag |
| OperationQueue.OwnFreshHeadDeletesOwnMarker | src/operationQueueInFile.js:97-101 | when a process's fresh marker is the head, the file it deletes is that marker |
| OperationQueue.HeadFileNameIsListed | src/operationQueueInFile.js:97-101 | in a queue of well-formed markers, the name rebuilt from the head is a listed file |
| DataEntry.ReadEntry | src/cacheInFile.js:114-125 | a read deletes at most the read key, and only if it has expired; a non-null result is the stored payload |
| DataEntry.Unexpired | src/cacheInFile.js:72-86 | the sweep keeps exactly the entries that have not expired, unchanged |
| DataEntry.ReadAfterWrite | src/cacheInFile.js:141-153 | a write followed by a read within the TTL returns the value written and keeps the entry |
| DataEntry.ReadRightAfterWrite | src/cacheInFile.js:144-148 | a read at the instant of the write returns the value written |
| DataEntry.ReadKeepsEntryIffUnexpired | src/index.js:192-205 | a read keeps the entry exactly when it has not expired, returning its payload; an expired entry is deleted and null returned |
| DataEntry.ReadAfterDelete | src/cacheInFile.js:194-197 | after a delete a read gives null; deleting twice is deleting once |
| DataEntry.SweepIdempotent | src/cacheInFile.js:72-86 | a second sweep at the same instant deletes nothing more |
| CacheInFileStore.IsObjectLike | src/cacheInFile.js:222 | `typeof v === 'object'` holds exactly for null, arrays and objects, and never for booleans, numbers or strings |
| CacheInFileStore.Props | src/cacheInFile.js:224 | `Object.assign` copies an array's elements under their decimal indices |
| CacheInFileStore.AppendMerge | src/cacheInFile.js:217-225 | array initial value: a copy with `value` at the end; object with object: a shallow merge where `value`'s keys win; any other shape: null |
| CacheInFileStore.CacheInFile.constructor | src/cacheInFile.js:29-49 | a new store has an empty mirror, no operation queue and no process tag |
| CacheInFileStore.CacheInFile.KeyPath | src/cacheInFile.js:100-102 | a key has a data file exactly when it is non-empty, and its name holds no reserved character |
| CacheInFileStore.CacheInFile.SweepExpired | src/cacheInFile.js:72-86 | the start-up loop deletes exactly the expired data files, whatever their owner |
| CacheInFileStore.CacheInFile.Init | src/cacheInFile.js:61-88 | the first call creates the queue, heartbeats, installs the heartbeat timer when there is none (keeping one that exists) and takes the process tag; later calls keep the queue, the tag and the timer; every call sweeps expired data |
| CacheInFileStore.StoreJobEffect | src/cacheInFile.js:112-201 | a job changes only its own data file; only a write job with the mirror on changes the mirror, to its value; a read resolves to null or to the file's stored data; a write stores its value and resolves true; a delete removes the file and never settles |
| CacheInFileStore.StoreSetThenGet | src/cacheInFile.js:112-175 | a read job run right after a write job on the same key, at the same instant, resolves to the written value |
| CacheInFileStore.StoreResetThenGet | src/cacheInFile.js:112-201 | a read job run after a delete job on the same key resolves to null |
| CacheInFileStore.CacheInFile.RunJob | src/cacheInFile.js:112-201 | the callback changes the data directory, the mirror and the reply exactly as `StoreJobEffect` does for the stored process tag |
| CacheInFileStore.CacheInFile.Submit | src/cacheInFile.js:127 | the job is queued; a job runs exactly when this process's marker heads the listing, which then loses that marker; the job that runs is the front of the extended queue, with the effect `StoreJobEffect` gives; when none runs, the data directory and the mirror are unchanged |
| CacheInFileStore.CacheInFile.OnQueueChange | src/operationQueueInFile.js:65-119 | on a queue directory change, a job runs exactly when this process's marker heads the listing and the local queue is non-empty; the head marker is deleted whenever it is this process's; the job that runs is the queue's front, with the effect `StoreJobEffect` gives |
| CacheInFileStore.CacheInFile.Get | src/cacheInFile.js:105-131 | a mirror hit answers without touching disk; with the file cache off the answer is null; an empty key or a missing queue rejects; otherwise a read job is queued, a job runs exactly when this process's marker heads the listing (which then loses that marker), and that job has the effect `StoreJobEffect` gives; the file-off and rejecting paths change nothing |
| CacheInFileStore.CacheInFile.Set | src/cacheInFile.js:133-180 | with only the mirror on, the mirror is set and the call resolves true; with the file cache on, a write job is queued, a job runs exactly when this process's marker heads the listing (which then loses that marker), and that job has the effect `StoreJobEffect` gives; or the call rejects for an empty key or a missing queue and changes nothing |
| CacheInFileStore.CacheInFile.Reset | src/cacheInFile.js:182-207 | the key leaves the mirror at once; with the file cache on, a delete job is queued, a job runs exactly when this process's marker heads the listing (which then loses that marker), and that job has the effect `StoreJobEffect` gives on the updated mirror; a rejecting call changes nothing else |
| CacheInFileStore.CacheInFile.Append | src/cacheInFile.js:214-234 | without an options object the call rejects and nothing changes; otherwise it resolves to undefined, and only for a key absent from an enabled mirror the merged value (with `[]` as the default initial value) is stored |
| CacheInFileStore.AppendDefaultIsSingleton | src/cacheInFile.js:214-221 | with the default initial value, `[value]` is stored |
| CacheInFileStore.AppendObjectsLastWins | src/cacheInFile.js:222-225 | merging objects lets the appended value's keys win |
| CacheInFileStore.AppendShapeMismatchStoresNull | src/cacheInFile.js:217-226 | an object initial value with a scalar to append stores null |
| IndexCache.JobEffect | src/index.js:184-229 | the callback runs exactly for a job with a type and a non-empty key; a job that does not call it changes nothing; a job changes only its own key's data file; only a completed SET changes the mirror; a GET completes with null or the stored data; a SET stores its value; a RESET removes the file and completes with true; any other type fails, changing nothing; an error leaves the data unchanged |
| IndexCache.SurvivingData | src/index.js:261-270 | the health check keeps exactly the data files that are not both orphaned and expired |
| IndexCache.PruneOrphanData | src/index.js:261-270 | the data loop deletes exactly the orphaned, expired files |
| IndexCache.Orphaned | src/index.js:265 | a data file without an owner counts as orphaned exactly when no live process is named `undefined` |
| IndexCache.Cache.constructor | src/index.js:56-75 | a new cache has a null job queue, an empty mirror and no timer |
| IndexCache.Cache.Dequeue | src/index.js:300-302 | removes and returns the front job; an empty queue gives undefined |
| IndexCache.Cache.ProcessJob | src/index.js:184-229 | runs the job as `JobEffect` describes, in place on the data directory and the mirror |
| IndexCache.Cache.ProcessJobQueue | src/index.js:110-173 | with this process at the head, an empty queue deletes the head marker; otherwise the front job runs and the marker is deleted only if the job's callback was called; otherwise only the pass's own marker is added |
| IndexCache.Cache.WriteMarker | src/index.js:118-122 | a non-notification pass adds exactly the marker `<now>-<tag>`; a notification pass leaves the queue directory as it was |
| IndexCache.Cache.RunAtHead | src/index.js:124-172 | on the queue directory as it now stands: when this process heads the listing, an empty job queue loses the head marker and a non-empty one runs its front job with the effect `JobEffect` gives, the marker going only when the callback was called; otherwise nothing changes |
| IndexCache.Cache.ServeHead | src/index.js:143-170 | a non-empty job queue runs its front job with the effect `JobEffect` gives and deletes the head file exactly when the callback was called; an empty one deletes the head file and changes nothing else |
| IndexCache.Cache.RunFront | src/index.js:154-167 | the front job is dequeued and processed with the job effect, and the head marker is deleted exactly when the job's callback was called |
| IndexCache.Cache.Enqueue | src/index.js:295-298 | throws on a null queue and changes nothing; otherwise pushes the job and runs a pass: exactly when this process's marker heads the listing, the front job runs with the effect `JobEffect` gives, and the marker goes when the callback was called; it throws only when the job it runs escapes |
| IndexCache.Cache.HealthCheck | src/index.js:232-274 | deletes dead heartbeats, markers of owners that are not alive, and orphaned expired data files |
| IndexCache.Cache.Heartbeat | src/index.js:278-292 | writes `now` for this process, runs the health check, and installs the timer only when none exists |
| IndexCache.Cache.Init | src/index.js:77-102 | with the file cache on, (re)creates an empty job queue and heartbeats; always resolves true |
| IndexCache.Cache.Get | src/index.js:305-324 | a mirror hit answers at once; with the file cache off the answer is null; otherwise a GET job is queued with the effect `Enqueue` states, and the call rejects exactly when the queue is null or the job run throws; a file-off miss changes nothing |
| IndexCache.Cache.Set | src/index.js:326-364 | with only the mirror on, the mirror is set and the call resolves true; otherwise a SET job is queued with the effect `Enqueue` states (the mirror is set when it completes), and the call rejects exactly when the queue is null or the job run throws |
| IndexCache.Cache.Reset | src/index.js:366-388 | the key leaves the mirror at once; with the file cache on, a RESET job is queued with the effect `Enqueue` states, on the updated mirror |
| IndexCache.SetThenGet | src/index.js:192-217 | a GET run after a SET of the same key, within the TTL, completes with the value set |
| IndexCache.ResetThenGet | src/index.js:192-221 | a GET run after a RESET of the same key completes with null, and RESET reports true |
| IndexCache.SweepKeepsLiveAndUnexpired | src/index.js:265-268 | the health check never deletes an unexpired file or a file of a live owner |
| IndexCache.OwnerlessSweepIsExpirySweep | src/index.js:206-268 | with ownerless files and no live process named `undefined`, the health check's sweep deletes exactly the expired files |

## Left out

- File-system calls are left out. The directories are fields of `Disk.Workdir`, and `readdirSync`'s order is a `listing` parameter.
- I/O errors are left out, and so are the `try`/`catch` branches that absorb them (in `healthCheck`, `heartbeat` and the removal of a marker file).
- `JSON.parse` of a corrupt data file is not modelled; every data file is a well-formed `Entry`.
- `FS.watch` is replaced by a call of `ProcessJobQueue` with `fromNotification` true. The watcher's own uncaught exceptions are not modelled.
- `setInterval` and `setTimeout` are not modelled: the heartbeat timer is `heartbeatInstance`, whose handle is the time it was installed.
  - The self-eviction timer of `set` is not modelled.
  - The delay before `init` resolves is not modelled.
- `process.on('exit')` is not modelled.
- Promises are replaced by the `Reply` value of each call. A queued job's reply comes back in the call during which the job runs (the `ran` result).
- `Date.now()` is the parameter `now`. One call reads one clock value, whereas the program reads the clock at each use.
- JSON numbers are integers. `Number` of a fractional, hexadecimal, exponent or `Infinity` string gives NaN in the model.
- The whitespace that `Number` trims is the ASCII set plus the no-break space, line and paragraph separators and the byte-order mark. Other Unicode spaces are not trimmed.
- `Math.round(heartbeatTimeout / 3)` is the interval of the timer, which is not modelled.
- `src/utils.js` (`debuglog`, `mkdir`) and the copies of `debuglog` and `mkdir` in `src/index.js` are logging and directory creation; they are not part of this model.
- `useOperationQueue` (custom queue classes) is not modelled: `CacheInFile` always uses `OperationQueueInFile`.
- Interleaving of processes is not modelled: each method is one process's step on a shared directory. Mutual exclusion across processes is not claimed.
- Keys are strings. Non-string keys are not modelled.
  - `PATH.join` normalisation of escaped names such as `.` or `..` is not modelled.
  - Mirror lookups that hit inherited object properties such as `constructor` are not modelled.
  - The same holds for the `aliveprocs` lookups of the health checks. `Liveness.Truthy` looks only at the map's own keys, whereas in `index.js` and `operationQueueInFile.js` an owner tag such as `constructor` reads an inherited, truthy property, so its markers and data files are kept.
  - `undefined` values are not modelled.
- `Disk.Entry.processTag` is an `Option`, so it does not tell a `null` owner from an absent one.
- CacheInFileStore.CacheInFile.Init: creates the queue and takes the process tag in one step. In `cacheInFile.js`, `processTag` is still null until the queue's `init` resolves, and a write in that window stores a null owner.
- `append`'s `ttl` option is unused by `cacheInFile.js` and is not modelled.
- CacheInFileStore.CacheInFile.Append: an options value that is not an object (a number, say) destructures to no `initialValue`; the model has no such value and writes it as `AppendOptions(None)`.
- The heartbeat files hold the decimal text of `Date.now()`, as `writeFileSync` writes a number on Node.js releases before 14. From release 14 on, `writeFileSync` throws on a number; `heartbeat`'s `catch` swallows the error, so no heartbeat file is written, and neither the health check nor the timer runs. That behaviour is not modelled.
