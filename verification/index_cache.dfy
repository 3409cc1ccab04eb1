/**
 * The `Cache` class of the package entry point: a mirror in memory and, when
 * the file cache is on, jobs that run against the data directory once this
 * process's queue marker is at the head of the shared queue. Unlike the
 * store built on `OperationQueueInFile`, it keeps its own job queue, writes
 * data files without an owner, and its health check also sweeps the data
 * directory.
 */
module IndexCache {
  import opened JsValues
  import opened KeyEscape
  import opened Ttl
  import opened Disk
  import opened DataEntry
  import opened QueueMarker
  import opened Liveness
  import opened OperationQueue

  /** A queued job: `{type, key, value, ttl, arriveAt}`; its callback is the promise it settles. */
  datatype Job = Job(kind: string, key: string, value: Value, ttl: Option<Value>, arriveAt: int)

  /** What `processJob` does with a job. */
  datatype JobOutcome =
    /** A falsy type: returns without calling the callback. */
    | Ignored
    /** The key has no data file name: `PATH.join` throws before the `try`. */
    | Escaped
    /** The callback is called with no error and this response. */
    | Completed(response: Value)
    /** The callback is called with this error. */
    | Failed(error: string)

  /** How a promise returned by the cache ends up. */
  datatype Reply =
    | Resolved(value: Value)
    | Rejected(reason: string)
    /** A job was queued; it settles when it runs. */
    | Queued

  /** The job's callback was called, and with it the wrapper that deletes the head marker. */
  predicate Invoked(outcome: JobOutcome)
  {
    outcome.Completed? || outcome.Failed?
  }

  /**
   * The effect of `processJob` (including the callback it calls) on the data
   * directory and on the mirror, and how the job ends. `SafeKey` gives the
   * data file name, as `PATH.join(dataDir, safeKey(key))` does.
   */
  function JobEffect(data: map<string, Entry>, mirror: map<string, Value>, job: Job, now: int, maxTtl: int, useMemCache: bool)
    : (r: (map<string, Entry>, map<string, Value>, JobOutcome))
    ensures Invoked(r.2) <==> job.kind != "" && job.key != ""
    ensures !Invoked(r.2) ==> r.0 == data && r.1 == mirror
    ensures job.key != "" ==> forall k :: k != SafeKey(job.key).value ==>
      (k in r.0 <==> k in data) && (k in r.0 ==> r.0[k] == data[k])
    ensures r.1 != mirror ==> job.kind == "SET" && useMemCache && r.1 == mirror[job.key := job.value]
    ensures r.2.Failed? ==> job.kind !in {"GET", "SET", "RESET"} && r.0 == data
    ensures job.key != "" && job.kind !in {"", "GET", "SET", "RESET"} ==> r.2.Failed? && r.0 == data && r.1 == mirror
    ensures job.key != "" && job.kind == "GET" ==>
      && r.2.Completed?
      && (r.2.response != Null ==> SafeKey(job.key).value in data && r.2.response == data[SafeKey(job.key).value].data)
    ensures job.key != "" && job.kind == "SET" ==>
      SafeKey(job.key).value in r.0 && r.0[SafeKey(job.key).value].data == job.value && r.2 == Completed(Bool(true))
    ensures job.key != "" && job.kind == "RESET" ==> SafeKey(job.key).value !in r.0 && r.2 == Completed(Bool(true))
  {
    if job.kind == "" then (data, mirror, Ignored)
    else if job.key == "" then (data, mirror, Escaped)
    else
      var path := SafeKey(job.key).value;
      if job.kind == "GET" then
        var (d, v) := ReadEntry(data, path, now, maxTtl);
        (d, mirror, Completed(v))
      else if job.kind == "SET" then
        var d := data[path := Entry(job.arriveAt, job.value, job.ttl, None)];
        (d, if useMemCache then mirror[job.key := job.value] else mirror, Completed(Bool(true)))
      else if job.kind == "RESET" then
        (data - {path}, mirror, Completed(Bool(true)))
      else
        (data, mirror, Failed("Unknown type of cache operation: " + job.kind))
  }

  /** Of a data file whose owner is not alive: `!aliveprocs[data.processTag]`. */
  predicate Orphaned(alive: map<string, int>, e: Entry)
    ensures e.processTag.None? ==> (Orphaned(alive, e) <==> !Truthy(alive, "undefined"))
  {
    !Truthy(alive, OwnerKey(e.processTag))
  }

  /** The data files the health check keeps: all but the expired ones whose owner is not alive. */
  function SurvivingData(data: map<string, Entry>, alive: map<string, int>, now: int, maxTtl: int): (r: map<string, Entry>)
    ensures forall k :: k in r <==>
      (k in data && !(Orphaned(alive, data[k]) && IsExpired(now, data[k].arriveAt, data[k].ttl, maxTtl)))
    ensures forall k :: k in r ==> r[k] == data[k]
  {
    map k | k in data && !(Orphaned(alive, data[k]) && IsExpired(now, data[k].arriveAt, data[k].ttl, maxTtl)) :: data[k]
  }

  /** The data files the health check deletes: orphaned and expired. */
  function DoomedNames(data: map<string, Entry>, alive: map<string, int>, now: int, maxTtl: int): (r: set<string>)
    ensures forall k :: k in r <==>
      (k in data && Orphaned(alive, data[k]) && IsExpired(now, data[k].arriveAt, data[k].ttl, maxTtl))
  {
    set k | k in data && Orphaned(alive, data[k]) && IsExpired(now, data[k].arriveAt, data[k].ttl, maxTtl)
  }

  lemma SurvivingIsMinusDoomed(data: map<string, Entry>, alive: map<string, int>, now: int, maxTtl: int)
    ensures SurvivingData(data, alive, now, maxTtl) == data - (data.Keys * DoomedNames(data, alive, now, maxTtl))
  {
  }

  /** The data loop of `healthCheck`: deletes each listed file that is orphaned and expired. */
  method PruneOrphanData(fs: Workdir, alive: map<string, int>, now: int, maxTtl: int, listing: seq<string>)
    requires IsListing(listing, fs.data.Keys)
    modifies fs`data
    ensures fs.data == SurvivingData(old(fs.data), alive, now, maxTtl)
  {
    ghost var d0 := fs.data;
    ghost var doomed := DoomedNames(d0, alive, now, maxTtl);
    ghost var done: set<string> := {};
    var i := 0;
    while i < |listing|
      invariant 0 <= i <= |listing|
      invariant forall k :: k in done <==> k in listing[..i]
      invariant fs.data == d0 - (done * doomed)
    {
      var name := listing[i];
      assert name !in done by {
        forall j | 0 <= j < i ensures listing[j] != name { }
      }
      assert listing[..i + 1] == listing[..i] + [name];
      DeleteVisitedStep(d0, done, doomed, name);
      var item := fs.data[name];
      if !Truthy(alive, OwnerKey(item.processTag)) {
        if IsExpired(now, item.arriveAt, item.ttl, maxTtl) {
          fs.data := fs.data - {name};
        }
      }
      done := done + {name};
      i := i + 1;
    }
    assert listing[..|listing|] == listing;
    assert done * doomed == d0.Keys * doomed;
    SurvivingIsMinusDoomed(d0, alive, now, maxTtl);
  }

  class Cache {
    const useFileCache: bool
    const useMemCache: bool
    const processTag: string
    const heartbeatTimeout: int
    const maxTtl: int
    const fs: Workdir
    /** The local job queue, null until `init` with the file cache on. */
    var queue: Option<seq<Job>>
    /** The in-process mirror `this.cache`. */
    var cache: map<string, Value>
    /** The periodic heartbeat timer, if installed; its handle is the time it was installed. */
    var heartbeatInstance: Option<nat>

    constructor (fs: Workdir, useFileCache: bool, useMemCache: bool, processTag: string, heartbeatTimeout: int, maxTtl: int)
      ensures this.fs == fs && this.useFileCache == useFileCache && this.useMemCache == useMemCache
      ensures this.processTag == processTag && this.heartbeatTimeout == heartbeatTimeout && this.maxTtl == maxTtl
      ensures queue.None? && cache == map[] && heartbeatInstance.None?
    {
      this.fs := fs;
      this.useFileCache := useFileCache;
      this.useMemCache := useMemCache;
      this.processTag := processTag;
      this.heartbeatTimeout := heartbeatTimeout;
      this.maxTtl := maxTtl;
      queue := None;
      cache := map[];
      heartbeatInstance := None;
    }

    /** `dequeue()`: `shift()` the front job, undefined on an empty queue. */
    method Dequeue() returns (job: Option<Job>)
      requires queue.Some?
      modifies this`queue
      ensures old(queue).value == [] ==> job.None? && queue == old(queue)
      ensures old(queue).value != [] ==> job == Some(old(queue).value[0]) && queue == Some(old(queue).value[1..])
    {
      var q := queue.value;
      if q == [] {
        job := None;
      } else {
        job := Some(q[0]);
        queue := Some(q[1..]);
      }
    }

    /** `processJob(job)`, with the callback it calls. */
    method ProcessJob(job: Job, now: int) returns (outcome: JobOutcome)
      modifies this`cache, fs`data
      ensures (fs.data, cache, outcome) == JobEffect(old(fs.data), old(cache), job, now, maxTtl, useMemCache)
    {
      if job.kind == "" {
        return Ignored;
      }
      var path := SafeKey(job.key);
      if path.None? {
        return Escaped;
      }
      var filepath := path.value;
      match job.kind {
        case "GET" =>
          if filepath in fs.data {
            var item := fs.data[filepath];
            if IsExpired(now, item.arriveAt, item.ttl, maxTtl) {
              fs.data := fs.data - {filepath};
              outcome := Completed(Null);
            } else {
              outcome := Completed(item.data);
            }
          } else {
            outcome := Completed(Null);
          }
        case "SET" =>
          fs.data := fs.data[filepath := Entry(job.arriveAt, job.value, job.ttl, None)];
          if useMemCache {
            cache := cache[job.key := job.value];
          }
          outcome := Completed(Bool(true));
        case "RESET" =>
          if filepath in fs.data {
            fs.data := fs.data - {filepath};
          } else {
            assert fs.data - {filepath} == fs.data;
          }
          outcome := Completed(Bool(true));
        case _ =>
          outcome := Failed("Unknown type of cache operation: " + job.kind);
      }
    }

    /**
     * The own-head branch with jobs waiting: dequeue the front job and run it
     * with its callback wrapped so that calling it first deletes `headFile`.
     */
    method RunFront(now: nat, headFile: string) returns (job: Job, outcome: JobOutcome)
      requires queue.Some? && queue.value != []
      modifies this`queue, this`cache, fs`queue, fs`data
      ensures job == old(queue).value[0] && queue == Some(old(queue).value[1..])
      ensures (fs.data, cache, outcome) == JobEffect(old(fs.data), old(cache), job, now, maxTtl, useMemCache)
      ensures fs.queue == (if Invoked(outcome) then old(fs.queue) - {headFile} else old(fs.queue))
    {
      var front := Dequeue();
      job := front.value;
      outcome := ProcessJob(job, now);
      if Invoked(outcome) {
        fs.queue := fs.queue - {headFile};
      }
    }

    /** The first step of `processJobQueue`: a pass not caused by a notification writes `${now}-${processTag}`. */
    method WriteMarker(fromNotification: bool, now: nat)
      modifies fs`queue
      ensures fs.queue == AfterWrite(old(fs.queue), fromNotification, now, processTag)
    {
      if !fromNotification {
        fs.queue := fs.queue + {MarkerName(now, processTag)};
      }
    }

    /**
     * The own-head branch of `processJobQueue`, whose head marker is
     * `headFile`: with jobs waiting the front job runs and the marker goes
     * only if its callback was called; with none the marker goes.
     */
    method ServeHead(now: nat, headFile: string) returns (ran: Option<(Job, JobOutcome)>)
      requires queue.Some?
      modifies this`queue, this`cache, fs`queue, fs`data
      ensures queue.Some?
      ensures old(queue).value != [] ==>
        && ran.Some? && ran.value.0 == old(queue).value[0] && queue == Some(old(queue).value[1..])
        && (fs.data, cache, ran.value.1) == JobEffect(old(fs.data), old(cache), ran.value.0, now, maxTtl, useMemCache)
        && fs.queue == (if Invoked(ran.value.1) then old(fs.queue) - {headFile} else old(fs.queue))
      ensures old(queue).value == [] ==>
        && ran.None? && queue == old(queue) && fs.data == old(fs.data) && cache == old(cache)
        && fs.queue == old(fs.queue) - {headFile}
    {
      if |queue.value| > 0 {
        var job, outcome := RunFront(now, headFile);
        ran := Some((job, outcome));
      } else {
        ran := None;
        fs.queue := fs.queue - {headFile};
      }
    }

    /**
     * The head step of `processJobQueue` over the listing of the queue
     * directory. When the head marker carries this process's tag: with an
     * empty local queue the head marker is deleted; otherwise the front job
     * runs, and the head marker is deleted only if the job's callback was
     * called. Otherwise nothing changes.
     */
    method RunAtHead(now: nat, listing: seq<string>) returns (ran: Option<(Job, JobOutcome)>)
      requires queue.Some?
      modifies this`queue, this`cache, fs`queue, fs`data
      ensures queue.Some?
      ensures var head := HeadOf(listing);
        var owns := head.Some? && head.value.processTag == processTag;
        if owns && old(queue).value != [] then
          && ran.Some? && ran.value.0 == old(queue).value[0] && queue == Some(old(queue).value[1..])
          && (fs.data, cache, ran.value.1) == JobEffect(old(fs.data), old(cache), ran.value.0, now, maxTtl, useMemCache)
          && fs.queue == (if Invoked(ran.value.1) then old(fs.queue) - {FileNameOf(head.value)} else old(fs.queue))
        else
          && ran.None? && queue == old(queue) && fs.data == old(fs.data) && cache == old(cache)
          && fs.queue == (if owns then old(fs.queue) - {FileNameOf(head.value)} else old(fs.queue))
    {
      ran := None;
      if |listing| > 0 {
        var top := SelectHead(listing);
        var topProc := ParseProcQueueItem(listing[top]);
        assert HeadOf(listing) == Some(topProc);
        if topProc.processTag == processTag {
          ran := ServeHead(now, FileNameOf(topProc));
        }
      }
    }

    /**
     * `processJobQueue({fromNotification})`. `listing` is the queue directory
     * after the optional write. When the head marker carries this process's
     * tag: with an empty local queue the head marker is deleted; otherwise the
     * front job runs, and the head marker is deleted only if the job's
     * callback was called.
     */
    method ProcessJobQueue(fromNotification: bool, now: nat, listing: seq<string>) returns (ran: Option<(Job, JobOutcome)>)
      requires queue.Some?
      requires IsListing(listing, AfterWrite(fs.queue, fromNotification, now, processTag))
      modifies this`queue, this`cache, fs`queue, fs`data
      ensures queue.Some?
      ensures var written := AfterWrite(old(fs.queue), fromNotification, now, processTag);
        var head := HeadOf(listing);
        if head.Some? && head.value.processTag == processTag && old(queue).value != [] then
          && ran.Some? && ran.value.0 == old(queue).value[0] && queue == Some(old(queue).value[1..])
          && (fs.data, cache, ran.value.1) == JobEffect(old(fs.data), old(cache), ran.value.0, now, maxTtl, useMemCache)
          && fs.queue == (if Invoked(ran.value.1) then written - {FileNameOf(head.value)} else written)
        else
          && ran.None? && queue == old(queue) && fs.data == old(fs.data) && cache == old(cache)
          && fs.queue == (if head.Some? && head.value.processTag == processTag then written - {FileNameOf(head.value)} else written)
    {
      WriteMarker(fromNotification, now);
      ran := RunAtHead(now, listing);
    }

    /**
     * What `enqueue(job)` does to the local queue (`q0` to `q1`), the queue
     * directory (`m0` to `m1`), the data directory (`d0` to `d1`) and the
     * mirror (`c0` to `c1`): with a null queue it throws and changes nothing;
     * otherwise the job is pushed and, exactly when this process's marker
     * heads `listing`, the front job runs with the effect `JobEffect` gives.
     */
    ghost predicate Enqueued(job: Job, now: nat, listing: seq<string>,
                             q0: Option<seq<Job>>, m0: set<string>, d0: map<string, Entry>, c0: map<string, Value>,
                             threw: bool, ran: Option<(Job, JobOutcome)>,
                             q1: Option<seq<Job>>, m1: set<string>, d1: map<string, Entry>, c1: map<string, Value>)
      reads this
    {
      if q0.None? then
        threw && ran.None? && q1.None? && m1 == m0 && d1 == d0 && c1 == c0
      else
        var pushed := q0.value + [job];
        var written := AfterWrite(m0, false, now, processTag);
        var head := HeadOf(listing);
        && (threw <==> ran.Some? && ran.value.1.Escaped?)
        && if head.Some? && head.value.processTag == processTag then
          && ran.Some? && ran.value.0 == pushed[0] && q1 == Some(pushed[1..])
          && (d1, c1, ran.value.1) == JobEffect(d0, c0, pushed[0], now, maxTtl, useMemCache)
          && m1 == (if Invoked(ran.value.1) then written - {FileNameOf(head.value)} else written)
        else
          ran.None? && q1 == Some(pushed) && m1 == written && d1 == d0 && c1 == c0
    }

    /**
     * `enqueue(job)`: pushes the job and runs a non-notification pass. It
     * throws when the queue is still null, or when the job the pass runs
     * throws out of `processJob`.
     */
    method Enqueue(job: Job, now: nat, listing: seq<string>) returns (threw: bool, ran: Option<(Job, JobOutcome)>)
      requires IsListing(listing, AfterWrite(fs.queue, false, now, processTag))
      modifies this`queue, this`cache, fs`queue, fs`data
      ensures Enqueued(job, now, listing, old(queue), old(fs.queue), old(fs.data), old(cache),
                       threw, ran, queue, fs.queue, fs.data, cache)
    {
      if queue.None? {
        return true, None;
      }
      queue := Some(queue.value + [job]);
      ran := ProcessJobQueue(false, now, listing);
      threw := ran.Some? && ran.value.1.Escaped?;
    }

    /**
     * `healthCheck()`: deletes the dead heartbeats, the queue markers whose
     * `split('-')[1]` owner is not alive, and the expired data files whose
     * owner is not alive.
     */
    method HealthCheck(now: int, heartbeatListing: seq<string>, queueListing: seq<string>, dataListing: seq<string>)
      requires IsListing(heartbeatListing, fs.heartbeats.Keys)
      requires IsListing(queueListing, fs.queue)
      requires IsListing(dataListing, fs.data.Keys)
      modifies fs
      ensures var alive := AliveProcs(old(fs.heartbeats), now, heartbeatTimeout);
        && fs.heartbeats == LiveHeartbeats(old(fs.heartbeats), now, heartbeatTimeout)
        && fs.queue == set n | n in old(fs.queue) && KeepMarker(alive, n)
        && fs.data == SurvivingData(old(fs.data), alive, now, maxTtl)
    {
      var alive := ClassifyHeartbeats(fs, now, heartbeatTimeout, heartbeatListing);
      PruneMarkers(fs, alive, queueListing);
      PruneOrphanData(fs, alive, now, maxTtl, dataListing);
    }

    /**
     * `heartbeat()`: writes `now` into this process's heartbeat file, runs the
     * health check, and installs the periodic timer only if none exists.
     */
    method Heartbeat(now: nat, heartbeatListing: seq<string>, queueListing: seq<string>, dataListing: seq<string>)
      returns (instance: Option<nat>)
      requires IsListing(heartbeatListing, fs.heartbeats.Keys + {processTag})
      requires IsListing(queueListing, fs.queue)
      requires IsListing(dataListing, fs.data.Keys)
      modifies this`heartbeatInstance, fs
      ensures var written := old(fs.heartbeats)[processTag := ShowNat(now)];
        var alive := AliveProcs(written, now, heartbeatTimeout);
        && fs.heartbeats == LiveHeartbeats(written, now, heartbeatTimeout)
        && fs.queue == set n | n in old(fs.queue) && KeepMarker(alive, n)
        && fs.data == SurvivingData(old(fs.data), alive, now, maxTtl)
      ensures old(heartbeatInstance).Some? ==> heartbeatInstance == old(heartbeatInstance)
      ensures old(heartbeatInstance).None? ==> heartbeatInstance == Some(now)
      ensures instance == heartbeatInstance
    {
      fs.heartbeats := fs.heartbeats[processTag := ShowNat(now)];
      HealthCheck(now, heartbeatListing, queueListing, dataListing);
      if heartbeatInstance.None? {
        heartbeatInstance := Some(now);
      }
      instance := heartbeatInstance;
    }

    /**
     * `init()`: with the file cache on, (re)creates an empty job queue and
     * heartbeats; it always resolves to true.
     */
    method Init(now: nat, heartbeatListing: seq<string>, queueListing: seq<string>, dataListing: seq<string>)
      returns (r: bool)
      requires useFileCache ==> IsListing(heartbeatListing, fs.heartbeats.Keys + {processTag})
      requires useFileCache ==> IsListing(queueListing, fs.queue)
      requires useFileCache ==> IsListing(dataListing, fs.data.Keys)
      modifies this`queue, this`heartbeatInstance, fs
      ensures r
      ensures useFileCache ==> queue == Some([])
      ensures useFileCache ==>
        var written := old(fs.heartbeats)[processTag := ShowNat(now)];
        var alive := AliveProcs(written, now, heartbeatTimeout);
        && fs.heartbeats == LiveHeartbeats(written, now, heartbeatTimeout)
        && fs.queue == set n | n in old(fs.queue) && KeepMarker(alive, n)
        && fs.data == SurvivingData(old(fs.data), alive, now, maxTtl)
        && heartbeatInstance == (if old(heartbeatInstance).Some? then old(heartbeatInstance) else Some(now))
      ensures !useFileCache ==>
        && queue == old(queue) && fs.heartbeats == old(fs.heartbeats) && fs.queue == old(fs.queue)
        && fs.data == old(fs.data) && heartbeatInstance == old(heartbeatInstance)
    {
      if useFileCache {
        queue := Some([]);
        var _ := Heartbeat(now, heartbeatListing, queueListing, dataListing);
      }
      r := true;
    }

    /**
     * `get(key)`: a mirror hit answers at once; with the file cache off the
     * answer is null; otherwise a GET job is queued.
     */
    method Get(key: string, now: nat, listing: seq<string>) returns (reply: Reply, ran: Option<(Job, JobOutcome)>)
      requires IsListing(listing, AfterWrite(fs.queue, false, now, processTag))
      modifies this`queue, this`cache, fs`queue, fs`data
      ensures useMemCache && key in old(cache) ==>
        reply == Resolved(old(cache)[key]) && ran.None? && cache == old(cache) && queue == old(queue)
        && fs.data == old(fs.data) && fs.queue == old(fs.queue)
      ensures !(useMemCache && key in old(cache)) && !useFileCache ==>
        reply == Resolved(Null) && ran.None? && queue == old(queue) && cache == old(cache)
        && fs.data == old(fs.data) && fs.queue == old(fs.queue)
      ensures !(useMemCache && key in old(cache)) && useFileCache ==>
        (reply.Rejected? <==> old(queue).None? || (ran.Some? && ran.value.1.Escaped?))
        && (!reply.Rejected? ==> reply == Queued)
        && Enqueued(Job("GET", key, Null, None, now), now, listing, old(queue), old(fs.queue), old(fs.data), old(cache),
                    reply.Rejected?, ran, queue, fs.queue, fs.data, cache)
    {
      ran := None;
      if useMemCache && key in cache {
        reply := Resolved(cache[key]);
      } else if useFileCache {
        var threw;
        threw, ran := Enqueue(Job("GET", key, Null, None, now), now, listing);
        reply := if threw then Rejected("TypeError") else Queued;
      } else {
        reply := Resolved(Null);
      }
    }

    /**
     * `set(key, value, ttl)`: with the file cache on, a SET job is queued
     * (the mirror is set when it completes); with only the mirror on, the
     * mirror is set at once.
     */
    method Set(key: string, value: Value, ttl: Option<Value>, now: nat, listing: seq<string>)
      returns (reply: Reply, ran: Option<(Job, JobOutcome)>)
      requires IsListing(listing, AfterWrite(fs.queue, false, now, processTag))
      modifies this`queue, this`cache, fs`queue, fs`data
      ensures !useFileCache ==>
        reply == Resolved(Bool(true)) && ran.None? && queue == old(queue) && fs.data == old(fs.data) && fs.queue == old(fs.queue)
        && cache == (if useMemCache then old(cache)[key := value] else old(cache))
      ensures useFileCache ==>
        (reply.Rejected? <==> old(queue).None? || (ran.Some? && ran.value.1.Escaped?))
        && (!reply.Rejected? ==> reply == Queued)
        && Enqueued(Job("SET", key, value, ttl, now), now, listing, old(queue), old(fs.queue), old(fs.data), old(cache),
                    reply.Rejected?, ran, queue, fs.queue, fs.data, cache)
    {
      ran := None;
      if useFileCache {
        var threw;
        threw, ran := Enqueue(Job("SET", key, value, ttl, now), now, listing);
        reply := if threw then Rejected("TypeError") else Queued;
      } else {
        if useMemCache {
          cache := cache[key := value];
        }
        reply := Resolved(Bool(true));
      }
    }

    /**
     * `reset(key)`: drops the key from the mirror at once; with the file cache
     * on, a RESET job is queued.
     */
    method Reset(key: string, now: nat, listing: seq<string>) returns (reply: Reply, ran: Option<(Job, JobOutcome)>)
      requires IsListing(listing, AfterWrite(fs.queue, false, now, processTag))
      modifies this`queue, this`cache, fs`queue, fs`data
      ensures useMemCache && (ran.None? || ran.value.0.kind != "SET") ==> key !in cache
      ensures !useFileCache ==>
        reply == Resolved(Bool(true)) && ran.None? && queue == old(queue) && fs.data == old(fs.data) && fs.queue == old(fs.queue)
        && cache == (if useMemCache then old(cache) - {key} else old(cache))
      ensures useFileCache ==>
        (reply.Rejected? <==> old(queue).None? || (ran.Some? && ran.value.1.Escaped?))
        && (!reply.Rejected? ==> reply == Queued)
        && Enqueued(Job("RESET", key, Null, None, now), now, listing, old(queue), old(fs.queue), old(fs.data),
                    if useMemCache then old(cache) - {key} else old(cache),
                    reply.Rejected?, ran, queue, fs.queue, fs.data, cache)
    {
      ran := None;
      if useMemCache && key in cache {
        cache := cache - {key};
      }
      assert cache == if useMemCache then old(cache) - {key} else old(cache);
      if useFileCache {
        var threw;
        threw, ran := Enqueue(Job("RESET", key, Null, None, now), now, listing);
        reply := if threw then Rejected("TypeError") else Queued;
      } else {
        reply := Resolved(Bool(true));
      }
    }
  }

  /** A GET run after a SET of the same key, within the effective TTL, completes with the value set. */
  lemma SetThenGet(data: map<string, Entry>, mirror: map<string, Value>, key: string, value: Value,
                   ttl: Option<Value>, written: int, now: int, maxTtl: int, useMemCache: bool)
    requires key != ""
    requires !IsExpired(now, written, ttl, maxTtl)
    ensures var (d1, m1, o1) := JobEffect(data, mirror, Job("SET", key, value, ttl, written), now, maxTtl, useMemCache);
      && o1 == Completed(Bool(true))
      && JobEffect(d1, m1, Job("GET", key, Null, None, now), now, maxTtl, useMemCache) == (d1, m1, Completed(value))
  {
    var path := SafeKey(key).value;
    ReadAfterWrite(data, path, written, value, ttl, None, now, maxTtl);
  }

  /** A GET run after a RESET of the same key completes with null. */
  lemma ResetThenGet(data: map<string, Entry>, mirror: map<string, Value>, key: string, now: int, later: int,
                     maxTtl: int, useMemCache: bool)
    requires key != ""
    ensures var (d1, m1, o1) := JobEffect(data, mirror, Job("RESET", key, Null, None, now), now, maxTtl, useMemCache);
      && o1 == Completed(Bool(true))
      && JobEffect(d1, m1, Job("GET", key, Null, None, later), later, maxTtl, useMemCache) == (d1, m1, Completed(Null))
  {
    ReadAfterDelete(data, SafeKey(key).value, later, maxTtl);
  }

  /** Entries of a live owner are never swept, and neither is any entry still within its TTL. */
  lemma SweepKeepsLiveAndUnexpired(data: map<string, Entry>, alive: map<string, int>, now: int, maxTtl: int)
    ensures forall k :: k in Unexpired(data, now, maxTtl) ==> k in SurvivingData(data, alive, now, maxTtl)
    ensures forall k :: k in data && Truthy(alive, OwnerKey(data[k].processTag)) ==> k in SurvivingData(data, alive, now, maxTtl)
  {
  }

  /**
   * Entries written by this class carry no owner, so unless some live process
   * is tagged "undefined" the health-check sweep is the plain expiry sweep.
   */
  lemma OwnerlessSweepIsExpirySweep(data: map<string, Entry>, alive: map<string, int>, now: int, maxTtl: int)
    requires forall k :: k in data ==> data[k].processTag.None?
    requires !Truthy(alive, "undefined")
    ensures SurvivingData(data, alive, now, maxTtl) == Unexpired(data, now, maxTtl)
  {
  }
}
