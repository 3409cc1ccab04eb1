/**
 * `CacheInFile`: the key/value store over the data directory, with an
 * optional in-process mirror, whose disk accesses run as jobs of an
 * `OperationQueueInFile`. A call either answers at once (mirror hit, file
 * cache off, bad key) or queues a job; the job queued, or an older one, may
 * run during the same call, and its own reply is returned beside the call's.
 */
module CacheInFileStore {
  import opened JsValues
  import opened KeyEscape
  import opened Ttl
  import opened Disk
  import opened DataEntry
  import opened QueueMarker
  import opened Liveness
  import opened OperationQueue

  /** The callbacks `get`, `set` and `reset` enqueue, with what they capture. */
  datatype StoreJob =
    | GetJob(path: string)
    | SetJob(key: string, path: string, value: Value, ttl: Option<Value>)
    | ResetJob(path: string)

  /** How a promise returned by the cache ends up. */
  datatype Reply =
    | Resolved(value: Value)
    | Rejected(reason: string)
    /** A job was queued; its reply is given when it runs. */
    | Queued
    /** The promise never settles. */
    | Unsettled

  /** `typeof v === 'object'`: null, arrays and objects. */
  predicate IsObjectLike(v: Value)
    ensures IsObjectLike(v) <==> !(v.Bool? || v.Number? || v.Str?)
  {
    v.Null? || v.Arr? || v.Obj?
  }

  /** The own enumerable properties `Object.assign` copies from a source: none from null, indices from an array. */
  function Props(v: Value): (r: map<string, Value>)
    requires IsObjectLike(v)
    ensures v.Arr? ==> forall i :: 0 <= i < |v.items| ==> ShowNat(i) in r && r[ShowNat(i)] == v.items[i]
  {
    match v
    case Null => map[]
    case Obj(m) => m
    case Arr(xs) =>
      ShowNatInjectiveAll();
      map i | 0 <= i < |xs| :: ShowNat(i) := xs[i]
  }

  /**
   * The value `append` stores for a key absent from the mirror: an array
   * initial value is copied and `value` pushed at its end; otherwise, when
   * both are objects in the `typeof` sense, `Object.assign({}, initial, value)`;
   * any other combination stores null.
   */
  function AppendMerge(initial: Value, value: Value): (r: Value)
    ensures initial.Arr? ==>
      && r.Arr? && |r.items| == |initial.items| + 1
      && r.items[..|initial.items|] == initial.items && r.items[|initial.items|] == value
    ensures !initial.Arr? && IsObjectLike(initial) && IsObjectLike(value) ==>
      && r.Obj? && r.props.Keys == Props(initial).Keys + Props(value).Keys
      && (forall k :: k in Props(value) ==> r.props[k] == Props(value)[k])
      && (forall k :: k in Props(initial) && k !in Props(value) ==> r.props[k] == Props(initial)[k])
    ensures !initial.Arr? && !(IsObjectLike(initial) && IsObjectLike(value)) ==> r == Null
  {
    if initial.Arr? then Arr(initial.items + [value])
    else if IsObjectLike(initial) && IsObjectLike(value) then Obj(Props(initial) + Props(value))
    else Null
  }

  /** The options object `append` destructures; a missing `initialValue` defaults to `[]`. */
  datatype AppendOptions = AppendOptions(initialValue: Option<Value>)

  /**
   * What a dequeued callback of `get`, `set` or `reset` does to the data
   * directory and the mirror, and how its promise ends: a read expires or
   * returns the entry, a write stores `{arriveAt, data, ttl, processTag}`
   * (and mirrors the value), a delete removes the file and never settles.
   */
  function StoreJobEffect(data: map<string, Entry>, mirror: map<string, Value>, job: StoreJob, now: int,
                          maxTtl: int, useMemCache: bool, owner: Option<string>)
    : (r: (map<string, Entry>, map<string, Value>, Reply))
    ensures forall k :: k != job.path ==> (k in r.0 <==> k in data) && (k in r.0 ==> r.0[k] == data[k])
    ensures r.1 != mirror ==> job.SetJob? && useMemCache && r.1 == mirror[job.key := job.value]
    ensures job.GetJob? ==> r.2.Resolved? && (r.2.value != Null ==> job.path in data && r.2.value == data[job.path].data)
    ensures job.SetJob? ==> job.path in r.0 && r.0[job.path].data == job.value && r.2 == Resolved(Bool(true))
    ensures job.ResetJob? ==> job.path !in r.0 && r.2 == Unsettled
  {
    match job
    case GetJob(path) =>
      var (d, v) := ReadEntry(data, path, now, maxTtl);
      (d, mirror, Resolved(v))
    case SetJob(key, path, value, ttl) =>
      (data[path := Entry(now, value, ttl, owner)], if useMemCache then mirror[key := value] else mirror, Resolved(Bool(true)))
    case ResetJob(path) =>
      (data - {path}, mirror, Unsettled)
  }

  /** A read job run right after a write job on the same file, at the same instant, resolves to the written value. */
  lemma StoreSetThenGet(data: map<string, Entry>, mirror: map<string, Value>, key: string, path: string, value: Value,
                        ttl: Option<Value>, now: int, maxTtl: int, useMemCache: bool, owner: Option<string>)
    requires maxTtl >= 0
    ensures var w := StoreJobEffect(data, mirror, SetJob(key, path, value, ttl), now, maxTtl, useMemCache, owner);
      StoreJobEffect(w.0, w.1, GetJob(path), now, maxTtl, useMemCache, owner) == (w.0, w.1, Resolved(value))
  {
    ReadRightAfterWrite(data, path, now, value, ttl, owner, maxTtl);
  }

  /** A read job run after a delete job on the same file resolves to null and changes nothing more. */
  lemma StoreResetThenGet(data: map<string, Entry>, mirror: map<string, Value>, path: string, now: int,
                          maxTtl: int, useMemCache: bool, owner: Option<string>)
    ensures var d := StoreJobEffect(data, mirror, ResetJob(path), now, maxTtl, useMemCache, owner);
      StoreJobEffect(d.0, d.1, GetJob(path), now, maxTtl, useMemCache, owner) == (d.0, d.1, Resolved(Null))
  {
    ReadAfterDelete(data, path, now, maxTtl);
  }

  class CacheInFile {
    const useMemCache: bool
    const useFileCache: bool
    const maxTtl: int
    const fs: Workdir
    const operationQueue: OperationQueueInFile<StoreJob>
    /** Whether `init` has created the operation queue (`this.operationQueue` is non-null). */
    var queueReady: bool
    /** The process tag `init` obtained, null before. */
    var processTag: Option<string>
    /** The in-process mirror `this.cache`. */
    var cache: map<string, Value>

    ghost predicate Valid()
      reads this
    {
      operationQueue.fs == fs
    }

    /**
     * The local queue went from `q0` to `q1`, the data directory from `d0`
     * to `d1` and the mirror from `c0` to `c1`: either the front job of `q0`
     * was dequeued and ran (`ran` holds it with its reply), or nothing ran and
     * nothing changed.
     */
    ghost predicate FrontRan(q0: seq<StoreJob>, d0: map<string, Entry>, c0: map<string, Value>, now: int,
                             ran: Option<(StoreJob, Reply)>, q1: seq<StoreJob>, d1: map<string, Entry>, c1: map<string, Value>)
      reads this
    {
      if ran.Some? then
        && q0 != [] && ran.value.0 == q0[0] && q1 == q0[1..]
        && (d1, c1, ran.value.1) == StoreJobEffect(d0, c0, q0[0], now, maxTtl, useMemCache, processTag)
      else
        q1 == q0 && d1 == d0 && c1 == c0
    }

    /**
     * A submitting pass over `listing` took the queue directory from `m0` to
     * `m1`: this process wrote its marker, and a job ran (`ran`) exactly when
     * this process's marker heads the listing, which then loses that marker.
     */
    ghost predicate HeadPass(m0: set<string>, now: nat, listing: seq<string>, ran: Option<(StoreJob, Reply)>, m1: set<string>)
      reads this, operationQueue
    {
      var head := HeadOf(listing);
      var written := AfterWrite(m0, false, now, operationQueue.processTag);
      var owns := head.Some? && head.value.processTag == operationQueue.processTag;
      && (ran.Some? <==> owns)
      && m1 == (if owns then written - {FileNameOf(head.value)} else written)
    }

    constructor (fs: Workdir, useMemCache: bool, useFileCache: bool, maxTtl: int, queueTag: string, heartbeatTimeout: int)
      ensures Valid()
      ensures this.fs == fs && this.useMemCache == useMemCache && this.useFileCache == useFileCache && this.maxTtl == maxTtl
      ensures fresh(operationQueue) && operationQueue.processTag == queueTag && operationQueue.heartbeatTimeout == heartbeatTimeout
      ensures operationQueue.queue == [] && operationQueue.heartbeatInstance.None?
      ensures !queueReady && processTag.None? && cache == map[]
    {
      this.fs := fs;
      this.useMemCache := useMemCache;
      this.useFileCache := useFileCache;
      this.maxTtl := maxTtl;
      this.operationQueue := new OperationQueueInFile(fs, queueTag, heartbeatTimeout);
      queueReady := false;
      this.processTag := None;
      cache := map[];
    }

    /** `keypath(key)`: the data file of a key; `safeKey` of the empty key is null and `PATH.join` throws. */
    function KeyPath(key: string): (r: Option<string>)
      ensures r.None? <==> key == ""
      ensures r.Some? ==> forall i :: 0 <= i < |r.value| ==> !Reserved(r.value[i])
    {
      if key == "" then None
      else
        SafeKeyHasNoReserved(key);
        SafeKey(key)
    }

    /** The data-file sweep of `init`: deletes every listed entry that has expired, whatever its owner. */
    method SweepExpired(now: int, listing: seq<string>)
      requires IsListing(listing, fs.data.Keys)
      modifies fs`data
      ensures fs.data == Unexpired(old(fs.data), now, maxTtl)
    {
      ghost var d0 := fs.data;
      ghost var expired := ExpiredNames(d0, now, maxTtl);
      ghost var done: set<string> := {};
      var i := 0;
      while i < |listing|
        invariant 0 <= i <= |listing|
        invariant forall k :: k in done <==> k in listing[..i]
        invariant fs.data == d0 - (done * expired)
      {
        var name := listing[i];
        assert name !in done by {
          forall j | 0 <= j < i ensures listing[j] != name { }
        }
        assert listing[..i + 1] == listing[..i] + [name];
        DeleteVisitedStep(d0, done, expired, name);
        var item := fs.data[name];
        if IsExpired(now, item.arriveAt, item.ttl, maxTtl) {
          fs.data := fs.data - {name};
        }
        done := done + {name};
        i := i + 1;
      }
      assert listing[..|listing|] == listing;
      assert done * expired == d0.Keys * expired;
      UnexpiredIsMinusExpired(d0, now, maxTtl);
    }

    /**
     * `init()`: on the first call creates the operation queue and runs its
     * `init` (a heartbeat), taking its tag; then sweeps the data directory.
     */
    method Init(now: nat, heartbeatListing: seq<string>, queueListing: seq<string>, dataListing: seq<string>)
      returns (tag: Option<string>)
      requires Valid()
      requires !queueReady ==> IsListing(heartbeatListing, fs.heartbeats.Keys + {operationQueue.processTag})
      requires !queueReady ==> IsListing(queueListing, fs.queue)
      requires IsListing(dataListing, fs.data.Keys)
      modifies this`queueReady, this`processTag, operationQueue`heartbeatInstance, fs
      ensures Valid() && queueReady
      ensures old(queueReady) ==> processTag == old(processTag) && fs.heartbeats == old(fs.heartbeats) && fs.queue == old(fs.queue)
      ensures !old(queueReady) ==>
        var written := old(fs.heartbeats)[operationQueue.processTag := ShowNat(now)];
        && processTag == Some(operationQueue.processTag)
        && fs.heartbeats == LiveHeartbeats(written, now, operationQueue.heartbeatTimeout)
        && fs.queue == set n | n in old(fs.queue) && KeepMarker(AliveProcs(written, now, operationQueue.heartbeatTimeout), n)
        && operationQueue.heartbeatInstance ==
           (if old(operationQueue.heartbeatInstance).Some? then old(operationQueue.heartbeatInstance) else Some(now))
      ensures old(queueReady) ==> operationQueue.heartbeatInstance == old(operationQueue.heartbeatInstance)
      ensures fs.data == Unexpired(old(fs.data), now, maxTtl)
      ensures tag == processTag
    {
      if !queueReady {
        queueReady := true;
        var tag := operationQueue.Init(now, heartbeatListing, queueListing);
        processTag := Some(tag);
      }
      SweepExpired(now, dataListing);
      tag := processTag;
    }

    /** Runs a dequeued callback against the data directory and the mirror. */
    method RunJob(job: StoreJob, now: int) returns (reply: Reply)
      modifies this`cache, fs`data
      ensures (fs.data, cache, reply) == StoreJobEffect(old(fs.data), old(cache), job, now, maxTtl, useMemCache, processTag)
    {
      match job
      case GetJob(path) =>
        if path in fs.data {
          var item := fs.data[path];
          if IsExpired(now, item.arriveAt, item.ttl, maxTtl) {
            fs.data := fs.data - {path};
            reply := Resolved(Null);
          } else {
            reply := Resolved(item.data);
          }
        } else {
          reply := Resolved(Null);
        }
      case SetJob(key, path, value, ttl) =>
        if useMemCache {
          cache := cache[key := value];
        }
        fs.data := fs.data[path := Entry(now, value, ttl, processTag)];
        reply := Resolved(Bool(true));
      case ResetJob(path) =>
        if path in fs.data {
          fs.data := fs.data - {path};
        }
        assert fs.data == old(fs.data) - {path};
        reply := Unsettled;
    }

    /** Queues `job` on the operation queue and runs whatever job the pass dequeues. */
    method Submit(job: StoreJob, now: nat, listing: seq<string>) returns (ran: Option<(StoreJob, Reply)>)
      requires Valid()
      requires IsListing(listing, AfterWrite(fs.queue, false, now, operationQueue.processTag))
      modifies this`cache, operationQueue`queue, fs`queue, fs`data
      ensures Valid()
      ensures HeadPass(old(fs.queue), now, listing, ran, fs.queue)
      ensures FrontRan(old(operationQueue.queue) + [job], old(fs.data), old(cache), now,
                       ran, operationQueue.queue, fs.data, cache)
    {
      var accepted, dequeued := operationQueue.Enqueue(Function(job), now, listing);
      ran := None;
      if dequeued.Some? {
        var reply := RunJob(dequeued.value, now);
        ran := Some((dequeued.value, reply));
      }
    }

    /**
     * `queuedirHandler()`: on a change of the queue directory, a pass that
     * writes no marker; if this process's marker is at the head, the front
     * job (if any) is dequeued and run, and the head marker is deleted.
     */
    method OnQueueChange(now: nat, listing: seq<string>) returns (ran: Option<(StoreJob, Reply)>)
      requires Valid()
      requires IsListing(listing, fs.queue)
      modifies this`cache, operationQueue`queue, fs`queue, fs`data
      ensures Valid()
      ensures var head := HeadOf(listing);
        var owns := head.Some? && head.value.processTag == operationQueue.processTag;
        && (ran.Some? <==> owns && old(operationQueue.queue) != [])
        && fs.queue == (if owns then old(fs.queue) - {FileNameOf(head.value)} else old(fs.queue))
      ensures FrontRan(old(operationQueue.queue), old(fs.data), old(cache), now,
                       ran, operationQueue.queue, fs.data, cache)
    {
      var dequeued := operationQueue.ProcessJobQueue(true, now, listing);
      ran := None;
      if dequeued.Some? {
        var reply := RunJob(dequeued.value, now);
        ran := Some((dequeued.value, reply));
      }
    }

    /**
     * `get(key)`: a mirror hit answers at once without touching disk; with the
     * file cache off the answer is null; otherwise a read job is queued.
     */
    method Get(key: string, now: nat, listing: seq<string>) returns (reply: Reply, ran: Option<(StoreJob, Reply)>)
      requires Valid()
      requires IsListing(listing, AfterWrite(fs.queue, false, now, operationQueue.processTag))
      modifies this`cache, operationQueue`queue, fs`queue, fs`data
      ensures Valid()
      ensures useMemCache && key in old(cache) ==>
        reply == Resolved(old(cache)[key]) && ran.None? && cache == old(cache)
        && fs.data == old(fs.data) && fs.queue == old(fs.queue) && operationQueue.queue == old(operationQueue.queue)
      ensures !(useMemCache && key in old(cache)) && !useFileCache ==>
        reply == Resolved(Null) && ran.None? && cache == old(cache)
        && fs.data == old(fs.data) && fs.queue == old(fs.queue) && operationQueue.queue == old(operationQueue.queue)
      ensures !(useMemCache && key in old(cache)) && useFileCache && (key == "" || !queueReady) ==>
        reply.Rejected? && ran.None? && cache == old(cache)
        && fs.data == old(fs.data) && fs.queue == old(fs.queue) && operationQueue.queue == old(operationQueue.queue)
      ensures !(useMemCache && key in old(cache)) && useFileCache && key != "" && queueReady ==>
        && reply == Queued
        && HeadPass(old(fs.queue), now, listing, ran, fs.queue)
        && FrontRan(old(operationQueue.queue) + [GetJob(KeyPath(key).value)], old(fs.data), old(cache), now,
                    ran, operationQueue.queue, fs.data, cache)
    {
      ran := None;
      if useMemCache && key in cache {
        reply := Resolved(cache[key]);
      } else if useFileCache {
        var path := KeyPath(key);
        if path.None? {
          reply := Rejected("TypeError: path must be a string");
        } else if !queueReady {
          reply := Rejected("TypeError: operationQueue is null");
        } else {
          ran := Submit(GetJob(path.value), now, listing);
          reply := Queued;
        }
      } else {
        reply := Resolved(Null);
      }
    }

    /**
     * `set(key, value, ttl)`: with the file cache on, a write job is queued;
     * with only the mirror on, the mirror is set at once.
     */
    method Set(key: string, value: Value, ttl: Option<Value>, now: nat, listing: seq<string>)
      returns (reply: Reply, ran: Option<(StoreJob, Reply)>)
      requires Valid()
      requires IsListing(listing, AfterWrite(fs.queue, false, now, operationQueue.processTag))
      modifies this`cache, operationQueue`queue, fs`queue, fs`data
      ensures Valid()
      ensures !useFileCache ==>
        reply == Resolved(Bool(true)) && ran.None? && fs.data == old(fs.data) && fs.queue == old(fs.queue)
        && operationQueue.queue == old(operationQueue.queue)
        && cache == (if useMemCache then old(cache)[key := value] else old(cache))
      ensures useFileCache && (key == "" || !queueReady) ==>
        reply.Rejected? && ran.None? && cache == old(cache)
        && fs.data == old(fs.data) && fs.queue == old(fs.queue) && operationQueue.queue == old(operationQueue.queue)
      ensures useFileCache && key != "" && queueReady ==>
        && reply == Queued
        && HeadPass(old(fs.queue), now, listing, ran, fs.queue)
        && FrontRan(old(operationQueue.queue) + [SetJob(key, KeyPath(key).value, value, ttl)], old(fs.data), old(cache), now,
                    ran, operationQueue.queue, fs.data, cache)
    {
      ran := None;
      if useFileCache {
        var path := KeyPath(key);
        if path.None? {
          reply := Rejected("TypeError: path must be a string");
        } else if !queueReady {
          reply := Rejected("TypeError: operationQueue is null");
        } else {
          ran := Submit(SetJob(key, path.value, value, ttl), now, listing);
          reply := Queued;
        }
      } else {
        if useMemCache {
          cache := cache[key := value];
        }
        reply := Resolved(Bool(true));
      }
    }

    /**
     * `reset(key)`: drops the key from the mirror at once; with the file cache
     * on, queues a delete job (whose promise never settles).
     */
    method Reset(key: string, now: nat, listing: seq<string>) returns (reply: Reply, ran: Option<(StoreJob, Reply)>)
      requires Valid()
      requires IsListing(listing, AfterWrite(fs.queue, false, now, operationQueue.processTag))
      modifies this`cache, operationQueue`queue, fs`queue, fs`data
      ensures Valid()
      ensures useMemCache && ran.None? ==> key !in cache
      ensures !useFileCache ==>
        reply == Resolved(Bool(true)) && ran.None? && fs.data == old(fs.data) && fs.queue == old(fs.queue)
        && operationQueue.queue == old(operationQueue.queue)
        && cache == (if useMemCache then old(cache) - {key} else old(cache))
      ensures useFileCache && (key == "" || !queueReady) ==>
        reply.Rejected? && ran.None?
        && fs.data == old(fs.data) && fs.queue == old(fs.queue) && operationQueue.queue == old(operationQueue.queue)
        && cache == (if useMemCache then old(cache) - {key} else old(cache))
      ensures useFileCache && key != "" && queueReady ==>
        && reply == Queued
        && HeadPass(old(fs.queue), now, listing, ran, fs.queue)
        && FrontRan(old(operationQueue.queue) + [ResetJob(KeyPath(key).value)], old(fs.data),
                    if useMemCache then old(cache) - {key} else old(cache), now,
                    ran, operationQueue.queue, fs.data, cache)
    {
      ran := None;
      if useMemCache && key in cache {
        cache := cache - {key};
      }
      assert cache == if useMemCache then old(cache) - {key} else old(cache);
      if useFileCache {
        var path := KeyPath(key);
        if path.None? {
          reply := Rejected("TypeError: path must be a string");
        } else if !queueReady {
          reply := Rejected("TypeError: operationQueue is null");
        } else {
          ran := Submit(ResetJob(path.value), now, listing);
          reply := Queued;
        }
      } else {
        reply := Resolved(Bool(true));
      }
    }

    /**
     * `append(key, value, {initialValue = []})`: without an options object
     * (undefined or null) destructuring throws and the promise rejects;
     * otherwise only the mirror is touched, and only for a key absent from
     * it; the merged value is stored there and the promise resolves to
     * undefined (written `Null`).
     */
    method Append(key: string, value: Value, options: Option<AppendOptions>) returns (reply: Reply)
      modifies this`cache
      ensures options.None? ==> reply.Rejected? && cache == old(cache)
      ensures options.Some? ==> reply == Resolved(Null)
      ensures options.Some? && useMemCache && key !in old(cache) ==>
        var initial := if options.value.initialValue.Some? then options.value.initialValue.value else Arr([]);
        cache == old(cache)[key := AppendMerge(initial, value)]
      ensures options.Some? && !(useMemCache && key !in old(cache)) ==> cache == old(cache)
    {
      if options.None? {
        reply := Rejected("TypeError: cannot destructure the options of append");
        return;
      }
      if useMemCache {
        if key !in cache {
          var initial := if options.value.initialValue.Some? then options.value.initialValue.value else Arr([]);
          var newValue := AppendMerge(initial, value);
          cache := cache[key := newValue];
        }
      }
      reply := Resolved(Null);
    }
  }

  /** Appending to an absent key with the default initial value stores the one-element array. */
  lemma AppendDefaultIsSingleton(value: Value)
    ensures AppendMerge(Arr([]), value) == Arr([value])
  {
  }

  /** Merging two objects lets the appended object's keys win. */
  lemma AppendObjectsLastWins(initial: map<string, Value>, value: map<string, Value>, k: string)
    requires k in value
    ensures AppendMerge(Obj(initial), Obj(value)) == Obj(initial + value)
    ensures AppendMerge(Obj(initial), Obj(value)).props[k] == value[k]
  {
  }

  /** An object initial value with a string, number or boolean to append stores null. */
  lemma AppendShapeMismatchStoresNull(initial: map<string, Value>, value: Value)
    requires value.Str? || value.Number? || value.Bool?
    ensures AppendMerge(Obj(initial), value) == Null
  {
  }
}
