/**
 * `OperationQueueInFile`: a process's local FIFO of jobs and the
 * marker-file arbitration that lets one job run at a time across processes.
 * The job type is a parameter: the queue hands a dequeued job back to its
 * caller, which runs it (`processJobQueue` calls the stored callback at that point).
 */
module OperationQueue {
  import opened JsValues
  import opened QueueMarker
  import opened Disk
  import opened Liveness

  /** What `enqueue` is given: a function (carrying the job it stands for) or any other value. */
  datatype Callback<T> = Function(job: T) | NotAFunction

  /** The queue directory after a pass's first step: a non-notification pass adds `<now>-<tag>`. */
  function AfterWrite(markers: set<string>, fromNotification: bool, now: nat, processTag: string): (r: set<string>)
    ensures fromNotification ==> r == markers
    ensures !fromNotification ==> r - markers <= {MarkerName(now, processTag)} && MarkerName(now, processTag) in r
    ensures markers <= r
  {
    if fromNotification then markers else markers + {MarkerName(now, processTag)}
  }

  /** The parsed marker the scan selects from a listing, none for an empty listing. */
  function HeadOf(listing: seq<string>): (r: Option<Marker>)
    ensures r.None? <==> listing == []
  {
    if listing == [] then None
    else Some(ParseProcQueueItem(listing[ScanListing(listing).0]))
  }

  class OperationQueueInFile<T> {
    const processTag: string
    const heartbeatTimeout: int
    const fs: Workdir
    /** The local FIFO of callbacks. */
    var queue: seq<T>
    /** The periodic heartbeat timer, if installed; its handle is the time it was installed. */
    var heartbeatInstance: Option<nat>

    constructor (fs: Workdir, processTag: string, heartbeatTimeout: int)
      ensures this.fs == fs && this.processTag == processTag && this.heartbeatTimeout == heartbeatTimeout
      ensures queue == [] && heartbeatInstance == None
    {
      this.fs := fs;
      this.processTag := processTag;
      this.heartbeatTimeout := heartbeatTimeout;
      queue := [];
      heartbeatInstance := None;
    }

    /** `dequeue()`: `shift()` the front job, undefined on an empty queue. */
    method Dequeue() returns (job: Option<T>)
      modifies this`queue
      ensures old(queue) == [] ==> job.None? && queue == []
      ensures old(queue) != [] ==> job == Some(old(queue)[0]) && queue == old(queue)[1..]
    {
      if queue == [] {
        job := None;
      } else {
        job := Some(queue[0]);
        queue := queue[1..];
      }
    }

    /**
     * `processJobQueue({fromNotification})`. `listing` is the queue directory
     * as `readdirSync` returns it after the optional write. If the head marker
     * carries this process's tag, the front job (if any) is dequeued and
     * returned to be run, and the head marker, by its rebuilt name, is
     * deleted; otherwise nothing else changes.
     */
    method ProcessJobQueue(fromNotification: bool, now: nat, listing: seq<string>) returns (ran: Option<T>)
      requires IsListing(listing, AfterWrite(fs.queue, fromNotification, now, processTag))
      modifies this`queue, fs`queue
      ensures var written := AfterWrite(old(fs.queue), fromNotification, now, processTag);
        var head := HeadOf(listing);
        if head.Some? && head.value.processTag == processTag then
          && fs.queue == written - {FileNameOf(head.value)}
          && (old(queue) == [] ==> ran.None? && queue == [])
          && (old(queue) != [] ==> ran == Some(old(queue)[0]) && queue == old(queue)[1..])
        else
          fs.queue == written && queue == old(queue) && ran.None?
    {
      ghost var written := AfterWrite(fs.queue, fromNotification, now, processTag);
      ran := None;
      if !fromNotification {
        fs.queue := fs.queue + {MarkerName(now, processTag)};
      }
      assert fs.queue == written;
      if |listing| > 0 {
        var top := SelectHead(listing);
        var topProc := ParseProcQueueItem(listing[top]);
        assert HeadOf(listing) == Some(topProc);
        if topProc.processTag == processTag {
          var headFile := FileNameOf(topProc);
          if |queue| > 0 {
            ran := Dequeue();
          }
          fs.queue := fs.queue - {headFile};
        }
      }
    }

    /**
     * `enqueue(callback)`: false for a non-function, and nothing changes;
     * otherwise the job joins the tail of the local queue and a
     * non-notification pass runs at once.
     */
    method Enqueue(callback: Callback<T>, now: nat, listing: seq<string>) returns (accepted: bool, ran: Option<T>)
      requires callback.Function? ==> IsListing(listing, AfterWrite(fs.queue, false, now, processTag))
      modifies this`queue, fs`queue
      ensures accepted <==> callback.Function?
      ensures !accepted ==> queue == old(queue) && fs.queue == old(fs.queue) && ran.None?
      ensures accepted ==>
        var pushed := old(queue) + [callback.job];
        var head := HeadOf(listing);
        var written := AfterWrite(old(fs.queue), false, now, processTag);
        if head.Some? && head.value.processTag == processTag then
          ran == Some(pushed[0]) && queue == pushed[1..] && fs.queue == written - {FileNameOf(head.value)}
        else
          ran.None? && queue == pushed && fs.queue == written
    {
      ran := None;
      if callback.NotAFunction? {
        accepted := false;
        return;
      }
      queue := queue + [callback.job];
      ran := ProcessJobQueue(false, now, listing);
      accepted := true;
    }

    /**
     * `healthCheck()`: deletes the dead heartbeats, then every queue marker
     * whose `split('-')[1]` owner is not alive.
     */
    method HealthCheck(now: int, heartbeatListing: seq<string>, queueListing: seq<string>)
      requires IsListing(heartbeatListing, fs.heartbeats.Keys)
      requires IsListing(queueListing, fs.queue)
      modifies fs`heartbeats, fs`queue
      ensures fs.heartbeats == LiveHeartbeats(old(fs.heartbeats), now, heartbeatTimeout)
      ensures fs.queue == set n | n in old(fs.queue) && KeepMarker(AliveProcs(old(fs.heartbeats), now, heartbeatTimeout), n)
    {
      var alive := ClassifyHeartbeats(fs, now, heartbeatTimeout, heartbeatListing);
      PruneMarkers(fs, alive, queueListing);
    }

    /**
     * `heartbeat()`: writes `now` into this process's heartbeat file, runs the
     * health check, and installs the periodic timer only if none exists.
     */
    method Heartbeat(now: nat, heartbeatListing: seq<string>, queueListing: seq<string>) returns (instance: Option<nat>)
      requires IsListing(heartbeatListing, fs.heartbeats.Keys + {processTag})
      requires IsListing(queueListing, fs.queue)
      modifies this`heartbeatInstance, fs`heartbeats, fs`queue
      ensures var written := old(fs.heartbeats)[processTag := ShowNat(now)];
        && fs.heartbeats == LiveHeartbeats(written, now, heartbeatTimeout)
        && fs.queue == set n | n in old(fs.queue) && KeepMarker(AliveProcs(written, now, heartbeatTimeout), n)
      ensures old(heartbeatInstance).Some? ==> heartbeatInstance == old(heartbeatInstance)
      ensures old(heartbeatInstance).None? ==> heartbeatInstance == Some(now)
      ensures instance == heartbeatInstance
    {
      fs.heartbeats := fs.heartbeats[processTag := ShowNat(now)];
      HealthCheck(now, heartbeatListing, queueListing);
      if heartbeatInstance.None? {
        heartbeatInstance := Some(now);
      }
      instance := heartbeatInstance;
    }

    /**
     * `init()`: heartbeats and resolves to this process's tag (the directory
     * watcher and the start-up delay are not modelled).
     */
    method Init(now: nat, heartbeatListing: seq<string>, queueListing: seq<string>) returns (tag: string)
      requires IsListing(heartbeatListing, fs.heartbeats.Keys + {processTag})
      requires IsListing(queueListing, fs.queue)
      modifies this`heartbeatInstance, fs`heartbeats, fs`queue
      ensures var written := old(fs.heartbeats)[processTag := ShowNat(now)];
        && fs.heartbeats == LiveHeartbeats(written, now, heartbeatTimeout)
        && fs.queue == set n | n in old(fs.queue) && KeepMarker(AliveProcs(written, now, heartbeatTimeout), n)
      ensures heartbeatInstance == (if old(heartbeatInstance).Some? then old(heartbeatInstance) else Some(now))
      ensures tag == processTag
    {
      var _ := Heartbeat(now, heartbeatListing, queueListing);
      tag := processTag;
    }
  }

  /** The marker a process deletes after its own fresh marker wins is exactly the one it wrote. */
  lemma OwnFreshHeadDeletesOwnMarker(now: nat, processTag: string, listing: seq<string>)
    requires HeadOf(listing) == Some(ParseProcQueueItem(MarkerName(now, processTag)))
    ensures HeadOf(listing).value.processTag == processTag
    ensures FileNameOf(HeadOf(listing).value) == MarkerName(now, processTag)
  {
    ParseMarkerName(now, processTag);
  }

  /**
   * Any marker written by the protocol, once at the head, is deleted under
   * its own name: rebuilding `${timestamp}-${processTag}` gives it back.
   */
  lemma HeadFileNameIsListed(listing: seq<string>)
    requires listing != []
    requires forall i :: 0 <= i < |listing| ==> exists n: nat, t: string :: listing[i] == MarkerName(n, t)
    ensures FileNameOf(HeadOf(listing).value) in listing
  {
    var k := ScanListing(listing).0;
    var n: nat, t: string :| listing[k] == MarkerName(n, t);
    ParseMarkerName(n, t);
  }
}
