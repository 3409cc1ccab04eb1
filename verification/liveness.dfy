/**
 * The liveness part of `healthCheck`, shared by both queue implementations:
 * classify heartbeats into alive and dead (deleting the dead ones) and delete
 * the queue markers whose owner is not alive.
 */
module Liveness {
  import opened JsValues
  import opened QueueMarker
  import opened Disk

  /** A heartbeat is alive when `now - Number(content) < heartbeatTimeout`; NaN content is dead. */
  predicate IsAlive(now: int, content: string, heartbeatTimeout: int)
    ensures IsAlive(now, content, heartbeatTimeout) ==> JsNumber(content).Int?
    ensures heartbeatTimeout <= 0 && JsNumber(content).Int? && JsNumber(content).v <= now ==> !IsAlive(now, content, heartbeatTimeout)
  {
    var ts := JsNumber(content);
    ts.Int? && now - ts.v < heartbeatTimeout
  }

  /** A heartbeat written at `now` and read at `now` is alive exactly when the timeout is positive. */
  lemma FreshHeartbeatIsAlive(now: nat, heartbeatTimeout: int)
    ensures IsAlive(now, ShowNat(now), heartbeatTimeout) <==> heartbeatTimeout > 0
  {
    NumberOfShowNat(now);
  }

  /** The heartbeat files the health check leaves in place. */
  function LiveHeartbeats(hb: map<string, string>, now: int, heartbeatTimeout: int): (r: map<string, string>)
    ensures forall t :: t in r <==> t in hb && IsAlive(now, hb[t], heartbeatTimeout)
    ensures forall t :: t in r ==> r[t] == hb[t]
  {
    map t | t in hb && IsAlive(now, hb[t], heartbeatTimeout) :: hb[t]
  }

  /** The `aliveprocs` dictionary: each alive tag with its heartbeat timestamp. */
  function AliveProcs(hb: map<string, string>, now: int, heartbeatTimeout: int): (r: map<string, int>)
    ensures r.Keys == LiveHeartbeats(hb, now, heartbeatTimeout).Keys
  {
    map t | t in hb && IsAlive(now, hb[t], heartbeatTimeout) :: JsNumber(hb[t]).v
  }

  /** `aliveprocs[key]` is truthy: present, with a timestamp other than 0. */
  predicate Truthy(alive: map<string, int>, key: string)
    ensures key !in alive ==> !Truthy(alive, key)
    ensures Truthy(alive, key) ==> alive[key] != 0
  {
    key in alive && alive[key] != 0
  }

  /** The property name JavaScript uses for a possibly undefined owner tag. */
  function OwnerKey(owner: Option<string>): (r: string)
    ensures r == "undefined" <==> owner.None? || owner.value == "undefined"
  {
    if owner.None? then "undefined" else owner.value
  }

  /** A marker survives the health check when the `split('-')[1]` owner is alive. */
  predicate KeepMarker(alive: map<string, int>, name: string)
    ensures KeepMarker(alive, name) ==> '-' in name || Truthy(alive, "undefined")
  {
    Truthy(alive, OwnerKey(SplitOwner(name)))
  }

  /** The heartbeats the health check deletes. */
  function DeadTags(hb: map<string, string>, now: int, heartbeatTimeout: int): (r: set<string>)
    ensures forall t :: t in r <==> t in hb && !IsAlive(now, hb[t], heartbeatTimeout)
  {
    set t | t in hb && !IsAlive(now, hb[t], heartbeatTimeout)
  }

  /** Classifying one more tag adds it to `aliveprocs` exactly when it is alive. */
  lemma AliveProcsStep(hb: map<string, string>, done: set<string>, tag: string, now: int, heartbeatTimeout: int)
    requires tag in hb
    ensures var before := AliveProcs(hb - (hb.Keys - done), now, heartbeatTimeout);
      AliveProcs(hb - (hb.Keys - (done + {tag})), now, heartbeatTimeout) ==
        if IsAlive(now, hb[tag], heartbeatTimeout) then before[tag := JsNumber(hb[tag]).v] else before
  {
    var before := hb - (hb.Keys - done);
    var after := hb - (hb.Keys - (done + {tag}));
    assert after == before[tag := hb[tag]];
  }

  /** The live heartbeats are those left after deleting the dead ones. */
  lemma LiveIsMinusDead(hb: map<string, string>, now: int, heartbeatTimeout: int)
    ensures LiveHeartbeats(hb, now, heartbeatTimeout) == hb - (hb.Keys * DeadTags(hb, now, heartbeatTimeout))
  {
  }

  /**
   * The heartbeat loop of `healthCheck`: reads each listed heartbeat, records
   * the alive ones in `aliveprocs` and deletes the others.
   */
  method ClassifyHeartbeats(fs: Workdir, now: int, heartbeatTimeout: int, listing: seq<string>)
    returns (alive: map<string, int>)
    requires IsListing(listing, fs.heartbeats.Keys)
    modifies fs`heartbeats
    ensures alive == AliveProcs(old(fs.heartbeats), now, heartbeatTimeout)
    ensures fs.heartbeats == LiveHeartbeats(old(fs.heartbeats), now, heartbeatTimeout)
  {
    ghost var hb0 := fs.heartbeats;
    ghost var dead := DeadTags(hb0, now, heartbeatTimeout);
    ghost var done: set<string> := {};
    alive := map[];
    assert hb0 - (hb0.Keys - done) == map[];
    var i := 0;
    while i < |listing|
      invariant 0 <= i <= |listing|
      invariant forall t :: t in done <==> t in listing[..i]
      invariant fs.heartbeats == hb0 - (done * dead)
      invariant alive == AliveProcs(hb0 - (hb0.Keys - done), now, heartbeatTimeout)
    {
      var tag := listing[i];
      assert tag !in done by {
        forall k | 0 <= k < i ensures listing[k] != tag { }
      }
      assert listing[..i + 1] == listing[..i] + [tag];
      ghost var prev := done;
      var content := fs.heartbeats[tag];
      if IsAlive(now, content, heartbeatTimeout) {
        alive := alive[tag := JsNumber(content).v];
      } else {
        fs.heartbeats := fs.heartbeats - {tag};
      }
      done := done + {tag};
      assert fs.heartbeats == hb0 - (done * dead) by {
        DeleteVisitedStep(hb0, prev, dead, tag);
      }
      assert alive == AliveProcs(hb0 - (hb0.Keys - done), now, heartbeatTimeout) by {
        AliveProcsStep(hb0, prev, tag, now, heartbeatTimeout);
      }
      i := i + 1;
    }
    assert done == hb0.Keys by {
      assert listing[..|listing|] == listing;
    }
    assert hb0 - (hb0.Keys - done) == hb0;
    LiveIsMinusDead(hb0, now, heartbeatTimeout);
  }

  /** The queue loop of `healthCheck`: deletes every listed marker whose owner is not alive. */
  method PruneMarkers(fs: Workdir, alive: map<string, int>, listing: seq<string>)
    requires IsListing(listing, fs.queue)
    modifies fs`queue
    ensures fs.queue == set n | n in old(fs.queue) && KeepMarker(alive, n)
  {
    var i := 0;
    while i < |listing|
      invariant 0 <= i <= |listing|
      invariant forall n :: n in fs.queue <==> n in old(fs.queue) && (n in listing[..i] ==> KeepMarker(alive, n))
    {
      var name := listing[i];
      assert listing[..i + 1] == listing[..i] + [name];
      if !Truthy(alive, OwnerKey(SplitOwner(name))) {
        fs.queue := fs.queue - {name};
      }
      i := i + 1;
    }
    assert listing[..|listing|] == listing;
  }

  /**
   * A process that has just written its heartbeat at `now` (with `now > 0` and
   * a positive timeout) is alive, so its own markers survive the health check,
   * provided its tag has no `-`.
   */
  lemma OwnMarkersSurvive(hb: map<string, string>, processTag: string, now: nat, heartbeatTimeout: int, written: nat)
    requires processTag in hb && hb[processTag] == ShowNat(now)
    requires now > 0 && heartbeatTimeout > 0
    requires '-' !in processTag
    ensures KeepMarker(AliveProcs(hb, now, heartbeatTimeout), MarkerName(written, processTag))
  {
    NumberOfShowNat(now);
    OwnerOfMarkerName(written, processTag);
    assert IsAlive(now, hb[processTag], heartbeatTimeout);
  }

  /** A marker whose owner has no heartbeat file at all is always deleted. */
  lemma MarkerOfVanishedOwnerPruned(hb: map<string, string>, now: int, heartbeatTimeout: int, written: nat, processTag: string)
    requires processTag !in hb && '-' !in processTag
    ensures !KeepMarker(AliveProcs(hb, now, heartbeatTimeout), MarkerName(written, processTag))
  {
    OwnerOfMarkerName(written, processTag);
  }
}
