/**
 * The shared work directory, as the three sub-directories the processes read
 * and write: `proc/` (heartbeat files), `queue/` (queue markers) and `data/`
 * (one JSON file per cache key).
 */
module Disk {
  import opened JsValues

  /** The JSON content of a data file: `{arriveAt, data, ttl?, processTag?}`. */
  datatype Entry = Entry(arriveAt: int, data: Value, ttl: Option<Value>, processTag: Option<string>)

  class Workdir {
    /** `proc/<processTag>` files and their text content (a timestamp). */
    var heartbeats: map<string, string>
    /** `queue/<timestamp>-<processTag>` file names (their content is always "1"). */
    var queue: set<string>
    /** `data/<escaped key>` files and their parsed content. */
    var data: map<string, Entry>

    constructor ()
      ensures heartbeats == map[] && queue == {} && data == map[]
    {
      heartbeats := map[];
      queue := {};
      data := map[];
    }
  }

  /** `listing` is what `readdirSync` returns for a directory holding `names`: each name once, in some order. */
  ghost predicate IsListing(listing: seq<string>, names: set<string>)
  {
    && (forall i, j :: 0 <= i < j < |listing| ==> listing[i] != listing[j])
    && (forall n :: n in listing <==> n in names)
  }

  /**
   * A loop that deletes the names of `bad` it visits: visiting one more name
   * deletes it exactly when it is in `bad`.
   */
  lemma DeleteVisitedStep<V>(d0: map<string, V>, done: set<string>, bad: set<string>, name: string)
    ensures d0 - ((done + {name}) * bad) ==
      if name in bad then (d0 - (done * bad)) - {name} else d0 - (done * bad)
  {
  }
}
