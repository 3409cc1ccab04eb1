/**
 * Queue marker file names `<timestamp>-<processTag>`: how they are built,
 * parsed (`parseProcQueueItem`), how the health check reads their owner
 * (`split('-')[1]`), and how the head of the queue is chosen.
 */
module QueueMarker {
  import opened JsValues

  /** `s.indexOf(c)`: the first position of `c`, or -1. */
  function IndexOf(s: string, c: char): (i: int)
    ensures -1 <= i < |s|
    ensures i == -1 <==> c !in s
    ensures i >= 0 ==> s[i] == c && c !in s[..i]
  {
    if s == [] then -1
    else if s[0] == c then 0
    else
      var j := IndexOf(s[1..], c);
      if j == -1 then -1
      else
        assert s[..j + 1] == [s[0]] + s[1..][..j];
        j + 1
  }

  datatype Marker = Marker(timestamp: Num, processTag: string)

  /**
   * `parseProcQueueItem(name)`. The empty name gives (NaN, ""). Otherwise the
   * timestamp is `Number` of the text before the first `-` and the tag is the
   * text after it; without a `-`, `substr(0, -1)` is empty, so the timestamp
   * is 0 and the tag is the whole name.
   */
  function ParseProcQueueItem(name: string): (m: Marker)
    ensures name == "" ==> m == Marker(NaN, "")
    ensures name != "" && '-' !in name ==> m == Marker(Int(0), name)
    ensures '-' in name ==>
      (exists i :: 0 <= i < |name| && name[i] == '-' && '-' !in name[..i]
        && m == Marker(JsNumber(name[..i]), name[i + 1..]))
  {
    if name == "" then Marker(NaN, "")
    else
      var i := IndexOf(name, '-');
      Marker(JsNumber(if i < 0 then "" else name[..i]), name[i + 1..])
  }

  /** The name `${now}-${processTag}` a process gives the marker it writes. */
  function MarkerName(now: nat, processTag: string): string
  {
    ShowNat(now) + "-" + processTag
  }

  /** The name rebuilt from a parsed marker, `${timestamp}-${processTag}`, which the head owner deletes. */
  function FileNameOf(m: Marker): (r: string)
  {
    ShowNum(m.timestamp) + "-" + m.processTag
  }

  lemma IndexOfAfterPrefix(p: string, rest: string, c: char)
    requires c !in p
    ensures IndexOf(p + [c] + rest, c) == |p|
  {
    var s := p + [c] + rest;
    assert s[|p|] == c;
    assert s[..|p|] == p;
  }

  /** In a written marker name the first `-` ends the timestamp text, and the tag follows it. */
  lemma MarkerNameSplitsAtFirstDash(now: nat, processTag: string)
    ensures var name := MarkerName(now, processTag);
      && IndexOf(name, '-') == |ShowNat(now)|
      && name[..|ShowNat(now)|] == ShowNat(now)
      && name[|ShowNat(now)| + 1..] == processTag
  {
    var p := ShowNat(now);
    NumberOfShowNat(now);
    var name := MarkerName(now, processTag);
    assert name == p + ['-'] + processTag;
    IndexOfAfterPrefix(p, processTag, '-');
    assert name[..|p|] == p;
    assert name[|p| + 1..] == processTag;
  }

  /**
   * The name rebuilt from a parsed marker: the written name for a
   * non-negative timestamp, and `NaN-<tag>` for a NaN one.
   */
  lemma FileNameOfParsed(m: Marker)
    ensures m.timestamp.Int? && m.timestamp.v >= 0 ==> FileNameOf(m) == MarkerName(m.timestamp.v, m.processTag)
    ensures m.timestamp.NaN? ==> FileNameOf(m) == "NaN-" + m.processTag
  {
  }

  /** A marker written at time `now` parses back to `now` and the writer's tag, whatever the tag. */
  lemma ParseMarkerName(now: nat, processTag: string)
    ensures ParseProcQueueItem(MarkerName(now, processTag)) == Marker(Int(now), processTag)
    ensures FileNameOf(ParseProcQueueItem(MarkerName(now, processTag))) == MarkerName(now, processTag)
  {
    var p := ShowNat(now);
    NumberOfShowNat(now);
    var name := MarkerName(now, processTag);
    assert name == p + ['-'] + processTag;
    IndexOfAfterPrefix(p, processTag, '-');
    assert name[..|p|] == p;
    assert name[|p| + 1..] == processTag;
  }

  /** The text before the first `-` has no `-`, so a parsed timestamp is NaN or non-negative. */
  lemma TimestampNeverNegative(name: string)
    ensures var t := ParseProcQueueItem(name).timestamp; t.NaN? || t.v >= 0
  {
    if name != "" {
      var i := IndexOf(name, '-');
      var pre := if i < 0 then "" else name[..i];
      assert '-' !in pre;
      NumberWithoutMinus(pre);
    }
  }

  /**
   * `name.split('-')[1]`: the text between the first and the second `-`
   * (to the end when there is no second one), or undefined without a `-`.
   */
  function SplitOwner(name: string): (r: Option<string>)
    ensures r.None? <==> '-' !in name
    ensures r.Some? ==> '-' !in r.value
  {
    var i := IndexOf(name, '-');
    if i < 0 then None
    else
      var rest := name[i + 1..];
      var j := IndexOf(rest, '-');
      Some(if j < 0 then rest else rest[..j])
  }

  /**
   * The two ways of reading a marker's owner agree exactly when the name has a
   * `-` and the tag parsed after the first `-` has no `-` of its own.
   */
  lemma SplitOwnerAgreesWithParse(name: string)
    ensures SplitOwner(name) == Some(ParseProcQueueItem(name).processTag)
        <==> '-' in name && '-' !in ParseProcQueueItem(name).processTag
  {
    if '-' in name {
      var i := IndexOf(name, '-');
      var rest := name[i + 1..];
      assert ParseProcQueueItem(name).processTag == rest;
      var j := IndexOf(rest, '-');
      if j >= 0 {
        assert |rest[..j]| < |rest|;
      }
    }
  }

  /** For a tag without `-`, the health check finds the owner the writer meant. */
  lemma OwnerOfMarkerName(now: nat, processTag: string)
    requires '-' !in processTag
    ensures SplitOwner(MarkerName(now, processTag)) == Some(processTag)
  {
    ParseMarkerName(now, processTag);
    SplitOwnerAgreesWithParse(MarkerName(now, processTag));
  }

  /** After a dash-free prefix and a `-`, `split('-')[1]` reads the tag up to its own first `-`. */
  lemma SplitOwnerAfterPrefix(p: string, tag: string)
    requires '-' !in p
    ensures var j := IndexOf(tag, '-');
      SplitOwner(p + ['-'] + tag) == Some(if j < 0 then tag else tag[..j])
  {
    var name := p + ['-'] + tag;
    IndexOfAfterPrefix(p, tag, '-');
    assert name[|p| + 1..] == tag;
  }

  /** After any dash-free prefix and a `-`, `split('-')[1]` of the tag `a-b` is `a`. */
  lemma SplitOwnerOfDashedTag(p: string)
    requires '-' !in p
    ensures SplitOwner(p + ['-'] + "a-b") == Some("a")
  {
    SplitOwnerAfterPrefix(p, "a-b");
    IndexOfAfterPrefix("a", "b", '-');
    assert "a" + ['-'] + "b" == "a-b";
    assert "a-b"[..1] == "a";
  }

  /** For the tag `a-b` the health check reads the owner as `a`. */
  lemma DashedTagMisread(now: nat)
    ensures ParseProcQueueItem(MarkerName(now, "a-b")).processTag == "a-b"
    ensures SplitOwner(MarkerName(now, "a-b")) == Some("a")
  {
    ParseMarkerName(now, "a-b");
    NumberOfShowNat(now);
    SplitOwnerOfDashedTag(ShowNat(now));
    assert MarkerName(now, "a-b") == ShowNat(now) + ['-'] + "a-b";
  }

  // ----- Head selection -----

  function Timestamp(name: string): Num
  {
    ParseProcQueueItem(name).timestamp
  }

  /** The parsed timestamps of a directory listing, in listing order. */
  function Timestamps(names: seq<string>): (ts: seq<Num>)
    ensures |ts| == |names|
    ensures forall i :: 0 <= i < |names| ==> ts[i] == Timestamp(names[i])
  {
    seq(|names|, i requires 0 <= i < |names| => Timestamp(names[i]))
  }

  /**
   * The (top, min) pair after the head search of `processJobQueue` over the timestamps `ts`:
   * starting from (0, -1), an entry replaces the current one when `min < 0`
   * or its timestamp is `< min` (JavaScript comparisons, false against NaN).
   */
  function Scan(ts: seq<Num>): (r: (nat, Num))
    ensures ts != [] ==> r.0 < |ts| && r.1 == ts[r.0]
  {
    if ts == [] then (0, Int(-1))
    else
      var prev := Scan(ts[..|ts| - 1]);
      var x := ts[|ts| - 1];
      if Less(prev.1, Int(0)) || Less(x, prev.1) then (|ts| - 1, x) else prev
  }

  predicate AllNonNegative(ts: seq<Num>)
  {
    forall i :: 0 <= i < |ts| ==> ts[i].Int? && ts[i].v >= 0
  }

  /**
   * When every timestamp is a non-negative number, the scan stops on the
   * first minimum: nothing is smaller, and everything before it is larger.
   */
  lemma {:induction false} ScanFindsFirstMinimum(ts: seq<Num>)
    requires ts != [] && AllNonNegative(ts)
    ensures var top := Scan(ts).0;
      (forall j :: 0 <= j < |ts| ==> ts[top].v <= ts[j].v)
      && (forall j :: 0 <= j < top ==> ts[j].v > ts[top].v)
  {
    var n := |ts|;
    if n > 1 {
      var init := ts[..n - 1];
      assert forall j :: 0 <= j < n - 1 ==> init[j] == ts[j];
      ScanFindsFirstMinimum(init);
      var prev := Scan(init);
      assert prev.1 == ts[prev.0] && !Less(prev.1, Int(0));
      if Less(ts[n - 1], prev.1) {
        assert Scan(ts).0 == n - 1;
      } else {
        assert Scan(ts) == prev;
      }
    }
  }

  /** A NaN timestamp listed first wins every scan: nothing compares below NaN. */
  lemma {:induction false} NaNFirstWins(ts: seq<Num>)
    requires ts != [] && ts[0].NaN?
    ensures Scan(ts).0 == 0
  {
    if |ts| > 1 {
      var init := ts[..|ts| - 1];
      assert init[0] == ts[0];
      NaNFirstWins(init);
    }
  }

  /** Markers name their timestamps before the first `-`, so none is negative. */
  lemma TimestampsNonNegative(names: seq<string>)
    requires forall i :: 0 <= i < |names| ==> Timestamp(names[i]).Int?
    ensures AllNonNegative(Timestamps(names))
  {
    forall i | 0 <= i < |names|
      ensures Timestamp(names[i]).v >= 0
    {
      TimestampNeverNegative(names[i]);
    }
  }

  /**
   * The same scan, read off the listing directly: the pair that head search holds
   * after visiting `names`. It agrees with `Scan` over the parsed timestamps.
   */
  function ScanListing(names: seq<string>): (r: (nat, Num))
    ensures names != [] ==> r.0 < |names|
    ensures names != [] ==> r.1 == Timestamp(names[r.0])
  {
    if names == [] then (0, Int(-1))
    else
      var init := names[..|names| - 1];
      var prev := ScanListing(init);
      var x := Timestamp(names[|names| - 1]);
      if Less(prev.1, Int(0)) || Less(x, prev.1) then (|names| - 1, x)
      else
        assert init != [] by { assert Less(Int(-1), Int(0)); }
        assert init[prev.0] == names[prev.0];
        prev
  }

  lemma {:induction false} ScanListingAgrees(names: seq<string>)
    ensures ScanListing(names) == Scan(Timestamps(names))
  {
    if names != [] {
      var n := |names|;
      var init := names[..n - 1];
      var ts := Timestamps(names);
      ScanListingAgrees(init);
      assert ts[..n - 1] == Timestamps(init);
      assert ts[n - 1] == Timestamp(names[n - 1]);
      assert Scan(ts[..n - 1]) == ScanListing(init);
    }
  }

  /** One more marker of the scan: it replaces the current one exactly on the head search's condition. */
  lemma ScanStep(names: seq<string>, i: nat)
    requires i < |names|
    ensures var prev := ScanListing(names[..i]);
      var x := Timestamp(names[i]);
      ScanListing(names[..i + 1]) == if Less(prev.1, Int(0)) || Less(x, prev.1) then (i, x) else prev
  {
    assert names[..i + 1][..i] == names[..i];
  }

  /**
   * With numeric timestamps, the scan over a listing selects the first
   * marker of minimum timestamp.
   */
  lemma HeadIsFirstMinimum(names: seq<string>)
    requires names != [] && forall i :: 0 <= i < |names| ==> Timestamp(names[i]).Int?
    ensures var top := ScanListing(names).0;
      && (forall j :: 0 <= j < |names| ==> Timestamp(names[top]).v <= Timestamp(names[j]).v)
      && (forall j :: 0 <= j < top ==> Timestamp(names[j]).v > Timestamp(names[top]).v)
  {
    var ts := Timestamps(names);
    TimestampsNonNegative(names);
    ScanFindsFirstMinimum(ts);
    ScanListingAgrees(names);
    var top := ScanListing(names).0;
    assert top == Scan(ts).0;
    forall j | 0 <= j < |names|
      ensures Timestamp(names[top]).v <= Timestamp(names[j]).v
    {
      assert ts[top].v <= ts[j].v;
    }
    forall j | 0 <= j < top
      ensures Timestamp(names[j]).v > Timestamp(names[top]).v
    {
      assert ts[j].v > ts[top].v;
    }
  }

  /**
   * The min-search of `processJobQueue` over a queue directory listing, with `top` and
   * `min` updated in place. With numeric timestamps the result is the first
   * marker of minimum timestamp.
   */
  method SelectHead(names: seq<string>) returns (top: nat)
    ensures top == ScanListing(names).0
    ensures names != [] ==> top < |names|
    ensures names != [] && (forall i :: 0 <= i < |names| ==> Timestamp(names[i]).Int?) ==>
      (forall j :: 0 <= j < |names| ==> Timestamp(names[top]).v <= Timestamp(names[j]).v)
      && (forall j :: 0 <= j < top ==> Timestamp(names[j]).v > Timestamp(names[top]).v)
  {
    top := 0;
    var min := Int(-1);
    var i := 0;
    while i < |names|
      invariant 0 <= i <= |names|
      invariant (top, min) == ScanListing(names[..i])
    {
      var t := ParseProcQueueItem(names[i]).timestamp;
      ScanStep(names, i);
      if Less(min, Int(0)) || Less(t, min) {
        min := t;
        top := i;
      }
      i := i + 1;
    }
    assert names[..|names|] == names;
    if names != [] && (forall i :: 0 <= i < |names| ==> Timestamp(names[i]).Int?) {
      HeadIsFirstMinimum(names);
    }
  }
}
