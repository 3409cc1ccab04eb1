/**
 * Escaping of cache keys into file names (`safeKey`) and the partial reverse
 * mapping (`originalKey`). Both are chains of global, left-to-right,
 * non-overlapping string replacements, modelled literally. Their meaning is
 * established through `Expand`, which rewrites a key character by character
 * into the block each character has become after a given number of passes.
 */
module KeyEscape {
  import opened JsValues

  /** `s.replace(/pat/g, rep)` for a literal, non-empty pattern. */
  function ReplaceAll(s: string, pat: string, rep: string): (r: string)
    requires |pat| > 0
    decreases |s|
  {
    if s == [] then []
    else if |pat| <= |s| && s[..|pat|] == pat then rep + ReplaceAll(s[|pat|..], pat, rep)
    else [s[0]] + ReplaceAll(s[1..], pat, rep)
  }

  /** The four characters a file name must not contain. */
  predicate Reserved(c: char)
  {
    c == '/' || c == '#' || c == '&' || c == ' '
  }

  /** The characters the sentinels are made of. */
  predicate SentinelChar(c: char)
  {
    c == '|' || c == '_' || c == ':' || c == '@'
  }

  /** `safeKey(key)`: null for the empty key, otherwise the four replacements in the order `safeKey` applies them. */
  function SafeKey(key: string): (r: Option<string>)
    ensures r.None? <==> key == ""
  {
    if key == "" then None
    else Some(ReplaceAll(ReplaceAll(ReplaceAll(ReplaceAll(key, "/", "|||"), "#", "___"), "&", ":::"), " ", "@@@"))
  }

  /** `originalKey(name)`: null for the empty name, otherwise the four reverse replacements in the order `originalKey` applies them. */
  function OriginalKey(name: string): (r: Option<string>)
    ensures r.None? <==> name == ""
  {
    if name == "" then None
    else Some(ReplaceAll(ReplaceAll(ReplaceAll(ReplaceAll(name, "___", "#"), "|||", "\\"), ":::", "&"), "@@@", " "))
  }

  // ----- The passes, numbered 0..7: four of safeKey, then four of originalKey -----

  function Pat(n: nat): (p: string)
    requires n < 8
    ensures |p| > 0
  {
    match n
    case 0 => "/" case 1 => "#" case 2 => "&" case 3 => " "
    case 4 => "___" case 5 => "|||" case 6 => ":::" case _ => "@@@"
  }

  function Rep(n: nat): string
    requires n < 8
  {
    match n
    case 0 => "|||" case 1 => "___" case 2 => ":::" case 3 => "@@@"
    case 4 => "#" case 5 => "\\" case 6 => "&" case _ => " "
  }

  /** The block a character of the key has become after the first `n` passes. */
  function Stage(n: nat, c: char): string
  {
    if c == '/' then (if n == 0 then "/" else if n <= 5 then "|||" else "\\")
    else if c == '#' then (if n <= 1 then "#" else if n <= 4 then "___" else "#")
    else if c == '&' then (if n <= 2 then "&" else if n <= 6 then ":::" else "&")
    else if c == ' ' then (if n <= 3 then " " else if n <= 7 then "@@@" else " ")
    else [c]
  }

  /** The key after `n` passes, if each pass acted on whole blocks. */
  function Expand(key: string, n: nat): string
  {
    if key == [] then [] else Stage(n, key[0]) + Expand(key[1..], n)
  }

  /** A pass either consumes a block whole or leaves it alone (no match starts inside it). */
  lemma StageStep(n: nat, c: char)
    requires n < 8
    requires n >= 4 ==> !SentinelChar(c)
    ensures (Stage(n, c) == Pat(n) && Stage(n + 1, c) == Rep(n))
         || (Pat(n)[0] !in Stage(n, c) && Stage(n + 1, c) == Stage(n, c))
  {
  }

  lemma {:induction false} ReplaceSkip(b: string, rest: string, pat: string, rep: string)
    requires |pat| > 0 && pat[0] !in b
    ensures ReplaceAll(b + rest, pat, rep) == b + ReplaceAll(rest, pat, rep)
  {
    if b != [] {
      var s := b + rest;
      assert s[0] == b[0] && s[1..] == b[1..] + rest;
      assert s[0] != pat[0];
      assert !(|pat| <= |s| && s[..|pat|] == pat);
      ReplaceSkip(b[1..], rest, pat, rep);
    } else {
      assert b + rest == rest;
    }
  }

  /**
   * The `g` flag: a global replace of a one-character pattern by text
   * without that character leaves no occurrence of it.
   */
  lemma {:induction false} ReplaceAllRemoves(s: string, pat: string, rep: string)
    requires |pat| == 1 && pat[0] !in rep
    ensures pat[0] !in ReplaceAll(s, pat, rep)
    decreases |s|
  {
    if s != [] {
      if s[..1] == pat {
        ReplaceAllRemoves(s[1..], pat, rep);
      } else {
        assert s[0] != pat[0] by { assert s[..1] == [s[0]]; }
        ReplaceAllRemoves(s[1..], pat, rep);
      }
    }
  }

  lemma ReplaceMatch(rest: string, pat: string, rep: string)
    requires |pat| > 0
    ensures ReplaceAll(pat + rest, pat, rep) == rep + ReplaceAll(rest, pat, rep)
  {
    var s := pat + rest;
    assert s[..|pat|] == pat && s[|pat|..] == rest;
  }

  /** Pass `n` applied to the key after `n` passes gives the key after `n + 1` passes. */
  lemma {:induction false} PassStep(key: string, n: nat)
    requires n < 8
    requires n >= 4 ==> forall i :: 0 <= i < |key| ==> !SentinelChar(key[i])
    ensures ReplaceAll(Expand(key, n), Pat(n), Rep(n)) == Expand(key, n + 1)
  {
    if key != [] {
      var b, rest := Stage(n, key[0]), Expand(key[1..], n);
      StageStep(n, key[0]);
      PassStep(key[1..], n);
      if b == Pat(n) && Stage(n + 1, key[0]) == Rep(n) {
        ReplaceMatch(rest, Pat(n), Rep(n));
      } else {
        ReplaceSkip(b, rest, Pat(n), Rep(n));
      }
    }
  }

  lemma {:induction false} ExpandZero(key: string)
    ensures Expand(key, 0) == key
  {
    if key != [] {
      ExpandZero(key[1..]);
      assert key == [key[0]] + key[1..];
    }
  }

  /** The key has none of the sentinel characters. */
  predicate NoSentinel(key: string)
  {
    forall i :: 0 <= i < |key| ==> !SentinelChar(key[i])
  }

  /** Pass `n` in its literal spelling, as `safeKey` and `originalKey` write it. */
  lemma LiteralPass(key: string, n: nat, pat: string, rep: string)
    requires n < 8 && pat == Pat(n) && rep == Rep(n)
    requires n >= 4 ==> NoSentinel(key)
    ensures |pat| > 0
    ensures ReplaceAll(Expand(key, n), pat, rep) == Expand(key, n + 1)
  {
    PassStep(key, n);
  }

  /** safeKey is the per-character escape: each reserved character becomes its sentinel. */
  lemma SafeKeyIsExpand(key: string)
    requires key != ""
    ensures SafeKey(key) == Some(Expand(key, 4))
  {
    ExpandZero(key);
    LiteralPass(key, 0, "/", "|||");
    var e1 := ReplaceAll(key, "/", "|||");
    assert e1 == Expand(key, 1);
    LiteralPass(key, 1, "#", "___");
    var e2 := ReplaceAll(e1, "#", "___");
    assert e2 == Expand(key, 2);
    LiteralPass(key, 2, "&", ":::");
    var e3 := ReplaceAll(e2, "&", ":::");
    assert e3 == Expand(key, 3);
    LiteralPass(key, 3, " ", "@@@");
    var e4 := ReplaceAll(e3, " ", "@@@");
    assert e4 == Expand(key, 4);
  }

  lemma {:induction false} ExpandFourHasNoReserved(key: string)
    ensures forall i :: 0 <= i < |Expand(key, 4)| ==> !Reserved(Expand(key, 4)[i])
  {
    if key != [] {
      ExpandFourHasNoReserved(key[1..]);
      var b, rest := Stage(4, key[0]), Expand(key[1..], 4);
      forall i | 0 <= i < |b + rest|
        ensures !Reserved((b + rest)[i])
      {
        if i >= |b| {
          assert (b + rest)[i] == rest[i - |b|];
        }
      }
    }
  }

  /** safeKey never yields a name containing `/`, `#`, `&` or a space. */
  lemma SafeKeyHasNoReserved(key: string)
    requires key != ""
    ensures SafeKey(key).Some?
    ensures forall i :: 0 <= i < |SafeKey(key).value| ==> !Reserved(SafeKey(key).value[i])
  {
    SafeKeyIsExpand(key);
    ExpandFourHasNoReserved(key);
  }

  lemma {:induction false} ExpandFourIdentity(key: string)
    requires forall i :: 0 <= i < |key| ==> !Reserved(key[i])
    ensures Expand(key, 4) == key
  {
    if key != [] {
      ExpandFourIdentity(key[1..]);
      assert key == [key[0]] + key[1..];
    }
  }

  /** A key with none of the four reserved characters is its own file name. */
  lemma SafeKeyIdentity(key: string)
    requires key != ""
    requires forall i :: 0 <= i < |key| ==> !Reserved(key[i])
    ensures SafeKey(key) == Some(key)
  {
    SafeKeyIsExpand(key);
    ExpandFourIdentity(key);
  }

  /** The key `originalKey(safeKey(key))` gives back: every `/` has turned into `\`. */
  lemma {:induction false} ExpandEight(key: string)
    ensures |Expand(key, 8)| == |key|
    ensures forall i :: 0 <= i < |key| ==> Expand(key, 8)[i] == (if key[i] == '/' then '\\' else key[i])
  {
    if key != [] {
      ExpandEight(key[1..]);
      var b, rest := Stage(8, key[0]), Expand(key[1..], 8);
      assert |b| == 1;
      forall i | 0 <= i < |key|
        ensures (b + rest)[i] == (if key[i] == '/' then '\\' else key[i])
      {
        if i > 0 {
          assert (b + rest)[i] == rest[i - 1] && key[i] == key[1..][i - 1];
        }
      }
    }
  }

  /** The four passes of originalKey, applied to an escaped sentinel-free key, act block by block. */
  lemma OriginalKeyOfExpand(key: string)
    requires key != ""
    requires forall i :: 0 <= i < |key| ==> !SentinelChar(key[i])
    ensures OriginalKey(Expand(key, 4)) == Some(Expand(key, 8))
  {
    assert NoSentinel(key);
    assert Stage(4, key[0]) != "";
    LiteralPass(key, 4, "___", "#");
    LiteralPass(key, 5, "|||", "\\");
    LiteralPass(key, 6, ":::", "&");
    LiteralPass(key, 7, "@@@", " ");
  }

  /**
   * Round trip: for a key free of the sentinel characters `_ | : @`,
   * decoding its file name restores it, except that each `/` comes back as `\`.
   */
  lemma OriginalKeyOfSafeKey(key: string)
    requires key != ""
    requires forall i :: 0 <= i < |key| ==> !SentinelChar(key[i])
    ensures SafeKey(key).Some?
    ensures OriginalKey(SafeKey(key).value).Some?
    ensures |OriginalKey(SafeKey(key).value).value| == |key|
    ensures forall i :: 0 <= i < |key| ==>
      OriginalKey(SafeKey(key).value).value[i] == (if key[i] == '/' then '\\' else key[i])
  {
    SafeKeyIsExpand(key);
    OriginalKeyOfExpand(key);
    ExpandEight(key);
  }

  /** Keys with neither a slash nor a sentinel character round-trip exactly. */
  lemma OriginalKeyOfSafeKeyExact(key: string)
    requires key != ""
    requires forall i :: 0 <= i < |key| ==> !SentinelChar(key[i]) && key[i] != '/'
    ensures OriginalKey(SafeKey(key).value) == Some(key)
  {
    OriginalKeyOfSafeKey(key);
    var back := OriginalKey(SafeKey(key).value).value;
    assert back == key;
  }

  /** The decoder is not an inverse: the key `a/b` comes back as `a\\b`. */
  lemma SlashComesBackAsBackslash()
    ensures SafeKey("a/b") == Some("a|||b")
    ensures OriginalKey("a|||b") == Some("a\\b")
  {
    var key := "a/b";
    assert key[1..] == "/b" && key[1..][1..] == "b" && key[1..][1..][1..] == "";
    assert Expand(key, 4) == "a|||b" by {
      assert Expand("b", 4) == "b";
      assert Expand("/b", 4) == "|||b";
    }
    assert Expand(key, 8) == "a\\b" by {
      assert Expand("b", 8) == "b";
      assert Expand("/b", 8) == "\\b";
    }
    SafeKeyIsExpand(key);
    OriginalKeyOfExpand(key);
  }

  /** The encoder is not injective: two different keys are stored in the same data file. */
  lemma DistinctKeysShareAFile()
    ensures "a/b" != "a|||b"
    ensures SafeKey("a/b") == SafeKey("a|||b")
  {
    SlashComesBackAsBackslash();
    SafeKeyIdentity("a|||b");
  }

  /** The decoder is not an inverse: the key `___` is its own file name but decodes to `#`. */
  lemma UnderscoresDecodeToHash()
    ensures SafeKey("___") == Some("___")
    ensures OriginalKey("___") == Some("#")
  {
    SafeKeyIdentity("___");
    ReplaceMatch("", "___", "#");
    assert "___" + "" == "___";
    var d1 := ReplaceAll("___", "___", "#");
    assert d1 == "#";
    ReplaceSkip("#", "", "|||", "\\");
    ReplaceSkip("#", "", ":::", "&");
    ReplaceSkip("#", "", "@@@", " ");
    assert "#" + "" == "#";
  }
}
