/**
 * Locating the JSON object inside a model's free-text reply: remove Markdown code-fence
 * markers, trim, and take the slice from the first `{` to the last `}`. The JSON decoder
 * itself is a collaborator, passed in as a partial function.
 */
module Extraction {
  import opened Wrappers
  import opened Json
  import opened Text

  /** Why no JSON value could be obtained from a reply. */
  datatype ExtractError =
    | NoJsonFound(rawHead: string)   // no `{` or no `}`; carries `raw[:200]` for the message
    | MalformedJson                  // the decoder rejected the window

  /** A decoder in the role of `json.loads`: None where it raises. */
  type Decoder = string -> Option<Json>

  /** Three backticks start at index `i` of `s`. */
  predicate FenceAt(s: string, i: int) {
    0 <= i && i + 3 <= |s| && s[i] == '`' && s[i + 1] == '`' && s[i + 2] == '`'
  }

  predicate NoFence(s: string) {
    forall i :: 0 <= i < |s| ==> !FenceAt(s, i)
  }

  predicate NoBacktick(s: string) {
    '`' !in s
  }

  /**
   * `re.sub(r"```(?:json)?\s*", "", s)`: scanning left to right, each "```" is dropped
   * together with a "json" tag right after it and the whitespace that follows.
   */
  function StripFenceMarkers(s: string): string
    decreases |s|
  {
    if |s| < 3 then s
    else if FenceAt(s, 0) then
      var rest := s[3..];
      var untagged := if |rest| >= 4 && rest[..4] == "json" then rest[4..] else rest;
      StripFenceMarkers(LStrip(untagged))
    else [s[0]] + StripFenceMarkers(s[1..])
  }

  /** `s.replace("```", "")`: non-overlapping occurrences, left to right. */
  function RemoveFences(s: string): string
    decreases |s|
  {
    if |s| < 3 then s
    else if FenceAt(s, 0) then RemoveFences(s[3..])
    else [s[0]] + RemoveFences(s[1..])
  }

  /** The text `_extract_json` searches for braces. */
  function Clean(raw: string): string {
    Strip(RemoveFences(StripFenceMarkers(raw)))
  }

  /**
   * The slice `clean[start:end + 1]` between the first `{` and the last `}` of a cleaned
   * reply, or None when either brace is missing. When the last `}` comes before the first
   * `{`, Python's slice is empty.
   */
  function BraceWindow(clean: string): (r: Option<string>)
    ensures r.Some? <==> '{' in clean && '}' in clean
    ensures r.Some? && r.value != "" ==> r.value[0] == '{' && r.value[|r.value| - 1] == '}'
    ensures r.Some? && r.value != "" ==>
      exists i, j :: 0 <= i <= j < |clean| && clean[i] == '{' && clean[j] == '}' &&
        r.value == clean[i..j + 1] &&
        '{' !in clean[..i] && '}' !in clean[j + 1..]
    ensures r == Some("") <==>
      '{' in clean && '}' in clean &&
      forall i, j :: 0 <= i < |clean| && 0 <= j < |clean| && clean[i] == '{' && clean[j] == '}' ==> j < i
  {
    var start := FindFirst(clean, '{');
    var end := FindLast(clean, '}');
    if start.None? || end.None? then None
    else if end.value < start.value then Some("")
    else Some(clean[start.value..end.value + 1])
  }

  /** The window of a reply, or NoJsonFound carrying the head of the reply. */
  function JsonWindow(raw: string): (r: Result<string, ExtractError>)
    ensures r.Success? <==> '{' in Clean(raw) && '}' in Clean(raw)
    ensures r.Failure? ==> r.error == NoJsonFound(Prefix(raw, 200))
    ensures r.Success? && r.value != "" ==>
      r.value[0] == '{' && r.value[|r.value| - 1] == '}'
    ensures r.Success? && r.value != "" ==>
      var clean := Clean(raw);
      exists i, j :: 0 <= i <= j < |clean| && clean[i] == '{' && clean[j] == '}' &&
        r.value == clean[i..j + 1] &&
        '{' !in clean[..i] && '}' !in clean[j + 1..]
    ensures r == Success("") <==>
      var clean := Clean(raw);
      '{' in clean && '}' in clean &&
      forall i, j :: 0 <= i < |clean| && 0 <= j < |clean| && clean[i] == '{' && clean[j] == '}' ==> j < i
  {
    match BraceWindow(Clean(raw))
    case None => Failure(NoJsonFound(Prefix(raw, 200)))
    case Some(w) => Success(w)
  }

  /** `_extract_json`: the decoded window. */
  function ExtractJson(raw: string, decode: Decoder): Result<Json, ExtractError> {
    var window :- JsonWindow(raw);
    match decode(window)
    case None => Failure(MalformedJson)
    case Some(j) => Success(j)
  }

  // ---------------------------------------------------------------------------
  // No fence survives the cleaning
  // ---------------------------------------------------------------------------

  lemma {:induction false} StripFenceMarkersHead(s: string)
    requires StripFenceMarkers(s) != [] && StripFenceMarkers(s)[0] == '`'
    ensures s != [] && s[0] == '`'
  {
  }

  lemma {:induction false} StripFenceMarkersTwoHead(s: string)
    requires |StripFenceMarkers(s)| >= 2
    requires StripFenceMarkers(s)[0] == '`' && StripFenceMarkers(s)[1] == '`'
    ensures |s| >= 2 && s[0] == '`' && s[1] == '`'
  {
    if |s| >= 3 && !FenceAt(s, 0) {
      assert StripFenceMarkers(s) == [s[0]] + StripFenceMarkers(s[1..]);
      StripFenceMarkersHead(s[1..]);
    }
  }

  /** Every "```" of the reply is removed by the regular expression substitution. */
  lemma {:induction false} StripFenceMarkersLeavesNoFence(s: string)
    ensures NoFence(StripFenceMarkers(s))
    decreases |s|
  {
    if |s| < 3 {
    } else if FenceAt(s, 0) {
      var rest := s[3..];
      var untagged := if |rest| >= 4 && rest[..4] == "json" then rest[4..] else rest;
      StripFenceMarkersLeavesNoFence(LStrip(untagged));
    } else {
      var tail := StripFenceMarkers(s[1..]);
      StripFenceMarkersLeavesNoFence(s[1..]);
      var r := [s[0]] + tail;
      forall i | 0 <= i < |r| ensures !FenceAt(r, i) {
        if i == 0 && FenceAt(r, 0) {
          StripFenceMarkersTwoHead(s[1..]);
        } else if i > 0 {
          assert FenceAt(r, i) ==> FenceAt(tail, i - 1);
        }
      }
    }
  }

  /** `.replace("```", "")` leaves a fence-free text as it is. */
  lemma {:induction false} RemoveFencesNoOp(s: string)
    requires NoFence(s)
    ensures RemoveFences(s) == s
    decreases |s|
  {
    if |s| >= 3 {
      assert !FenceAt(s, 0);
      assert NoFence(s[1..]) by {
        forall i | 0 <= i < |s[1..]| ensures !FenceAt(s[1..], i) {
          assert FenceAt(s[1..], i) ==> FenceAt(s, i + 1);
        }
      }
      RemoveFencesNoOp(s[1..]);
      assert [s[0]] + s[1..] == s;
    }
  }

  lemma NoFenceSlice(s: string, lo: nat, hi: nat)
    requires lo <= hi <= |s| && NoFence(s)
    ensures NoFence(s[lo..hi])
  {
    forall i | 0 <= i < hi - lo ensures !FenceAt(s[lo..hi], i) {
      assert FenceAt(s[lo..hi], i) ==> FenceAt(s, lo + i);
    }
  }

  /**
   * Fence removal is complete: the cleaned text, and so every JSON window, holds no "```";
   * and the `.replace` after the substitution never changes anything.
   */
  lemma CleanHasNoFence(raw: string)
    ensures RemoveFences(StripFenceMarkers(raw)) == StripFenceMarkers(raw)
    ensures NoFence(Clean(raw))
  {
    var stripped := StripFenceMarkers(raw);
    StripFenceMarkersLeavesNoFence(raw);
    RemoveFencesNoOp(stripped);
    var lo, hi := StripIsSlice(stripped);
    NoFenceSlice(stripped, lo, hi);
  }

  /** No window holds a "```". */
  lemma WindowHasNoFence(raw: string)
    requires JsonWindow(raw).Success?
    ensures NoFence(JsonWindow(raw).value)
  {
    CleanHasNoFence(raw);
    BraceWindowNoFence(Clean(raw));
  }

  /** A window cut from a fence-free text holds no fence. */
  lemma BraceWindowNoFence(clean: string)
    requires NoFence(clean) && BraceWindow(clean).Some?
    ensures NoFence(BraceWindow(clean).value)
  {
    var start := FindFirst(clean, '{');
    var end := FindLast(clean, '}');
    if start.value <= end.value {
      NoFenceSlice(clean, start.value, end.value + 1);
    }
  }

  // ---------------------------------------------------------------------------
  // Characters are only ever removed
  // ---------------------------------------------------------------------------

  lemma {:induction false} StripFenceMarkersSubset(s: string)
    ensures forall c :: c in StripFenceMarkers(s) ==> c in s
    decreases |s|
  {
    if |s| < 3 {
    } else if FenceAt(s, 0) {
      var rest := s[3..];
      var untagged := if |rest| >= 4 && rest[..4] == "json" then rest[4..] else rest;
      assert untagged == s[|s| - |untagged|..];
      LStripIsSuffix(untagged);
      StripFenceMarkersSubset(LStrip(untagged));
    } else {
      StripFenceMarkersSubset(s[1..]);
    }
  }

  lemma {:induction false} RemoveFencesSubset(s: string)
    ensures forall c :: c in RemoveFences(s) ==> c in s
    decreases |s|
  {
    if |s| < 3 {
    } else if FenceAt(s, 0) {
      RemoveFencesSubset(s[3..]);
    } else {
      RemoveFencesSubset(s[1..]);
    }
  }

  /** A reply without any `{` (or without any `}`) yields NoJsonFound, whatever the decoder. */
  lemma NoBraceNoJson(raw: string, decode: Decoder)
    requires '{' !in raw || '}' !in raw
    ensures ExtractJson(raw, decode) == Failure(NoJsonFound(Prefix(raw, 200)))
  {
    var stripped := StripFenceMarkers(raw);
    StripFenceMarkersSubset(raw);
    RemoveFencesSubset(stripped);
    var lo, hi := StripIsSlice(RemoveFences(stripped));
  }

  /**
   * When the last `}` precedes the first `{`, the window is empty, and a decoder that
   * rejects the empty text (as `json.loads` does) makes the extraction fail.
   */
  lemma EmptyWindowIsMalformed(raw: string, decode: Decoder)
    requires decode("") == None
    requires '{' in Clean(raw) && '}' in Clean(raw)
    requires FindLast(Clean(raw), '}').value < FindFirst(Clean(raw), '{').value
    ensures JsonWindow(raw) == Success("")
    ensures ExtractJson(raw, decode) == Failure(MalformedJson)
  {
  }

  // ---------------------------------------------------------------------------
  // Fences and preambles do not move the window
  // ---------------------------------------------------------------------------

  /** The wrapping a model typically puts around its JSON reply. */
  function Fenced(s: string): string {
    "```json\n" + s + "\n```"
  }

  lemma {:induction false} StripFenceMarkersPlainPrefix(p: string, t: string)
    requires NoBacktick(p)
    ensures StripFenceMarkers(p + t) == p + StripFenceMarkers(t)
    decreases |p|
  {
    if p != [] {
      var s := p + t;
      assert !FenceAt(s, 0);
      if |s| >= 3 {
        assert s[1..] == p[1..] + t;
        StripFenceMarkersPlainPrefix(p[1..], t);
        assert [p[0]] + p[1..] == p;
      } else {
        // p + t is shorter than a fence and starts with p: it has no backtick at the head,
        // and a tail of length < 3 is left untouched on both sides.
        assert |t| < 3;
        assert p + t == p + StripFenceMarkers(t);
      }
    } else {
      assert p + t == t;
    }
  }

  lemma LStripAppend(s: string, t: string)
    ensures LStrip(s) != [] ==> LStrip(s + t) == LStrip(s) + t
    ensures LStrip(s) == [] ==> LStrip(s + t) == LStrip(t)
    decreases |s|
  {
    if s != [] {
      assert (s + t)[1..] == s[1..] + t;
      if IsSpace(s[0]) {
        LStripAppend(s[1..], t);
      }
    } else {
      assert s + t == t;
    }
  }

  lemma RStripAppendSpace(s: string, w: string)
    requires AllSpace(w)
    ensures RStrip(s + w) == RStrip(s)
    decreases |w|
  {
    if w != [] {
      var init := w[..|w| - 1];
      assert (s + w)[..|s + w| - 1] == s + init;
      RStripAppendSpace(s, init);
    } else {
      assert s + w == s;
    }
  }

  /** Trailing whitespace, and leading whitespace already stripped, do not change `strip`. */
  lemma StripAfterLStrip(s: string)
    ensures Strip(LStrip(s) + "\n") == Strip(s)
  {
    var l := LStrip(s);
    LStripIsSuffix(s);
    assert AllSpace("\n") by { assert IsSpace('\n'); }
    LStripAppend(l, "\n");
    if l != [] {
      assert LStrip(l) == l;
      assert LStrip(l + "\n") == l + "\n";
      RStripAppendSpace(l, "\n");
    } else {
      assert LStrip("\n"[1..]) == "";
      assert LStrip(l + "\n") == "";
    }
  }

  /** The closing fence alone is dropped; after a newline, the newline stays. */
  lemma StripClosingFence()
    ensures StripFenceMarkers("```") == ""
    ensures StripFenceMarkers("\n```") == "\n"
  {
    assert FenceAt("```", 0);
    assert "```"[3..] == "";
    assert !FenceAt("\n```", 0);
    assert "\n```"[1..] == "```";
  }

  /** At a tagged fence the markers and the whitespace after them are dropped. */
  lemma StripTaggedFence(f: string)
    requires FenceAt(f, 0) && |f| >= 7 && f[3..7] == "json"
    ensures StripFenceMarkers(f) == StripFenceMarkers(LStrip(f[7..]))
  {
    assert f[3..][..4] == f[3..7];
    assert f[3..][4..] == f[7..];
  }

  /** A leading whitespace character does not survive `lstrip`. */
  lemma LStripSpaceHead(c: char, t: string)
    requires IsSpace(c)
    ensures LStrip([c] + t) == LStrip(t)
  {
    assert ([c] + t)[1..] == t;
  }

  /** The opening "```json" and the newline after it are dropped. */
  lemma StripOpeningFenceOf(f: string, tail: string)
    requires f == "```json\n" + tail
    ensures StripFenceMarkers(f) == StripFenceMarkers(LStrip(tail))
  {
    assert FenceAt(f, 0) && |f| >= 7 && f[3..7] == "json";
    assert f[7..] == [f[7]] + tail;
    StripTaggedFence(f);
    LStripSpaceHead(f[7], tail);
  }

  /** The opening "```json" and the whitespace after it are dropped. */
  lemma StripOpeningFence(s: string)
    ensures StripFenceMarkers(Fenced(s)) == StripFenceMarkers(LStrip(s + "\n```"))
  {
    assert Fenced(s) == "```json\n" + (s + "\n```");
    StripOpeningFenceOf(Fenced(s), s + "\n```");
  }

  /** Dropping the markers of a fenced reply leaves the reply's left-trimmed text and a newline. */
  lemma FencedMarkersStripped(s: string)
    requires NoBacktick(s)
    ensures StripFenceMarkers(Fenced(s)) == if LStrip(s) != [] then LStrip(s) + "\n" else ""
  {
    StripOpeningFence(s);
    StripClosingFence();
    LStripAppend(s, "\n```");
    var l := LStrip(s);
    if l != [] {
      assert NoBacktick(l) by {
        LStripIsSuffix(s);
      }
      StripFenceMarkersPlainPrefix(l, "\n```");
    } else {
      assert LStrip("\n```") == "```" by {
        assert IsSpace('\n') && "\n```"[1..] == "```";
        assert !IsSpace('`');
      }
    }
  }

  /** Fence invariance of the cleaned text. */
  lemma FencedClean(s: string)
    requires NoBacktick(s)
    ensures Clean(Fenced(s)) == Clean(s)
  {
    FencedMarkersStripped(s);
    var stripped := StripFenceMarkers(Fenced(s));
    var l := LStrip(s);
    LStripIsSuffix(s);
    StripAfterLStrip(s);
    if l == [] {
      assert Strip("\n") == Strip("") == "";
    }
    assert NoBacktick(stripped);
    NoBacktickNoFence(stripped);
    RemoveFencesNoOp(stripped);
    CleanPlain(s);
  }

  /**
   * Fence invariance: wrapping a backtick-free reply as "```json\n" + s + "\n```" leaves
   * the cleaned text, and hence the window and the decoded value, unchanged.
   */
  lemma FencedCleanUnchanged(s: string)
    requires NoBacktick(s)
    ensures Clean(Fenced(s)) == Clean(s)
    ensures JsonWindow(Fenced(s)).Success? <==> JsonWindow(s).Success?
    ensures JsonWindow(s).Success? ==> JsonWindow(Fenced(s)) == JsonWindow(s)
    ensures forall decode: Decoder ::
      JsonWindow(s).Success? ==> ExtractJson(Fenced(s), decode) == ExtractJson(s, decode)
  {
    FencedClean(s);
    SameCleanSameWindow(Fenced(s), s);
  }

  /** Two replies that clean to the same text have the same window and decode alike. */
  lemma SameCleanSameWindow(r1: string, r2: string)
    requires Clean(r1) == Clean(r2)
    ensures JsonWindow(r1).Success? <==> JsonWindow(r2).Success?
    ensures JsonWindow(r2).Success? ==> JsonWindow(r1) == JsonWindow(r2)
    ensures forall decode: Decoder ::
      JsonWindow(r2).Success? ==> ExtractJson(r1, decode) == ExtractJson(r2, decode)
  {
  }

  lemma NoBacktickNoFence(s: string)
    requires NoBacktick(s)
    ensures NoFence(s)
  {
  }

  /** A backtick-free reply is only trimmed by the cleaning. */
  lemma CleanPlain(s: string)
    requires NoBacktick(s)
    ensures Clean(s) == Strip(s)
  {
    StripFenceMarkersPlainPrefix(s, "");
    assert s + "" == s;
    NoBacktickNoFence(s);
    RemoveFencesNoOp(s);
  }

  /** Trimming a text that starts with a `{` after a preamble without `{` and ends with `}`. */
  lemma StripPreamble(p: string, b: string) returns (k: nat)
    requires '{' !in p && |b| >= 2 && b[0] == '{' && b[|b| - 1] == '}'
    ensures k <= |Strip(p + b)| && Strip(p + b)[k..] == b && '{' !in Strip(p + b)[..k]
  {
    LStripAppend(p, b);
    LStripIsSuffix(p);
    var l := LStrip(p);
    var lb := if l != [] then l + b else b;
    assert LStrip(p + b) == lb;
    assert RStrip(lb) == lb;
    k := |lb| - |b|;
    assert lb[k..] == b;
    assert lb[..k] == l[..k];
  }

  /** A window that opens at the first `{` after `k` brace-free characters and runs to the end. */
  lemma WindowAtEnd(clean: string, k: nat, b: string)
    requires k <= |clean| && clean[k..] == b && '{' !in clean[..k]
    requires |b| >= 2 && b[0] == '{' && b[|b| - 1] == '}'
    ensures BraceWindow(clean) == Some(b)
  {
    assert clean[k] == '{';
    assert FindFirst(clean, '{') == Some(k);
    assert FindLast(clean, '}') == Some(|clean| - 1);
    assert clean[k..|clean|] == b;
  }

  /** Without fences, a preamble free of `{` before an object text leaves that text as the window. */
  lemma PlainPreambleWindow(p: string, b: string)
    requires NoBacktick(p) && '{' !in p
    requires NoBacktick(b) && |b| >= 2 && b[0] == '{' && b[|b| - 1] == '}'
    ensures JsonWindow(p + b) == Success(b)
  {
    var s := p + b;
    assert NoBacktick(s);
    CleanPlain(s);
    var k := StripPreamble(p, b);
    WindowAtEnd(Clean(s), k, b);
  }

  /**
   * Leading prose is ignored: a backtick-free preamble without `{` before a backtick-free
   * object text that starts with `{` and ends with `}` leaves exactly that text as the
   * window, whether or not the object is fenced.
   */
  lemma PreambleIgnored(p: string, b: string)
    requires NoBacktick(p) && '{' !in p
    requires NoBacktick(b) && |b| >= 2 && b[0] == '{' && b[|b| - 1] == '}'
    ensures JsonWindow(p + b) == Success(b)
    ensures JsonWindow(Fenced(p + b)) == Success(b)
  {
    PlainPreambleWindow(p, b);
    assert NoBacktick(p + b);
    FencedCleanUnchanged(p + b);
  }
}
