/** The sync map that server/routes/generate.js and server/routes/video.js
    both compute from a prompt (`splitPromptIntoSegments` and
    `simulateDurations`, identical in the two files): the prompt is cut into
    sentences wherever `/(?<=[.?!])\s+/` matches, blank pieces are dropped,
    the rest are numbered from 1 and given a duration and a start time. */
module SyncMap {
  import opened Common
  import opened JsString

  datatype Segment = Segment(segmentId: nat, text: string, duration: Option<real>, startTime: Option<real>)

  predicate IsSentenceEnd(c: char) { c == '.' || c == '?' || c == '!' }

  /** The separator regular expression can start matching at index `i`:
      the character before it ends a sentence and the one at it is whitespace. */
  predicate IsBreak(s: string, i: int)
  {
    0 < i < |s| && IsSentenceEnd(s[i - 1]) && IsSpace(s[i])
  }

  /** The first break at or after `k`, or `|s|` if there is none. */
  function FindBreak(s: string, k: nat): (i: nat)
    requires k <= |s|
    ensures k <= i <= |s|
    ensures i < |s| ==> IsBreak(s, i)
    ensures forall m :: k <= m < i ==> !IsBreak(s, m)
    decreases |s| - k
  {
    if k == |s| || IsBreak(s, k) then k else FindBreak(s, k + 1)
  }

  /** The end of the whitespace run that starts at `i` (`\s+` is greedy). */
  function RunEnd(s: string, i: nat): (j: nat)
    requires i <= |s|
    ensures i <= j <= |s|
    ensures forall m :: i <= m < j ==> IsSpace(s[m])
    ensures j == |s| || !IsSpace(s[j])
    decreases |s| - i
  {
    if i == |s| || !IsSpace(s[i]) then i else RunEnd(s, i + 1)
  }

  /** `s.split(/(?<=[.?!])\s+/)` as a tokenizer: the text up to the first
      break is a piece, the whitespace run at the break is dropped, and the
      scan resumes after the run. The lookbehind cannot match at the start
      of the remainder, since the character before it is whitespace. */
  function SplitSentences(s: string): (pieces: seq<string>)
    ensures |pieces| >= 1
    ensures |pieces[0]| <= |s| && pieces[0] == s[..|pieces[0]|]
    decreases |s|
  {
    var i := FindBreak(s, 0);
    if i == |s| then [s]
    else
      var j := RunEnd(s, i);
      [s[..i]] + SplitSentences(s[j..])
  }

  /** The whitespace runs SplitSentences drops, in order. */
  function Separators(s: string): (seps: seq<string>)
    decreases |s|
  {
    var i := FindBreak(s, 0);
    if i == |s| then []
    else
      var j := RunEnd(s, i);
      [s[i..j]] + Separators(s[j..])
  }

  /** Puts the pieces back together with the separators between them. */
  function Join(pieces: seq<string>, seps: seq<string>): string
    requires |pieces| == |seps| + 1
    decreases |seps|
  {
    if seps == [] then pieces[0] else pieces[0] + seps[0] + Join(pieces[1..], seps[1..])
  }

  /** Splitting loses nothing: the pieces and the separators rebuild the prompt. */
  lemma {:induction false} SplitRoundTrip(s: string)
    ensures |SplitSentences(s)| == |Separators(s)| + 1
    ensures Join(SplitSentences(s), Separators(s)) == s
    decreases |s|
  {
    var i := FindBreak(s, 0);
    if i < |s| {
      var j := RunEnd(s, i);
      SplitRoundTrip(s[j..]);
      var p, q := SplitSentences(s), Separators(s);
      assert p == [s[..i]] + SplitSentences(s[j..]);
      assert q == [s[i..j]] + Separators(s[j..]);
      assert p[1..] == SplitSentences(s[j..]);
      assert q[1..] == Separators(s[j..]);
      calc {
        Join(p, q);
        p[0] + q[0] + Join(p[1..], q[1..]);
        s[..i] + s[i..j] + s[j..];
        s;
      }
    }
  }

  /** Every separator is a non-empty run of whitespace. */
  lemma {:induction false} SeparatorsAreSpaceRuns(s: string)
    ensures forall k :: 0 <= k < |Separators(s)| ==> Separators(s)[k] != [] && AllSpace(Separators(s)[k])
    decreases |s|
  {
    var i := FindBreak(s, 0);
    if i < |s| {
      var j := RunEnd(s, i);
      SeparatorsAreSpaceRuns(s[j..]);
      var q, q' := Separators(s), Separators(s[j..]);
      assert q == [s[i..j]] + q';
      forall k | 0 < k < |q| ensures q[k] != [] && AllSpace(q[k]) {
        assert q[k] == q'[k - 1];
      }
    }
  }

  /** Every piece but the last is non-empty and ends a sentence. */
  lemma {:induction false} PiecesEndSentences(s: string)
    ensures forall k :: 0 <= k < |SplitSentences(s)| - 1 ==>
      SplitSentences(s)[k] != [] && IsSentenceEnd(SplitSentences(s)[k][|SplitSentences(s)[k]| - 1])
    decreases |s|
  {
    var i := FindBreak(s, 0);
    if i < |s| {
      var j := RunEnd(s, i);
      PiecesEndSentences(s[j..]);
      var p, p' := SplitSentences(s), SplitSentences(s[j..]);
      assert p == [s[..i]] + p';
      forall k | 0 < k < |p| - 1 ensures p[k] != [] && IsSentenceEnd(p[k][|p[k]| - 1]) {
        assert p[k] == p'[k - 1];
      }
    }
  }

  /** Every piece but the first is empty (at the end of the prompt) or starts
      with a character that is not whitespace: the whole run was dropped. */
  lemma {:induction false} PiecesStartAfterRun(s: string)
    ensures forall k :: 0 < k < |SplitSentences(s)| ==>
      SplitSentences(s)[k] == [] || !IsSpace(SplitSentences(s)[k][0])
    decreases |s|
  {
    var i := FindBreak(s, 0);
    if i < |s| {
      var j := RunEnd(s, i);
      var rest := s[j..];
      PiecesStartAfterRun(rest);
      var p, p' := SplitSentences(s), SplitSentences(rest);
      assert p == [s[..i]] + p';
      assert p'[0] == [] || !IsSpace(p'[0][0]) by {
        assert p'[0] == rest[..|p'[0]|];
      }
      forall k | 0 < k < |p| ensures p[k] == [] || !IsSpace(p[k][0]) {
        assert p[k] == p'[k - 1];
      }
    }
  }

  /** No piece contains a break: the split missed none. */
  lemma {:induction false} PiecesHaveNoBreak(s: string)
    ensures forall k, m :: 0 <= k < |SplitSentences(s)| ==> !IsBreak(SplitSentences(s)[k], m)
    decreases |s|
  {
    var i := FindBreak(s, 0);
    if i < |s| {
      var j := RunEnd(s, i);
      PiecesHaveNoBreak(s[j..]);
      var p, p' := SplitSentences(s), SplitSentences(s[j..]);
      assert p == [s[..i]] + p';
      forall k, m | 0 <= k < |p| ensures !IsBreak(p[k], m) {
        if k > 0 {
          assert p[k] == p'[k - 1];
        } else if IsBreak(p[0], m) {
          assert IsBreak(s, m);
        }
      }
    }
  }

  /** A prompt without a break is a single piece. */
  lemma NoBreakIsOnePiece(s: string)
    requires forall m :: !IsBreak(s, m)
    ensures SplitSentences(s) == [s]
  {
  }

  /** `filter(s => s.trim())`: the pieces that are not blank, in order. A
      trimmed piece is empty exactly when the piece is all whitespace
      (TrimEmptyIffBlank), which is the test made here. */
  function KeepNonBlank(pieces: seq<string>): (r: seq<string>)
    ensures |r| <= |pieces|
  {
    if pieces == [] then []
    else if !AllSpace(pieces[0]) then [pieces[0]] + KeepNonBlank(pieces[1..])
    else KeepNonBlank(pieces[1..])
  }

  /** `s.trim()` is empty exactly when `s` is all whitespace. */
  lemma TrimEmptyIffBlank(s: string)
    ensures Trim(s) == "" <==> AllSpace(s)
  {
  }

  /** KeepNonBlank keeps exactly the pieces that are not all whitespace. */
  lemma {:induction false} KeepNonBlankKeepsNonBlank(pieces: seq<string>)
    ensures forall k :: 0 <= k < |KeepNonBlank(pieces)| ==>
      KeepNonBlank(pieces)[k] in pieces && !AllSpace(KeepNonBlank(pieces)[k])
    ensures forall k :: 0 <= k < |pieces| && !AllSpace(pieces[k]) ==> pieces[k] in KeepNonBlank(pieces)
  {
    if pieces != [] {
      var rest := pieces[1..];
      KeepNonBlankKeepsNonBlank(rest);
      var r, r' := KeepNonBlank(pieces), KeepNonBlank(rest);
      forall k | 0 <= k < |r| ensures r[k] in pieces && !AllSpace(r[k]) {
        if !AllSpace(pieces[0]) && k > 0 {
          assert r[k] == r'[k - 1];
        }
      }
      forall k | 0 <= k < |pieces| && !AllSpace(pieces[k]) ensures pieces[k] in r {
        if k > 0 {
          assert pieces[k] == rest[k - 1];
        }
      }
    }
  }

  /** KeepNonBlank keeps exactly the pieces whose trim is not empty. */
  lemma KeepNonBlankKeepsExactly(pieces: seq<string>)
    ensures forall k :: 0 <= k < |KeepNonBlank(pieces)| ==>
      KeepNonBlank(pieces)[k] in pieces && Trim(KeepNonBlank(pieces)[k]) != ""
    ensures forall k :: 0 <= k < |pieces| && Trim(pieces[k]) != "" ==> pieces[k] in KeepNonBlank(pieces)
  {
    KeepNonBlankKeepsNonBlank(pieces);
    forall p | p in pieces ensures Trim(p) == "" <==> AllSpace(p) {
      TrimEmptyIffBlank(p);
    }
  }

  /** A single piece is kept exactly when its trim is not empty. */
  lemma KeepNonBlankOne(p: string)
    ensures KeepNonBlank([p]) == if Trim(p) == "" then [] else [p]
  {
    TrimEmptyIffBlank(p);
    assert [p][1..] == [];
  }

  /** The filter works piece by piece: the kept pieces of `s + t` are those
      of `s` followed by those of `t`, so order and repeats are kept. */
  lemma {:induction false} KeepNonBlankAppend(s: seq<string>, t: seq<string>)
    ensures KeepNonBlank(s + t) == KeepNonBlank(s) + KeepNonBlank(t)
  {
    if s != [] {
      assert (s + t)[0] == s[0];
      assert (s + t)[1..] == s[1..] + t;
      KeepNonBlankAppend(s[1..], t);
      if !AllSpace(s[0]) {
        Common.ConcatAssoc([s[0]], KeepNonBlank(s[1..]), KeepNonBlank(t));
      }
    } else {
      assert s + t == t;
    }
  }

  /** Each non-blank piece is kept as often as it occurs; no blank one is. */
  lemma {:induction false} KeepNonBlankCounts(pieces: seq<string>)
    ensures forall p ::
      multiset(KeepNonBlank(pieces))[p] == if Trim(p) == "" then 0 else multiset(pieces)[p]
  {
    if pieces != [] {
      var rest := pieces[1..];
      KeepNonBlankCounts(rest);
      assert pieces == [pieces[0]] + rest;
      KeepNonBlankAppend([pieces[0]], rest);
      KeepNonBlankOne(pieces[0]);
    }
  }

  /** Numbers texts consecutively from `first`, with no timing yet. */
  function Number(texts: seq<string>, first: nat): (segs: seq<Segment>)
    ensures |segs| == |texts|
    ensures forall k :: 0 <= k < |segs| ==> segs[k] == Segment(first + k, texts[k], None, None)
  {
    if texts == [] then [] else [Segment(first, texts[0], None, None)] + Number(texts[1..], first + 1)
  }

  /** `splitPromptIntoSegments`: split, drop the blank pieces, number the rest. */
  function SplitPromptIntoSegments(prompt: string): seq<Segment>
  {
    Number(KeepNonBlank(SplitSentences(prompt)), 1)
  }

  /** The segments are the non-blank pieces in order, numbered from 1,
      with no timing yet. */
  lemma SegmentsNumbered(prompt: string)
    ensures var segs, texts := SplitPromptIntoSegments(prompt), KeepNonBlank(SplitSentences(prompt));
      && |segs| == |texts|
      && forall k :: 0 <= k < |segs| ==>
           && segs[k].segmentId == k + 1 && segs[k].text == texts[k]
           && segs[k].duration.None? && segs[k].startTime.None?
  {
  }

  /** Every segment is a non-blank piece of the split prompt, and every
      non-blank piece is a segment. */
  lemma SegmentsAreNonBlankPieces(prompt: string)
    ensures var segs, pieces := SplitPromptIntoSegments(prompt), SplitSentences(prompt);
      && (forall k :: 0 <= k < |segs| ==> segs[k].text in pieces && Trim(segs[k].text) != "")
      && (forall k :: 0 <= k < |pieces| && Trim(pieces[k]) != "" ==>
            exists l :: 0 <= l < |segs| && segs[l].text == pieces[k])
  {
    var segs, pieces := SplitPromptIntoSegments(prompt), SplitSentences(prompt);
    var texts := KeepNonBlank(pieces);
    SegmentsNumbered(prompt);
    KeepNonBlankKeepsExactly(pieces);
    forall k | 0 <= k < |segs|
      ensures segs[k].text in pieces && Trim(segs[k].text) != ""
    {
      assert segs[k].text == texts[k];
    }
    forall k | 0 <= k < |pieces| && Trim(pieces[k]) != ""
      ensures exists l :: 0 <= l < |segs| && segs[l].text == pieces[k]
    {
      assert pieces[k] in texts;
      var l :| 0 <= l < |texts| && texts[l] == pieces[k];
      assert segs[l].text == pieces[k];
    }
  }

  /** An empty or all-whitespace prompt yields no segments, not an error. */
  lemma BlankPromptHasNoSegments(prompt: string)
    requires AllSpace(prompt)
    ensures SplitPromptIntoSegments(prompt) == []
  {
    assert SplitSentences(prompt) == [prompt];
  }

  // ---------------------------------------------------------------------
  // Timing.

  /** `Math.max(2, Math.min(6, text.length / 15))`, over exact rationals. */
  function SegmentDuration(text: string): (d: real)
    ensures 2.0 <= d <= 6.0
    ensures |text| <= 30 ==> d == 2.0
    ensures 30 <= |text| <= 90 ==> d == |text| as real / 15.0
    ensures |text| >= 90 ==> d == 6.0
  {
    var raw := |text| as real / 15.0;
    if raw > 6.0 then 6.0 else if raw < 2.0 then 2.0 else raw
  }

  /** The start of segment `i`: each segment starts half a second after the
      previous one ends, and the first starts at 0. */
  function StartTime(segs: seq<Segment>, i: nat): real
    requires i <= |segs|
  {
    if i == 0 then 0.0 else StartTime(segs, i - 1) + SegmentDuration(segs[i - 1].text) + 0.5
  }

  /** The timed sync map from segment `i` on, the running start time being
      `t`: each segment keeps its id and text and gets its duration and
      start time, and the next one starts half a second after it ends. */
  function TimelineFrom(segs: seq<Segment>, i: nat, t: real): (out: seq<Segment>)
    requires i <= |segs|
    decreases |segs| - i
  {
    if i == |segs| then []
    else
      var d := SegmentDuration(segs[i].text);
      [segs[i].(duration := Some(d), startTime := Some(t))] + TimelineFrom(segs, i + 1, t + d + 0.5)
  }

  /** TimelineFrom times segment `i` and goes on from the next one. */
  lemma TimelineFromStep(segs: seq<Segment>, i: nat, t: real)
    requires i < |segs|
    ensures var d := SegmentDuration(segs[i].text);
            TimelineFrom(segs, i, t) == [segs[i].(duration := Some(d), startTime := Some(t))] + TimelineFrom(segs, i + 1, t + d + 0.5)
  {
  }

  function Timeline(segs: seq<Segment>): seq<Segment>
  {
    TimelineFrom(segs, 0, 0.0)
  }

  /** From segment `i` on, the k-th timed segment is the (i+k)-th segment
      with its duration and its start time. */
  lemma {:induction false} TimelineFromAt(segs: seq<Segment>, i: nat)
    requires i <= |segs|
    ensures var out := TimelineFrom(segs, i, StartTime(segs, i));
            && |out| == |segs| - i
            && forall k :: i <= k < |segs| ==>
                 out[k - i] == segs[k].(duration := Some(SegmentDuration(segs[k].text)), startTime := Some(StartTime(segs, k)))
    decreases |segs| - i
  {
    if i < |segs| {
      TimelineFromAt(segs, i + 1);
      var out := TimelineFrom(segs, i, StartTime(segs, i));
      var rest := TimelineFrom(segs, i + 1, StartTime(segs, i + 1));
      assert out == [segs[i].(duration := Some(SegmentDuration(segs[i].text)), startTime := Some(StartTime(segs, i)))] + rest;
      forall k | i < k < |segs|
        ensures out[k - i] == segs[k].(duration := Some(SegmentDuration(segs[k].text)), startTime := Some(StartTime(segs, k)))
      {
        assert out[k - i] == rest[k - (i + 1)];
      }
    }
  }

  /** Every timed segment keeps its id and text and carries its duration
      and its start time. */
  lemma TimelineAt(segs: seq<Segment>)
    ensures var out := Timeline(segs);
            && |out| == |segs|
            && forall k :: 0 <= k < |segs| ==>
                 && out[k].segmentId == segs[k].segmentId && out[k].text == segs[k].text
                 && out[k].duration == Some(SegmentDuration(segs[k].text))
                 && out[k].startTime == Some(StartTime(segs, k))
  {
    TimelineFromAt(segs, 0);
  }

  /** `simulateDurations`: threads the running start time `t` through the
      segments; what the result holds is stated by TimelineAt. */
  method SimulateDurations(segs: seq<Segment>) returns (out: seq<Segment>)
    ensures out == Timeline(segs)
  {
    var t: real := 0.0;
    out := [];
    var i := 0;
    while i < |segs|
      invariant 0 <= i <= |segs|
      invariant out + TimelineFrom(segs, i, t) == Timeline(segs)
    {
      var d := SegmentDuration(segs[i].text);
      var timed := segs[i].(duration := Some(d), startTime := Some(t));
      TimelineFromStep(segs, i, t);
      ConcatAssoc(out, [timed], TimelineFrom(segs, i + 1, t + d + 0.5));
      out := out + [timed];
      t := t + d + 0.5;
      i := i + 1;
    }
  }

  /** The sync map both routes store: segmentation followed by timing. */
  function SyncMapOf(prompt: string): seq<Segment>
  {
    Timeline(SplitPromptIntoSegments(prompt))
  }

  /** Start times grow by at least 2.5 and at most 6.5 seconds per segment. */
  lemma {:induction false} StartTimeBounds(segs: seq<Segment>, i: nat)
    requires i <= |segs|
    ensures 2.5 * i as real <= StartTime(segs, i) <= 6.5 * i as real
  {
    if i > 0 {
      StartTimeBounds(segs, i - 1);
    }
  }

  /** Segments never overlap: a later segment starts at least half a
      second after an earlier one ends. */
  lemma {:induction false} SegmentsDoNotOverlap(segs: seq<Segment>, k: nat, l: nat)
    requires k < l <= |segs|
    ensures StartTime(segs, k) + SegmentDuration(segs[k].text) + 0.5 <= StartTime(segs, l)
    decreases l - k
  {
    if l > k + 1 {
      SegmentsDoNotOverlap(segs, k, l - 1);
    }
  }
}
