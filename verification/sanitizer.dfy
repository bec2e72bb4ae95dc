/** `PromptComposer::SanitizePrompt`: deletes six chat-control markers, one marker at a
    time in a fixed order, then trims `isspace` whitespace from both ends. */
module Sanitizer {
  import opened Wrappers
  import opened Text

  /** Llama-3 document start, header delimiters and turn end. */
  const BeginOfText: string := "<|begin_of_text|>"
  const StartHeaderId: string := "<|start_header_id|>"
  const EndHeaderId: string := "<|end_header_id|>"
  const EotId: string := "<|eot_id|>"
  /** ChatML turn delimiters. */
  const ImStart: string := "<|im_start|>"
  const ImEnd: string := "<|im_end|>"

  /** The forbidden markers, in the order the sanitizer processes them. */
  const Markers: seq<string> := [BeginOfText, StartHeaderId, EndHeaderId, EotId, ImStart, ImEnd]

  /** `s.erase(i, n)`: the text with the `n` characters at `i` deleted. */
  function Cut(s: string, i: nat, n: nat): (r: string)
    requires i + n <= |s|
    ensures |r| == |s| - n
    ensures r[..i] == s[..i] && r[i..] == s[i + n..]
  {
    s[..i] + s[i + n..]
  }

  /** The inner `while` loop for one marker: find `m` at or after `pos`, erase it, and
      search again from the position of the erase. */
  function EraseFrom(s: string, m: string, pos: nat): (r: string)
    requires 0 < |m| && pos <= |s|
    ensures |r| <= |s|
    ensures pos <= |r| && r[..pos] == s[..pos]
    decreases |s|
  {
    match Find(s, m, pos)
    case None => s
    case Some(i) =>
      var s' := Cut(s, i, |m|);
      assert s'[..pos] == s'[..i][..pos];
      EraseFrom(s', m, i)
  }

  /** Erasing only deletes characters. */
  lemma {:induction false} EraseFromSubseq(s: string, m: string, pos: nat)
    requires 0 < |m| && pos <= |s|
    ensures IsSubseq(EraseFrom(s, m, pos), s)
    decreases |s|
  {
    match Find(s, m, pos)
    case None =>
      SubseqRefl(s);
    case Some(i) =>
      var s' := Cut(s, i, |m|);
      var r' := EraseFrom(s', m, i);
      assert IsSubseq(s', s) by { EraseIsSubseq(s, i, i + |m|); }
      assert IsSubseq(r', s') by { EraseFromSubseq(s', m, i); }
      SubseqTrans(r', s', s);
  }

  /** The inner loop leaves the string alone exactly when the marker does not occur
      at or after the starting position; otherwise it strictly shortens it. */
  lemma {:induction false} EraseFromUnchanged(s: string, m: string, pos: nat)
    requires 0 < |m| && pos <= |s|
    ensures EraseFrom(s, m, pos) == s <==> forall j :: pos <= j ==> !OccursAt(s, m, j)
    ensures EraseFrom(s, m, pos) != s ==> |EraseFrom(s, m, pos)| < |s|
  {
    FindNone(s, m, pos);
    match Find(s, m, pos)
    case None =>
    case Some(i) =>
      var s' := Cut(s, i, |m|);
      assert EraseFrom(s, m, pos) == EraseFrom(s', m, i);
      assert OccursAt(s, m, i);
  }

  /** One turn of the outer `for` loop; the empty-marker guard skips the search. */
  function EraseMarker(s: string, m: string): (r: string)
    ensures |r| <= |s|
  {
    if |m| == 0 then s else EraseFrom(s, m, 0)
  }

  /** The outer `for` loop: every marker of `ms`, in order. */
  function EraseAll(s: string, ms: seq<string>): (r: string)
    ensures |r| <= |s|
    decreases |ms|
  {
    if |ms| == 0 then s else EraseAll(EraseMarker(s, ms[0]), ms[1..])
  }

  lemma {:induction false} EraseAllSubseq(s: string, ms: seq<string>)
    ensures IsSubseq(EraseAll(s, ms), s)
    decreases |ms|
  {
    if |ms| == 0 {
      SubseqRefl(s);
    } else {
      var t := EraseMarker(s, ms[0]);
      if |ms[0]| == 0 {
        SubseqRefl(s);
      } else {
        EraseFromSubseq(s, ms[0], 0);
      }
      EraseAllSubseq(t, ms[1..]);
      SubseqTrans(EraseAll(t, ms[1..]), t, s);
    }
  }

  /** `SanitizePrompt` on its in-out string argument. */
  function Sanitize(p: string): (r: string)
    ensures p == [] ==> r == []
    ensures |r| <= |p| && IsSubseq(r, p)
    ensures |r| > 0 ==> !IsSpace(r[0]) && !IsSpace(r[|r| - 1])
  {
    if |p| == 0 then
      p
    else
      var e := EraseAll(p, Markers);
      EraseAllSubseq(p, Markers);
      TrimIsSubseq(e);
      SubseqTrans(Trim(e), e, p);
      Trim(e)
  }

  /** One iteration of the inner loop: the occurrence `find` reports is erased and the
      search resumes at the erase position. */
  lemma EraseFromStep(s: string, m: string, pos: nat, i: nat)
    requires 0 < |m| && pos <= |s| && Find(s, m, pos) == Some(i)
    ensures EraseFrom(s, m, pos) == EraseFrom(Cut(s, i, |m|), m, i)
  {
  }

  /** The marker loop unrolled: the six erasures happen in the listed order. */
  lemma EraseAllInOrder(s: string)
    ensures EraseAll(s, Markers) ==
      EraseMarker(EraseMarker(EraseMarker(EraseMarker(EraseMarker(EraseMarker(
        s, BeginOfText), StartHeaderId), EndHeaderId), EotId), ImStart), ImEnd)
  {
    var ms := Markers;
    var s1 := EraseMarker(s, BeginOfText);
    var s2 := EraseMarker(s1, StartHeaderId);
    var s3 := EraseMarker(s2, EndHeaderId);
    var s4 := EraseMarker(s3, EotId);
    var s5 := EraseMarker(s4, ImStart);
    assert EraseAll(s, ms) == EraseAll(s1, ms[1..]);
    assert EraseAll(s1, ms[1..]) == EraseAll(s2, ms[2..]) by { assert ms[1..][1..] == ms[2..]; }
    assert EraseAll(s2, ms[2..]) == EraseAll(s3, ms[3..]) by { assert ms[2..][1..] == ms[3..]; }
    assert EraseAll(s3, ms[3..]) == EraseAll(s4, ms[4..]) by { assert ms[3..][1..] == ms[4..]; }
    assert EraseAll(s4, ms[4..]) == EraseAll(s5, ms[5..]) by { assert ms[4..][1..] == ms[5..]; }
    assert EraseAll(s5, ms[5..]) == EraseAll(EraseMarker(s5, ImEnd), []) by { assert ms[5..][1..] == []; }
  }

  /** A marker with no occurrence is skipped. */
  lemma EraseMarkerAbsent(s: string, m: string)
    requires forall j :: !OccursAt(s, m, j)
    ensures EraseMarker(s, m) == s
  {
    if 0 < |m| {
      EraseFromUnchanged(s, m, 0);
    }
  }

  /** Inside an occurrence, `s` agrees with the marker character by character. */
  lemma OccursAtChar(s: string, m: string, j: int, k: nat)
    requires OccursAt(s, m, j) && k < |m|
    ensures s[j + k] == m[k]
  {
    assert s[j..j + |m|][k] == s[j + k];
  }

  /** A marker that starts with `<` cannot occur in `s` if every `<` of `s` (all at
      positions listed in `lts`) is followed, `k` places later, by a character other than the
      marker's `k`-th. */
  lemma AbsentByChar(s: string, m: string, lts: seq<int>, k: nat)
    requires k < |m| && m[0] == '<'
    requires forall j :: 0 <= j < |s| && s[j] == '<' ==> j in lts
    requires forall i :: 0 <= i < |lts| ==> 0 <= lts[i] && lts[i] + k < |s| && s[lts[i] + k] != m[k]
    ensures forall j :: !OccursAt(s, m, j)
  {
    forall j ensures !OccursAt(s, m, j) {
      if OccursAt(s, m, j) {
        OccursAtChar(s, m, j, 0);
        OccursAtChar(s, m, j, k);
      }
    }
  }

  /** No marker starting with `<` occurs before the first `<`. */
  lemma AbsentBeforeAngle(s: string, m: string, i: int)
    requires 0 < |m| && m[0] == '<'
    requires forall j :: 0 <= j < i && j < |s| ==> s[j] != '<'
    ensures forall j :: j < i ==> !OccursAt(s, m, j)
  {
    forall j | j < i ensures !OccursAt(s, m, j) {
    }
  }

  /** A marker ruled out by `AbsentByChar` is skipped by its loop. */
  lemma MarkerSkipped(s: string, m: string, lts: seq<int>, k: nat)
    requires k < |m| && m[0] == '<'
    requires forall j :: 0 <= j < |s| && s[j] == '<' ==> j in lts
    requires forall i :: 0 <= i < |lts| ==> 0 <= lts[i] && lts[i] + k < |s| && s[lts[i] + k] != m[k]
    ensures EraseMarker(s, m) == s
  {
    AbsentByChar(s, m, lts, k);
    EraseMarkerAbsent(s, m);
  }

  /** Four markers each ruled out at offset 2 are all skipped. */
  lemma FourSkipped(s: string, lts: seq<int>, m1: string, m2: string, m3: string, m4: string)
    requires forall j :: 0 <= j < |s| && s[j] == '<' ==> j in lts
    requires forall i :: 0 <= i < |lts| ==> 0 <= lts[i] && lts[i] + 2 < |s| && s[lts[i] + 2] == 'i'
    requires 2 < |m1| && m1[0] == '<' && m1[2] != 'i'
    requires 2 < |m2| && m2[0] == '<' && m2[2] != 'i'
    requires 2 < |m3| && m3[0] == '<' && m3[2] != 'i'
    requires 2 < |m4| && m4[0] == '<' && m4[2] != 'i'
    ensures EraseMarker(EraseMarker(EraseMarker(EraseMarker(s, m1), m2), m3), m4) == s
  {
    assert EraseMarker(s, m1) == s by { MarkerSkipped(s, m1, lts, 2); }
    assert EraseMarker(s, m2) == s by { MarkerSkipped(s, m2, lts, 2); }
    assert EraseMarker(s, m3) == s by { MarkerSkipped(s, m3, lts, 2); }
    assert EraseMarker(s, m4) == s by { MarkerSkipped(s, m4, lts, 2); }
  }

  /** The first four markers all read `<|` then a letter other than `i`. */
  lemma LlamaMarkersSkipped(s: string, lts: seq<int>)
    requires forall j :: 0 <= j < |s| && s[j] == '<' ==> j in lts
    requires forall i :: 0 <= i < |lts| ==> 0 <= lts[i] && lts[i] + 2 < |s| && s[lts[i] + 2] == 'i'
    ensures EraseMarker(EraseMarker(EraseMarker(EraseMarker(
              s, BeginOfText), StartHeaderId), EndHeaderId), EotId) == s
  {
    FourSkipped(s, lts, BeginOfText, StartHeaderId, EndHeaderId, EotId);
  }

  /** One marker loop on `a + m + b` when `m` first occurs right after `a` and the
      splice `a + b` holds no occurrence from `|a|` on. */
  lemma EraseMarkerAt(a: string, m: string, b: string)
    requires 0 < |m|
    requires forall j :: j < |a| ==> !OccursAt(a + m + b, m, j)
    requires forall j :: |a| <= j ==> !OccursAt(a + b, m, j)
    ensures EraseMarker(a + m + b, m) == a + b
  {
    var s := a + m + b;
    assert s[|a|..|a| + |m|] == m;
    FindFirst(s, m, 0, |a|);
    EraseFromStep(s, m, 0, |a|);
    assert Cut(s, |a|, |m|) == a + b;
    EraseFromUnchanged(a + b, m, |a|);
  }

  /** Text that neither starts nor ends with whitespace is not trimmed. */
  lemma TrimUntouched(s: string)
    requires 0 < |s| && !IsSpace(s[0]) && !IsSpace(s[|s| - 1])
    ensures Trim(s) == s
  {
  }

  /** Skipping every marker: input without any occurrence is left alone by the loop. */
  lemma {:induction false} EraseAllAbsent(s: string, ms: seq<string>)
    requires forall k, j :: 0 <= k < |ms| ==> !OccursAt(s, ms[k], j)
    ensures EraseAll(s, ms) == s
    decreases |ms|
  {
    if |ms| > 0 {
      EraseMarkerAbsent(s, ms[0]);
      EraseAllAbsent(s, ms[1..]);
    }
  }

  /** Text without `<` cannot hold a marker, so it is only trimmed. */
  lemma NoAngleOnlyTrimmed(p: string)
    requires forall i :: 0 <= i < |p| ==> p[i] != '<'
    ensures Sanitize(p) == Trim(p)
  {
    forall k, j | 0 <= k < |Markers| ensures !OccursAt(p, Markers[k], j) {
      if OccursAt(p, Markers[k], j) {
        OccursAtChar(p, Markers[k], j, 0);
      }
    }
    EraseAllAbsent(p, Markers);
  }

  /** Blank input sanitizes to the empty string. */
  lemma WhitespaceOnlyBecomesEmpty(p: string)
    requires forall i :: 0 <= i < |p| ==> IsSpace(p[i])
    ensures Sanitize(p) == []
  {
    NoAngleOnlyTrimmed(p);
    TrimSlice(p);
  }
}
