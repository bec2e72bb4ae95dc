/** Character classes, substring search, whitespace trimming and the
    subsequence relation: the string primitives the prompt sanitizer is built on. */
module Text {
  import opened Wrappers

  /** `std::isspace` in the "C" locale: space, \t, \n, \v, \f and \r. */
  predicate IsSpace(c: char) {
    c == ' ' || c == '\t' || c == '\n' || c == '\U{B}' || c == '\U{C}' || c == '\r'
  }

  /** `m` occurs in `s` starting at index `i`. */
  predicate OccursAt(s: string, m: string, i: int) {
    0 <= i && i + |m| <= |s| && s[i..i + |m|] == m
  }

  predicate StartsWith(s: string, prefix: string) {
    |prefix| <= |s| && s[..|prefix|] == prefix
  }

  predicate EndsWith(s: string, suffix: string) {
    |suffix| <= |s| && s[|s| - |suffix|..] == suffix
  }

  /** `std::string::find(m, from)`: the first occurrence of `m` at or after `from`,
      or `None` (the source's `npos`) when there is none; see `FindNone` for the
      converse. */
  function Find(s: string, m: string, from: nat): (r: Option<nat>)
    ensures r.Some? ==> from <= r.value && OccursAt(s, m, r.value)
    ensures r.Some? ==> forall j :: from <= j < r.value ==> !OccursAt(s, m, j)
    decreases |s| - from
  {
    if from + |m| > |s| then None
    else if s[from..from + |m|] == m then assert OccursAt(s, m, from); Some(from)
    else Find(s, m, from + 1)
  }

  /** `find` reports `npos` exactly when nothing occurs at or after `from`. */
  lemma {:induction false} FindNone(s: string, m: string, from: nat)
    ensures Find(s, m, from).None? <==> forall j :: from <= j ==> !OccursAt(s, m, j)
    decreases |s| - from
  {
    if from + |m| > |s| {
    } else if s[from..from + |m|] == m {
      assert OccursAt(s, m, from);
    } else {
      FindNone(s, m, from + 1);
    }
  }

  /** `Find` is pinned down by the first occurrence. */
  lemma FindFirst(s: string, m: string, from: nat, i: nat)
    requires from <= i && OccursAt(s, m, i)
    requires forall j :: from <= j < i ==> !OccursAt(s, m, j)
    ensures Find(s, m, from) == Some(i)
  {
    FindNone(s, m, from);
  }

  /** Number of leading whitespace characters: the span `std::find_if(begin, end, not_space)` skips. */
  function LeadingSpaces(s: string): (k: nat)
    ensures k <= |s|
    ensures forall i :: 0 <= i < k ==> IsSpace(s[i])
    ensures k < |s| ==> !IsSpace(s[k])
  {
    if |s| == 0 || !IsSpace(s[0]) then 0 else 1 + LeadingSpaces(s[1..])
  }

  /** Number of trailing whitespace characters: the span the reverse `find_if` skips. */
  function TrailingSpaces(s: string): (k: nat)
    ensures k <= |s|
    ensures forall i :: |s| - k <= i < |s| ==> IsSpace(s[i])
    ensures k < |s| ==> !IsSpace(s[|s| - k - 1])
  {
    if |s| == 0 || !IsSpace(s[|s| - 1]) then 0 else 1 + TrailingSpaces(s[..|s| - 1])
  }

  /** Erase leading whitespace, then trailing whitespace of what remains. */
  function Trim(s: string): (r: string)
    ensures |r| <= |s|
    ensures |r| > 0 ==> !IsSpace(r[0]) && !IsSpace(r[|r| - 1])
  {
    var a := LeadingSpaces(s);
    var t := s[a..];
    s[a..a + |t| - TrailingSpaces(t)]
  }

  /** Trimming keeps one contiguous slice and drops only whitespace around it; it
      empties the text exactly when the text is blank. */
  lemma TrimSlice(s: string)
    ensures exists a, b :: 0 <= a <= b <= |s| && Trim(s) == s[a..b]
              && (forall i :: 0 <= i < a ==> IsSpace(s[i]))
              && (forall i :: b <= i < |s| ==> IsSpace(s[i]))
    ensures (forall i :: 0 <= i < |s| ==> IsSpace(s[i])) <==> Trim(s) == []
  {
    var a := LeadingSpaces(s);
    var t := s[a..];
    var b := a + |t| - TrailingSpaces(t);
    assert Trim(s) == s[a..b];
    assert forall i :: b <= i < |s| ==> s[i] == t[i - a];
  }

  /** Trimming only deletes characters. */
  lemma TrimIsSubseq(s: string)
    ensures IsSubseq(Trim(s), s)
  {
    var a := LeadingSpaces(s);
    var t := s[a..];
    var b := a + |t| - TrailingSpaces(t);
    SliceIsSubseq(s, a, b);
  }

  /** `a` is obtained from `b` by deleting characters. */
  ghost predicate IsSubseq<T>(a: seq<T>, b: seq<T>)
    decreases |b|
  {
    |a| == 0 || (|b| > 0 && ((a[0] == b[0] && IsSubseq(a[1..], b[1..])) || IsSubseq(a, b[1..])))
  }

  lemma {:induction false} SubseqLength<T>(a: seq<T>, b: seq<T>)
    requires IsSubseq(a, b)
    ensures |a| <= |b|
    decreases |b|
  {
    if |a| > 0 {
      if a[0] == b[0] && IsSubseq(a[1..], b[1..]) {
        SubseqLength(a[1..], b[1..]);
      } else {
        SubseqLength(a, b[1..]);
      }
    }
  }

  lemma {:induction false} SubseqRefl<T>(a: seq<T>)
    ensures IsSubseq(a, a)
    decreases |a|
  {
    if |a| > 0 {
      SubseqRefl(a[1..]);
    }
  }

  lemma {:induction false} SubseqTrans<T>(a: seq<T>, b: seq<T>, c: seq<T>)
    requires IsSubseq(a, b) && IsSubseq(b, c)
    ensures IsSubseq(a, c)
    decreases |c|
  {
    if |a| > 0 {
      if IsSubseq(b, c[1..]) {
        SubseqTrans(a, b, c[1..]);
      } else if a[0] == b[0] && IsSubseq(a[1..], b[1..]) {
        SubseqTrans(a[1..], b[1..], c[1..]);
      } else {
        SubseqTrans(a, b[1..], c[1..]);
      }
    }
  }

  /** Deleting the slice `[i, j)` leaves a subsequence. */
  lemma {:induction false} EraseIsSubseq<T>(s: seq<T>, i: nat, j: nat)
    requires i <= j <= |s|
    ensures IsSubseq(s[..i] + s[j..], s)
    decreases |s|
  {
    var e := s[..i] + s[j..];
    if i > 0 {
      EraseIsSubseq(s[1..], i - 1, j - 1);
      assert e[0] == s[0];
      assert e[1..] == s[1..][..i - 1] + s[1..][j - 1..];
    } else if j > 0 {
      EraseIsSubseq(s[1..], 0, j - 1);
      assert e == s[1..][..0] + s[1..][j - 1..];
    } else {
      assert e == s;
      SubseqRefl(s);
    }
  }

  /** A contiguous slice is a subsequence. */
  lemma SliceIsSubseq<T>(s: seq<T>, a: nat, b: nat)
    requires a <= b <= |s|
    ensures IsSubseq(s[a..b], s)
  {
    EraseIsSubseq(s, b, |s|);
    assert s[..b] + s[|s|..] == s[..b];
    EraseIsSubseq(s[..b], 0, a);
    assert s[..b][..0] + s[..b][a..] == s[a..b];
    SubseqTrans(s[a..b], s[..b], s);
  }
}
