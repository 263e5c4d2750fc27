/**
 * Text scanning of the speech scorer: lower-casing, whole-word filler
 * matching as the global regular expression `\b<word>\b` performs it, and the
 * word count `split(/\s+/).length`.
 */
module SpeechText {

  // ------------------------------------------------------------ characters

  /** `\w` of a regular expression without the `u` flag. */
  predicate IsWordChar(c: char) {
    'a' <= c <= 'z' || 'A' <= c <= 'Z' || '0' <= c <= '9' || c == '_'
  }

  /** `\s`: the ECMAScript white-space and line-terminator characters. */
  predicate IsSpace(c: char) {
    c == '\t' || c == '\n' || c == '\U{B}' || c == '\U{C}' || c == '\r' || c == ' ' ||
    c == '\U{A0}' || c == '\U{1680}' || ('\U{2000}' <= c <= '\U{200A}') ||
    c == '\U{2028}' || c == '\U{2029}' || c == '\U{202F}' || c == '\U{205F}' ||
    c == '\U{3000}' || c == '\U{FEFF}'
  }

  /** `toLowerCase` on one ASCII character; every other character is kept. */
  function LowerChar(c: char): (d: char)
    ensures 'A' <= c <= 'Z' ==> 'a' <= d <= 'z' && d as int == c as int + 32
    ensures !('A' <= c <= 'Z') ==> d == c
  {
    if 'A' <= c <= 'Z' then (c as int + 32) as char else c
  }

  function ToLower(s: string): (r: string)
    ensures |r| == |s|
    ensures forall i | 0 <= i < |s| :: r[i] == LowerChar(s[i])
  {
    seq(|s|, i requires 0 <= i < |s| => LowerChar(s[i]))
  }

  // -------------------------------------------------------- filler matching

  /** `\b` at position `i`: exactly one of the neighbouring characters is a word character. */
  predicate BoundaryAt(s: string, i: nat)
    requires i <= |s|
  {
    (0 < i && IsWordChar(s[i - 1])) != (i < |s| && IsWordChar(s[i]))
  }

  /** `\b<w>\b` matches at position `i`. */
  predicate MatchAt(s: string, w: string, i: nat) {
    i + |w| <= |s| && s[i..i + |w|] == w && BoundaryAt(s, i) && BoundaryAt(s, i + |w|)
  }

  /**
   * The matches a global search finds from position `i` on: after a match the
   * search resumes at its end, otherwise one position further.
   */
  function ScanFrom(s: string, w: string, i: nat): nat
    requires |w| > 0 && i <= |s|
    decreases |s| - i
  {
    if i + |w| > |s| then 0
    else if MatchAt(s, w, i) then 1 + ScanFrom(s, w, i + |w|)
    else ScanFrom(s, w, i + 1)
  }

  /** `(s.match(/\bw\b/g) || []).length` */
  function Occurrences(s: string, w: string): nat
    requires |w| > 0
  {
    ScanFrom(s, w, 0)
  }

  /** The number of positions from `i` on where `w` stands as a whole word. */
  function WholeWordsFrom(s: string, w: string, i: nat): nat
    requires |w| > 0 && i <= |s|
    decreases |s| - i
  {
    if i + |w| > |s| then 0
    else (if MatchAt(s, w, i) then 1 else 0) + WholeWordsFrom(s, w, i + 1)
  }

  /** The last character of `w` occurs nowhere else in it, so two matches cannot overlap. */
  predicate LastCharUnique(w: string) {
    |w| > 0 && forall k | 0 <= k < |w| - 1 :: w[k] != w[|w| - 1]
  }

  lemma NoMatchInside(s: string, w: string, i: nat, j: nat)
    requires LastCharUnique(w) && MatchAt(s, w, i) && i < j < i + |w|
    ensures !MatchAt(s, w, j)
  {
    var p := i + |w| - 1;
    assert s[p] == w[|w| - 1] by {
      assert s[i..i + |w|][|w| - 1] == s[p];
    }
    if j + |w| <= |s| {
      assert s[j..j + |w|][p - j] == s[p];
      assert w[p - j] != w[|w| - 1];
    }
  }

  /** After a match at `i` no whole word starts before its end. */
  lemma {:induction false} SkipMatch(s: string, w: string, i: nat, j: nat)
    requires LastCharUnique(w) && MatchAt(s, w, i) && i < j <= i + |w|
    ensures WholeWordsFrom(s, w, j) == WholeWordsFrom(s, w, i + |w|)
    decreases i + |w| - j
  {
    if j < i + |w| {
      NoMatchInside(s, w, i, j);
      SkipMatch(s, w, i, j + 1);
    }
  }

  /** The left-to-right global search counts every whole-word occurrence. */
  lemma {:induction false} ScanCountsWholeWords(s: string, w: string, i: nat)
    requires LastCharUnique(w) && i <= |s|
    ensures ScanFrom(s, w, i) == WholeWordsFrom(s, w, i)
    decreases |s| - i
  {
    if i + |w| <= |s| {
      if MatchAt(s, w, i) {
        ScanCountsWholeWords(s, w, i + |w|);
        SkipMatch(s, w, i, i + 1);
      } else {
        ScanCountsWholeWords(s, w, i + 1);
      }
    }
  }

  /** The filler lexicon, in the order the source scans it. */
  const Fillers: seq<string> :=
    ["um", "uh", "like", "you know", "sort of", "kind of", "basically", "actually"]

  lemma FillersLastCharUnique()
    ensures forall w | w in Fillers :: LastCharUnique(w)
  {
  }

  /** The matches of the first `|ws|` lexicon entries, summed in scan order. */
  function SumOccurrences(s: string, ws: seq<string>): nat
    requires forall w | w in ws :: |w| > 0
  {
    if ws == [] then 0
    else SumOccurrences(s, ws[..|ws| - 1]) + Occurrences(s, ws[|ws| - 1])
  }

  /** The filler total of a transcript: matches of every lexicon entry in the lower-cased text. */
  function FillerTotal(transcript: string): nat {
    SumOccurrences(ToLower(transcript), Fillers)
  }

  /** The `forEach` over the lexicon that accumulates `fillerCount`. */
  method CountFillers(transcript: string) returns (fillerCount: nat)
    ensures fillerCount == FillerTotal(transcript)
  {
    var lower := ToLower(transcript);
    fillerCount := 0;
    for k := 0 to |Fillers|
      invariant fillerCount == SumOccurrences(lower, Fillers[..k])
    {
      assert Fillers[..k + 1][..k] == Fillers[..k];
      fillerCount := fillerCount + Occurrences(lower, Fillers[k]);
    }
    assert Fillers[..|Fillers|] == Fillers;
  }

  /** The whole-word positions of the first `|ws|` lexicon entries, summed in scan order. */
  function SumWholeWords(s: string, ws: seq<string>): nat
    requires forall w | w in ws :: |w| > 0
  {
    if ws == [] then 0
    else SumWholeWords(s, ws[..|ws| - 1]) + WholeWordsFrom(s, ws[|ws| - 1], 0)
  }

  lemma {:induction false} SumOccurrencesIsWholeWords(s: string, ws: seq<string>)
    requires forall w | w in ws :: |w| > 0 && LastCharUnique(w)
    ensures SumOccurrences(s, ws) == SumWholeWords(s, ws)
  {
    if ws != [] {
      SumOccurrencesIsWholeWords(s, ws[..|ws| - 1]);
      ScanCountsWholeWords(s, ws[|ws| - 1], 0);
    }
  }

  /** The filler total counts every position where a filler stands as a whole word. */
  lemma FillerTotalCountsWholeWords(t: string)
    ensures FillerTotal(t) == SumWholeWords(ToLower(t), Fillers)
  {
    FillersLastCharUnique();
    SumOccurrencesIsWholeWords(ToLower(t), Fillers);
  }

  /** The filler total, lexicon entry by lexicon entry. */
  lemma FillerTotalUnfold(t: string)
    ensures FillerTotal(t) == Occurrences(ToLower(t), "um") + Occurrences(ToLower(t), "uh")
      + Occurrences(ToLower(t), "like") + Occurrences(ToLower(t), "you know")
      + Occurrences(ToLower(t), "sort of") + Occurrences(ToLower(t), "kind of")
      + Occurrences(ToLower(t), "basically") + Occurrences(ToLower(t), "actually")
  {
    var s := ToLower(t);
    assert Fillers[..1][..0] == [];
    assert Fillers[..2][..1] == Fillers[..1];
    assert Fillers[..3][..2] == Fillers[..2];
    assert Fillers[..4][..3] == Fillers[..3];
    assert Fillers[..5][..4] == Fillers[..4];
    assert Fillers[..6][..5] == Fillers[..5];
    assert Fillers[..7][..6] == Fillers[..6];
    assert Fillers[..8][..7] == Fillers[..7];
    assert Fillers[..8] == Fillers;
    assert SumOccurrences(s, Fillers[..1]) == Occurrences(s, "um");
    assert SumOccurrences(s, Fillers[..2]) == SumOccurrences(s, Fillers[..1]) + Occurrences(s, "uh");
    assert SumOccurrences(s, Fillers[..3]) == SumOccurrences(s, Fillers[..2]) + Occurrences(s, "like");
    assert SumOccurrences(s, Fillers[..4]) == SumOccurrences(s, Fillers[..3]) + Occurrences(s, "you know");
    assert SumOccurrences(s, Fillers[..5]) == SumOccurrences(s, Fillers[..4]) + Occurrences(s, "sort of");
    assert SumOccurrences(s, Fillers[..6]) == SumOccurrences(s, Fillers[..5]) + Occurrences(s, "kind of");
    assert SumOccurrences(s, Fillers[..7]) == SumOccurrences(s, Fillers[..6]) + Occurrences(s, "basically");
    assert SumOccurrences(s, Fillers[..8]) == SumOccurrences(s, Fillers[..7]) + Occurrences(s, "actually");
  }

  /** A mismatch at offset `m` of position `i`: the search moves on by one. */
  lemma StepPast(s: string, w: string, i: nat, m: nat)
    requires i + |w| <= |s| && m < |w| && s[i + m] != w[m]
    ensures ScanFrom(s, w, i) == ScanFrom(s, w, i + 1)
  {
    assert s[i..i + |w|][m] == s[i + m];
  }

  /** The one whole word "like" in the example. */
  lemma LikeOnce(t: string)
    requires t == "um, like, um"
    ensures Occurrences(t, "like") == 1
  {
    StepPast(t, "like", 0, 0); StepPast(t, "like", 1, 0); StepPast(t, "like", 2, 0);
    StepPast(t, "like", 3, 0);
    assert t[4..8] == "like";
    StepPast(t, "like", 8, 0);
  }

  /** The two whole words "um" in the example. */
  lemma UmTwice(t: string)
    requires t == "um, like, um"
    ensures Occurrences(t, "um") == 2
  {
    assert t[0..2] == "um";
    StepPast(t, "um", 2, 0); StepPast(t, "um", 3, 0); StepPast(t, "um", 4, 0);
    StepPast(t, "um", 5, 0); StepPast(t, "um", 6, 0); StepPast(t, "um", 7, 0);
    StepPast(t, "um", 8, 0); StepPast(t, "um", 9, 0);
    assert t[10..12] == "um";
  }

  /** "uh" does not occur in the example: each "u" is followed by "m". */
  lemma NoUh(t: string)
    requires t == "um, like, um"
    ensures Occurrences(t, "uh") == 0
  {
    StepPast(t, "uh", 0, 1); StepPast(t, "uh", 1, 0); StepPast(t, "uh", 2, 0);
    StepPast(t, "uh", 3, 0); StepPast(t, "uh", 4, 0); StepPast(t, "uh", 5, 0);
    StepPast(t, "uh", 6, 0); StepPast(t, "uh", 7, 0); StepPast(t, "uh", 8, 0);
    StepPast(t, "uh", 9, 0); StepPast(t, "uh", 10, 1);
  }

  /** A word whose first character stands at no position it could start from is never matched. */
  lemma {:induction false} FirstCharAbsent(s: string, w: string, i: nat)
    requires |w| > 0 && i <= |s|
    requires forall k | i <= k && k + |w| <= |s| :: s[k] != w[0]
    ensures ScanFrom(s, w, i) == 0
    decreases |s| - i
  {
    if i + |w| <= |s| {
      StepPast(s, w, i, 0);
      FirstCharAbsent(s, w, i + 1);
    }
  }

  /** None of the five longer fillers occurs in the example. */
  lemma NoLongFiller(t: string, w: string)
    requires t == "um, like, um" && w in Fillers[3..]
    ensures Occurrences(t, w) == 0
  {
    FirstCharAbsent(t, w, 0);
  }

  /** Lower-casing the example changes only its first letter. */
  lemma LowerExample()
    ensures ToLower("Um, like, um") == "um, like, um"
  {
  }

  /** "um" twice and "like" once, whatever the case of the letters. */
  lemma FillerExample()
    ensures FillerTotal("Um, like, um") == 3
  {
    LowerExample();
    FillerTotalUnfold("Um, like, um");
    UmTwice("um, like, um");
    NoUh("um, like, um");
    LikeOnce("um, like, um");
    NoLongFiller("um, like, um", "you know");
    NoLongFiller("um, like, um", "sort of");
    NoLongFiller("um, like, um", "kind of");
    NoLongFiller("um, like, um", "basically");
    NoLongFiller("um, like, um", "actually");
  }

  /** "like" inside "unlike" is not a whole word: no boundary precedes it. */
  lemma FillerInsideWordIgnored()
    ensures FillerTotal("unlike") == 0
  {
    var t := "unlike";
    assert ToLower(t) == t;
    FillerTotalUnfold(t);
    StepPast(t, "like", 0, 0); StepPast(t, "like", 1, 0);
    assert !BoundaryAt(t, 2) by { assert IsWordChar(t[1]) && IsWordChar(t[2]); }
    assert ScanFrom(t, "like", 2) == 0;
    StepPast(t, "um", 0, 1); StepPast(t, "um", 1, 0); StepPast(t, "um", 2, 0);
    StepPast(t, "um", 3, 0); StepPast(t, "um", 4, 0);
    StepPast(t, "uh", 0, 1); StepPast(t, "uh", 1, 0); StepPast(t, "uh", 2, 0);
    StepPast(t, "uh", 3, 0); StepPast(t, "uh", 4, 0);
  }

  // ------------------------------------------------------------ word count

  /** The first white-space position at or after `i`, or `|s|`. */
  function FirstSpace(s: string, i: nat): (j: nat)
    requires i <= |s|
    ensures i <= j <= |s|
    ensures forall k | i <= k < j :: !IsSpace(s[k])
    ensures j < |s| ==> IsSpace(s[j])
    decreases |s| - i
  {
    if i == |s| || IsSpace(s[i]) then i else FirstSpace(s, i + 1)
  }

  /** The end of the white-space run starting at `i`. */
  function SkipSpaces(s: string, i: nat): (j: nat)
    requires i <= |s|
    ensures i <= j <= |s|
    ensures forall k | i <= k < j :: IsSpace(s[k])
    ensures j < |s| ==> !IsSpace(s[j])
    decreases |s| - i
  {
    if i == |s| || !IsSpace(s[i]) then i else SkipSpaces(s, i + 1)
  }

  /** `s.split(/\s+/)`: the pieces between maximal white-space runs, empty ones included. */
  function Split(s: string): (pieces: seq<string>)
    ensures |pieces| >= 1
    ensures forall p, k | 0 <= p < |pieces| && 0 <= k < |pieces[p]| :: !IsSpace(pieces[p][k])
    decreases |s|
  {
    var i := FirstSpace(s, 0);
    if i == |s| then [s]
    else
      var j := SkipSpaces(s, i);
      [s[..i]] + Split(s[j..])
  }

  /** `transcript.split(/\s+/).length` */
  function WordCount(transcript: string): nat {
    |Split(transcript)|
  }

  /** The number of maximal white-space runs, `afterSpace` saying whether one is already open. */
  function SpaceRuns(s: string, afterSpace: bool): nat {
    if s == [] then 0
    else (if IsSpace(s[0]) && !afterSpace then 1 else 0) + SpaceRuns(s[1..], IsSpace(s[0]))
  }

  lemma {:induction false} SpaceRunsConcat(a: string, b: string, f: bool)
    ensures SpaceRuns(a + b, f) == SpaceRuns(a, f) + SpaceRuns(b, if a == [] then f else IsSpace(a[|a| - 1]))
  {
    if a == [] {
      assert a + b == b;
    } else {
      assert (a + b)[1..] == a[1..] + b;
      SpaceRunsConcat(a[1..], b, IsSpace(a[0]));
    }
  }

  lemma {:induction false} NoSpaceNoRuns(a: string, f: bool)
    requires forall k | 0 <= k < |a| :: !IsSpace(a[k])
    ensures SpaceRuns(a, f) == 0
  {
    if a != [] {
      NoSpaceNoRuns(a[1..], false);
    }
  }

  lemma {:induction false} SpacesOneRun(a: string, f: bool)
    requires |a| > 0 && forall k | 0 <= k < |a| :: IsSpace(a[k])
    ensures SpaceRuns(a, f) == if f then 0 else 1
  {
    if |a| > 1 {
      SpacesOneRun(a[1..], true);
    }
  }

  /** The word count is one more than the number of maximal white-space runs. */
  lemma {:induction false} WordCountIsRunsPlusOne(s: string)
    ensures WordCount(s) == 1 + SpaceRuns(s, false)
    decreases |s|
  {
    var i := FirstSpace(s, 0);
    if i == |s| {
      NoSpaceNoRuns(s, false);
    } else {
      var j := SkipSpaces(s, i);
      var head, run, rest := s[..i], s[i..j], s[j..];
      assert s == head + (run + rest);
      SpaceRunsConcat(head, run + rest, false);
      NoSpaceNoRuns(head, false);
      SpaceRunsConcat(run, rest, false);
      SpacesOneRun(run, false);
      assert run[|run| - 1] == s[j - 1];
      assert SpaceRuns(rest, true) == SpaceRuns(rest, false);
      WordCountIsRunsPlusOne(rest);
    }
  }

  /** Even the empty transcript counts one word. */
  lemma EmptyTranscriptIsOneWord()
    ensures WordCount("") == 1
  {
  }
}
