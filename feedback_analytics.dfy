/** The feedback analytics page: a word cloud of the stored feedback (words
    tokenised, stop words dropped, counted, ranked and sized), the most
    recent notes, and the way back to the page it was opened from. */
module FeedbackAnalytics {
  import opened Prelude
  import opened Sorting
  import opened Tally
  import opened Navigation

  const MaxWords: nat := 50
  const MaxRecent: nat := 20

  const StopWords: set<string> := {
    "the", "a", "an", "and", "or", "but", "in", "on", "at", "to", "for", "of", "with", "by",
    "is", "are", "was", "were", "be", "been", "have", "has", "had", "do", "does", "did",
    "will", "would", "could", "should", "may", "might", "can", "this", "that", "these",
    "those", "i", "you", "he", "she", "it", "we", "they", "me", "him", "her", "us", "them"}

  // ---------------------------------------------------------------------
  // Tokenising

  function KeepChar(c: char): bool
  {
    IsWordChar(c) || IsSpace(c)
  }

  /** `replace(/[^\w\s]/g, '')`. */
  function StripPunctuation(s: string): (r: string)
    ensures forall i :: 0 <= i < |r| ==> KeepChar(r[i]) && r[i] in s
  {
    Filter(s, KeepChar)
  }

  predicate HasSpace(s: string)
  {
    exists i :: 0 <= i < |s| && IsSpace(s[i])
  }

  function SpaceIndex(s: string): (k: nat)
    requires HasSpace(s)
    ensures k < |s| && IsSpace(s[k])
    ensures forall j :: 0 <= j < k ==> !IsSpace(s[j])
  {
    if IsSpace(s[0]) then 0
    else
      assert HasSpace(s[1..]) by {
        var i :| 0 <= i < |s| && IsSpace(s[i]);
        assert s[1..][i - 1] == s[i];
      }
      1 + SpaceIndex(s[1..])
  }

  /** `split(/\s+/)`: the pieces between runs of white space; a leading or
      trailing run gives an empty first or last piece. */
  function SplitOnSpaces(s: string): (r: seq<string>)
    ensures |r| >= 1
    ensures forall i, j :: 0 <= i < |r| && 0 <= j < |r[i]| ==> !IsSpace(r[i][j]) && r[i][j] in s
    decreases |s|
  {
    if !HasSpace(s) then
      assert forall j :: 0 <= j < |s| ==> !IsSpace(s[j]);
      [s]
    else
      var k := SpaceIndex(s);
      var rest := TrimStart(s[k..]);
      assert |rest| < |s[k..]| by {
        assert s[k..][0] == s[k];
      }
      var tail := SplitOnSpaces(rest);
      PiecesOfSplit(s, k, rest, tail);
      [s[..k]] + tail
  }

  /** The runs of white space that `split(/\s+/)` cuts at, in order. */
  function SpaceRuns(s: string): (g: seq<string>)
    decreases |s|
  {
    if !HasSpace(s) then []
    else
      var k := SpaceIndex(s);
      var rest := TrimStart(s[k..]);
      assert |rest| < |s[k..]| by {
        assert s[k..][0] == s[k];
      }
      [FirstRun(s)] + SpaceRuns(rest)
  }

  /** The first run of white space: from the first white-space character up
      to the text that trimming it leaves. */
  function FirstRun(s: string): string
    requires HasSpace(s)
  {
    var k := SpaceIndex(s);
    var rest := TrimStart(s[k..]);
    s[k..|s| - |rest|]
  }

  /** A non-empty run of white space. */
  predicate IsRun(w: string)
  {
    w != "" && forall j :: 0 <= j < |w| ==> IsSpace(w[j])
  }

  /** The pieces with the runs between them: piece 0, run 0, piece 1, … */
  function Interleave(pieces: seq<string>, runs: seq<string>): string
    requires |pieces| == |runs| + 1
    decreases |runs|
  {
    if runs == [] then pieces[0] else pieces[0] + runs[0] + Interleave(pieces[1..], runs[1..])
  }

  /** The pieces interleaved with non-empty runs of white space give back
      the text, and only the first and the last piece can be empty, exactly
      when the text starts or ends with white space: the pieces are the
      maximal runs of other characters. */
  lemma SplitOnSpacesRuns(s: string)
    ensures var r, g := SplitOnSpaces(s), SpaceRuns(s);
      |g| == |r| - 1
      && (forall i :: 0 <= i < |g| ==> IsRun(g[i]))
      && Interleave(r, g) == s
      && (forall i :: 0 < i < |r| - 1 ==> r[i] != "")
      && (r[0] == "" <==> s == "" || IsSpace(s[0]))
      && (|r| > 1 ==> (r[|r| - 1] == "" <==> IsSpace(s[|s| - 1])))
  {
    RunsCount(s);
    RunsAreSpace(s);
    InterleaveRuns(s);
    InnerPiecesNonEmpty(s);
    FirstPiece(s);
    EndPieces(s);
  }

  /** One step of the split: the first piece and the first run, then the
      same split of the text after that run. */
  lemma SplitStep(s: string)
    requires HasSpace(s)
    ensures var k := SpaceIndex(s); var rest := TrimStart(s[k..]);
      SplitOnSpaces(s) == [s[..k]] + SplitOnSpaces(rest)
      && SpaceRuns(s) == [FirstRun(s)] + SpaceRuns(rest)
  {
  }

  /** The first run is a non-empty run of white space. */
  lemma FirstRunIsRun(s: string)
    requires HasSpace(s)
    ensures IsRun(FirstRun(s))
  {
    var k := SpaceIndex(s);
    var rest := TrimStart(s[k..]);
    var t := s[k..];
    assert t[0] == s[k];
    var run := FirstRun(s);
    forall j | 0 <= j < |run| ensures IsSpace(run[j]) {
      assert run[j] == t[j];
    }
  }

  /** The text is its first piece, its first run, and what trimming leaves. */
  lemma FirstRunCut(s: string)
    requires HasSpace(s)
    ensures var k := SpaceIndex(s);
      s == s[..k] + FirstRun(s) + TrimStart(s[k..])
  {
    var k := SpaceIndex(s);
    var t := s[k..];
    var rest := TrimStart(t);
    var m := |s| - |rest|;
    assert rest == s[m..] by {
      assert t[|t| - |rest|..] == s[m..];
    }
    assert FirstRun(s) == s[k..m];
    CutInThree(s, k, m);
  }

  lemma CutInThree(s: string, k: nat, m: nat)
    requires k <= m <= |s|
    ensures s == s[..k] + s[k..m] + s[m..]
  {
    assert s[..m] == s[..k] + s[k..m];
    assert s == s[..m] + s[m..];
  }

  /** The last character of the text is the last character of what trimming
      leaves, or white space when trimming leaves nothing. */
  lemma RestEnd(s: string)
    requires HasSpace(s)
    ensures var rest := TrimStart(s[SpaceIndex(s)..]);
      (rest == "" ==> IsSpace(s[|s| - 1]))
      && (rest != "" ==> rest[|rest| - 1] == s[|s| - 1])
  {
    var k := SpaceIndex(s);
    var t := s[k..];
    var rest := TrimStart(t);
    if rest == "" {
      assert IsSpace(t[|t| - 1]);
    } else {
      assert rest[|rest| - 1] == t[|t| - 1];
    }
  }

  lemma {:induction false} RunsCount(s: string)
    ensures |SpaceRuns(s)| == |SplitOnSpaces(s)| - 1
    decreases |s|
  {
    if HasSpace(s) {
      SplitStep(s);
      var k := SpaceIndex(s);
      RunsCount(TrimStart(s[k..]));
    }
  }

  lemma {:induction false} RunsAreSpace(s: string)
    ensures var g := SpaceRuns(s);
      forall i :: 0 <= i < |g| ==> IsRun(g[i])
    decreases |s|
  {
    if HasSpace(s) {
      SplitStep(s);
      FirstRunIsRun(s);
      var k := SpaceIndex(s);
      var rest := TrimStart(s[k..]);
      RunsAreSpace(rest);
      var g, gt := SpaceRuns(s), SpaceRuns(rest);
      forall i | 0 <= i < |g| ensures IsRun(g[i]) {
        if i > 0 {
          assert g[i] == gt[i - 1];
        }
      }
    }
  }

  lemma {:induction false} InterleaveRuns(s: string)
    ensures |SpaceRuns(s)| == |SplitOnSpaces(s)| - 1
    ensures Interleave(SplitOnSpaces(s), SpaceRuns(s)) == s
    decreases |s|
  {
    RunsCount(s);
    if HasSpace(s) {
      SplitStep(s);
      FirstRunCut(s);
      var k := SpaceIndex(s);
      var rest := TrimStart(s[k..]);
      InterleaveRuns(rest);
      var r, g := SplitOnSpaces(s), SpaceRuns(s);
      assert r[1..] == SplitOnSpaces(rest) && g[1..] == SpaceRuns(rest);
    }
  }

  /** The text splits into two or more pieces exactly when it holds white space. */
  lemma PieceCount(s: string)
    ensures HasSpace(s) <==> |SplitOnSpaces(s)| >= 2
    ensures !HasSpace(s) ==> SplitOnSpaces(s) == [s]
  {
    if HasSpace(s) {
      SplitStep(s);
    }
  }

  /** The first piece is empty exactly when the text is empty or starts with white space. */
  lemma FirstPiece(s: string)
    ensures SplitOnSpaces(s)[0] == "" <==> s == "" || IsSpace(s[0])
  {
    if HasSpace(s) {
      SplitStep(s);
      var k := SpaceIndex(s);
      assert SplitOnSpaces(s)[0] == s[..k];
      assert k == 0 <==> IsSpace(s[0]);
    } else if s != "" {
      assert !IsSpace(s[0]);
    }
  }

  lemma {:induction false} InnerPiecesNonEmpty(s: string)
    ensures var r := SplitOnSpaces(s);
      forall i :: 0 < i < |r| - 1 ==> r[i] != ""
    decreases |s|
  {
    if HasSpace(s) {
      SplitStep(s);
      var k := SpaceIndex(s);
      var rest := TrimStart(s[k..]);
      InnerPiecesNonEmpty(rest);
      PieceCount(rest);
      FirstPiece(rest);
      ConsPieces(s[..k], SplitOnSpaces(rest));
    }
  }

  /** A piece put in front keeps the inner pieces non-empty when the old
      first piece becomes an inner one only if it is non-empty. */
  lemma ConsPieces(head: string, tail: seq<string>)
    requires forall i :: 0 < i < |tail| - 1 ==> tail[i] != ""
    requires |tail| >= 2 ==> tail[0] != ""
    ensures var r := [head] + tail;
      forall i :: 0 < i < |r| - 1 ==> r[i] != ""
  {
    var r := [head] + tail;
    forall i | 0 < i < |r| - 1 ensures r[i] != "" {
      assert r[i] == tail[i - 1];
    }
  }

  lemma {:induction false} EndPieces(s: string)
    ensures var r := SplitOnSpaces(s);
      |r| > 1 ==> (r[|r| - 1] == "" <==> IsSpace(s[|s| - 1]))
    decreases |s|
  {
    PieceCount(s);
    if HasSpace(s) {
      SplitStep(s);
      RestEnd(s);
      var k := SpaceIndex(s);
      var rest := TrimStart(s[k..]);
      PieceCount(rest);
      var r, tail := SplitOnSpaces(s), SplitOnSpaces(rest);
      assert r[|r| - 1] == tail[|tail| - 1];
      if HasSpace(rest) {
        EndPieces(rest);
      }
    }
  }

  /** The pieces of a split step come from the string and hold no white space. */
  lemma PiecesOfSplit(s: string, k: nat, rest: string, tail: seq<string>)
    requires k <= |s| && forall j :: 0 <= j < k ==> !IsSpace(s[j])
    requires |rest| <= |s| - k && rest == s[|s| - |rest|..]
    requires forall i, j :: 0 <= i < |tail| && 0 <= j < |tail[i]| ==> !IsSpace(tail[i][j]) && tail[i][j] in rest
    ensures var r := [s[..k]] + tail;
      forall i, j :: 0 <= i < |r| && 0 <= j < |r[i]| ==> !IsSpace(r[i][j]) && r[i][j] in s
  {
    var r := [s[..k]] + tail;
    forall i, j | 0 <= i < |r| && 0 <= j < |r[i]| ensures !IsSpace(r[i][j]) && r[i][j] in s {
      if i == 0 {
        assert r[0][j] == s[j];
      } else {
        assert r[i] == tail[i - 1];
        var m :| 0 <= m < |rest| && rest[m] == tail[i - 1][j];
        assert rest[m] == s[|s| - |rest| + m];
      }
    }
  }

  /** A word is counted when it is longer than two characters and not a stop word. */
  predicate Counted(w: string)
  {
    |w| > 2 && w !in StopWords
  }

  function IsCounted(w: string): bool
  {
    Counted(w)
  }

  /** The counted words of one note, in order. */
  function Words(text: string): (r: seq<string>)
    ensures forall i :: 0 <= i < |r| ==> Counted(r[i])
  {
    Filter(SplitOnSpaces(StripPunctuation(ToLower(text))), IsCounted)
  }

  /** Every counted word is a run of lower-case letters, digits and
      underscores that occurs in the lower-cased note. */
  lemma WordShape(text: string, w: string)
    requires w in Words(text)
    ensures Counted(w)
    ensures forall j :: 0 <= j < |w| ==> IsWordChar(w[j]) && !('A' <= w[j] <= 'Z') && w[j] in ToLower(text)
  {
    var lowered := ToLower(text);
    var stripped := StripPunctuation(lowered);
    var pieces := SplitOnSpaces(stripped);
    assert w in pieces;
    var i :| 0 <= i < |pieces| && pieces[i] == w;
    forall j | 0 <= j < |w| ensures IsWordChar(w[j]) && !('A' <= w[j] <= 'Z') && w[j] in lowered {
      assert !IsSpace(w[j]) && w[j] in stripped;
      var m :| 0 <= m < |lowered| && lowered[m] == w[j];
    }
  }

  /** The words of all notes, note after note. */
  function AllWords(feedback: seq<FeedbackPoint>): seq<string>
  {
    if feedback == [] then []
    else AllWords(feedback[..|feedback| - 1]) + Words(feedback[|feedback| - 1].text)
  }

  lemma AllWordsCounted(feedback: seq<FeedbackPoint>)
    ensures forall i :: 0 <= i < |AllWords(feedback)| ==> Counted(AllWords(feedback)[i])
  {
    if feedback != [] {
      AllWordsCounted(feedback[..|feedback| - 1]);
    }
  }

  // ---------------------------------------------------------------------
  // Ranking and sizing

  datatype WordFrequency = WordFrequency(word: string, count: nat, size: Option<real>)

  function CountKey(e: Entry<string>): real
  {
    e.count as real
  }

  /** The entries of the counts, most frequent first, cut to 50. */
  function Ranked(feedback: seq<FeedbackPoint>): (r: seq<Entry<string>>)
    ensures |r| <= MaxWords
    ensures SortedDescBy(r, CountKey)
    ensures |Distinct(AllWords(feedback))| <= MaxWords ==>
      multiset(r) == multiset(TallyOf(AllWords(feedback)))
  {
    var sorted := SortDescBy(Entries(TallyOf(AllWords(feedback))), CountKey);
    TakeKeepsOrderDesc(sorted, MaxWords);
    TallyCounts(AllWords(feedback));
    Take(sorted, MaxWords)
  }

  lemma TakeKeepsOrderDesc(s: seq<Entry<string>>, n: nat)
    requires SortedDescBy(s, CountKey)
    ensures SortedDescBy(Take(s, n), CountKey)
  {
  }

  /** `Math.min(...counts)` of a non-empty list. */
  function MinCount(rs: seq<Entry<string>>): (m: nat)
    requires rs != []
    ensures forall i :: 0 <= i < |rs| ==> m <= rs[i].count
    ensures exists i :: 0 <= i < |rs| && m == rs[i].count
  {
    if |rs| == 1 then rs[0].count
    else
      var m := MinCount(rs[..|rs| - 1]);
      if rs[|rs| - 1].count < m then rs[|rs| - 1].count else m
  }

  /** `12 + ratio * 36`; the ratio is 0/0 when the largest and smallest counts
      agree, and the size is then not a number. */
  function SizeOf(count: nat, minCount: nat, maxCount: nat): (s: Option<real>)
    requires minCount <= count <= maxCount
    ensures s.None? <==> minCount == maxCount
    ensures s.Some? ==> 12.0 <= s.value <= 48.0
  {
    if maxCount == minCount then None
    else
      var ratio := (count - minCount) as real / (maxCount - minCount) as real;
      assert 0.0 <= ratio <= 1.0;
      Some(12.0 + ratio * 36.0)
  }

  /** `wordArray[0]?.count || 1`. */
  function MaxCount(rs: seq<Entry<string>>): nat
  {
    if rs == [] || rs[0].count == 0 then 1 else rs[0].count
  }

  /** The sized entries of a ranking. */
  function CloudOf(rs: seq<Entry<string>>): (cloud: seq<WordFrequency>)
    requires SortedDescBy(rs, CountKey)
    ensures |cloud| == |rs|
    ensures forall i :: 0 <= i < |cloud| ==> cloud[i].word == rs[i].key && cloud[i].count == rs[i].count
  {
    if rs == [] then []
    else
      var lo, hi := MinCount(rs), MaxCount(rs);
      seq(|rs|, i requires 0 <= i < |rs| => WordFrequency(rs[i].key, rs[i].count, Sized(rs, i, lo, hi)))
  }

  /** The word cloud of a list of notes. */
  function WordCloud(feedback: seq<FeedbackPoint>): (cloud: seq<WordFrequency>)
    ensures |cloud| == |Ranked(feedback)|
    ensures forall i :: 0 <= i < |cloud| ==>
      cloud[i].word == Ranked(feedback)[i].key && cloud[i].count == Ranked(feedback)[i].count
  {
    CloudOf(Ranked(feedback))
  }

  function Sized(rs: seq<Entry<string>>, i: int, lo: nat, hi: nat): Option<real>
    requires 0 <= i < |rs| && rs != [] && SortedDescBy(rs, CountKey)
    requires lo == MinCount(rs) && hi == MaxCount(rs)
  {
    if rs[0].count == 0 then None
    else SizeOf(rs[i].count, lo, hi)
  }

  /** The cloud lists at most 50 words, most frequent first. */
  lemma CloudRanked(feedback: seq<FeedbackPoint>)
    ensures var cloud := WordCloud(feedback);
      |cloud| <= MaxWords
      && forall i, j :: 0 <= i < j < |cloud| ==> cloud[i].count >= cloud[j].count
  {
    var rs := Ranked(feedback);
    var cloud := WordCloud(feedback);
    forall i, j | 0 <= i < j < |cloud| ensures cloud[i].count >= cloud[j].count {
      assert CountKey(rs[i]) >= CountKey(rs[j]);
    }
  }

  /** Each word of the cloud is a counted word of the notes, listed with its
      exact number of occurrences over all notes. */
  lemma CloudCounts(feedback: seq<FeedbackPoint>, i: int)
    requires 0 <= i < |WordCloud(feedback)|
    ensures var f := WordCloud(feedback)[i];
      f.word in AllWords(feedback) && Counted(f.word)
      && f.count == multiset(AllWords(feedback))[f.word] >= 1
  {
    RankedFromTally(feedback, i);
    TallyEntry(AllWords(feedback), Ranked(feedback)[i]);
    AllWordsCounted(feedback);
  }

  /** Sizes lie between 12 and 48; there are none exactly when the first and
      last words of the cloud have the same count. */
  lemma CloudSizes(feedback: seq<FeedbackPoint>)
    ensures var cloud := WordCloud(feedback);
      (forall i :: 0 <= i < |cloud| && cloud[i].size.Some? ==> 12.0 <= cloud[i].size.value <= 48.0)
      && (cloud != [] ==> (cloud[0].size.None? <==> cloud[0].count == cloud[|cloud| - 1].count))
  {
    var rs := Ranked(feedback);
    var cloud := WordCloud(feedback);
    if cloud != [] {
      CloudCounts(feedback, 0);
      var lo, hi := MinCount(rs), MaxCount(rs);
      assert hi == rs[0].count;
      var j :| 0 <= j < |rs| && lo == rs[j].count;
      assert CountKey(rs[|rs| - 1]) <= CountKey(rs[j]);
      assert cloud == CloudOf(rs);
      assert cloud[0].size == SizeOf(rs[0].count, lo, hi);
    }
  }

  /** Each ranked entry is an entry of the tally. */
  lemma RankedFromTally(feedback: seq<FeedbackPoint>, i: int)
    requires 0 <= i < |Ranked(feedback)|
    ensures Ranked(feedback)[i] in TallyOf(AllWords(feedback))
  {
    var entries := Entries(TallyOf(AllWords(feedback)));
    var sorted := SortDescBy(entries, CountKey);
    assert Ranked(feedback)[i] == sorted[i];
    PermutationMembers(sorted, entries, i);
    assert sorted[i] in multiset(TallyOf(AllWords(feedback)));
  }

  /** With at most 50 distinct words nothing is cut: every counted word of
      every note is in the cloud. */
  lemma CloudCoversFewWords(feedback: seq<FeedbackPoint>, w: string)
    requires |Distinct(AllWords(feedback))| <= MaxWords
    requires w in AllWords(feedback)
    ensures exists i :: 0 <= i < |WordCloud(feedback)| && WordCloud(feedback)[i].word == w
  {
    RankedCoversFewWords(feedback, w);
    var rs := Ranked(feedback);
    var i :| 0 <= i < |rs| && rs[i].key == w;
    assert WordCloud(feedback)[i].word == w;
  }

  /** With at most 50 distinct words every counted word has a ranked entry. */
  lemma RankedCoversFewWords(feedback: seq<FeedbackPoint>, w: string)
    requires |Distinct(AllWords(feedback))| <= MaxWords
    requires w in AllWords(feedback)
    ensures exists i :: 0 <= i < |Ranked(feedback)| && Ranked(feedback)[i].key == w
  {
    var words := AllWords(feedback);
    var t := TallyOf(words);
    assert w in Keys(t) by {
      TallyCounts(words);
      var j :| 0 <= j < |words| && words[j] == w;
    }
    var k :| 0 <= k < |t| && Keys(t)[k] == w;
    var rs := Ranked(feedback);
    assert t[k] in multiset(rs) by {
      assert t[k] in multiset(t);
    }
    var i :| 0 <= i < |rs| && rs[i] == t[k];
    assert rs[i].key == w;
  }

  /** The tally after counting `words` on top of `counts`, one `forEach` step at a time. */
  method CountWords(counts: seq<Entry<string>>, seen: seq<string>, words: seq<string>)
    returns (r: seq<Entry<string>>)
    requires counts == TallyOf(seen)
    ensures r == TallyOf(seen + words)
  {
    r := counts;
    var w := 0;
    assert seen + words[..0] == seen;
    while w < |words|
      invariant 0 <= w <= |words|
      invariant r == TallyOf(seen + words[..w])
    {
      PrefixStep(seen, words, w);
      TallyStep(seen + words[..w], words[w]);
      r := Increment(r, words[w]);
      w := w + 1;
    }
    assert words[..w] == words;
  }

  /** The counts over all notes. */
  method CountAll(feedback: seq<FeedbackPoint>) returns (counts: seq<Entry<string>>)
    ensures counts == TallyOf(AllWords(feedback))
  {
    counts := [];
    var p := 0;
    while p < |feedback|
      invariant 0 <= p <= |feedback|
      invariant counts == TallyOf(AllWords(feedback[..p]))
    {
      counts := CountWords(counts, AllWords(feedback[..p]), Words(feedback[p].text));
      assert feedback[..p + 1][..p] == feedback[..p];
      p := p + 1;
    }
    assert feedback[..p] == feedback;
  }

  /** The sizing pass over the ranked entries. */
  method SizeAll(ranked: seq<Entry<string>>) returns (cloud: seq<WordFrequency>)
    requires SortedDescBy(ranked, CountKey)
    ensures cloud == CloudOf(ranked)
  {
    cloud := [];
    if ranked != [] {
      var lo, hi := MinCount(ranked), MaxCount(ranked);
      var i := 0;
      while i < |ranked|
        invariant 0 <= i <= |ranked| && |cloud| == i
        invariant forall j :: 0 <= j < i ==> cloud[j] == CloudOf(ranked)[j]
      {
        cloud := cloud + [WordFrequency(ranked[i].key, ranked[i].count, Sized(ranked, i, lo, hi))];
        i := i + 1;
      }
    }
  }

  /** `processWordFrequency`: count every word of every note, rank the
      entries, then give each a size. */
  method ProcessWordFrequency(feedback: seq<FeedbackPoint>) returns (cloud: seq<WordFrequency>)
    ensures cloud == WordCloud(feedback)
  {
    var counts := CountAll(feedback);
    var ranked := Take(SortDescBy(Entries(counts), CountKey), MaxWords);
    assert ranked == Ranked(feedback);
    cloud := SizeAll(ranked);
  }

  // ---------------------------------------------------------------------
  // The page

  function Timestamp(p: FeedbackPoint): real
  {
    p.timestamp as real
  }

  /** The page's referrer: back to the feedback page unless told otherwise. */
  function FeedbackReferrer(from: Option<string>, saved: Option<InvestmentState>): (d: Destination)
    ensures d.PathWithState? <==> from == Some("/investments") && saved.Some?
    ensures from.None? ==> d == Path("/feedback")
  {
    Referrer(from, saved, "/feedback")
  }

  class Page {
    var allFeedback: seq<FeedbackPoint>
    var wordCloud: seq<WordFrequency>

    /** Loading reads the stored notes; the cloud is computed only when there are some. */
    constructor(stored: seq<FeedbackPoint>)
      ensures allFeedback == stored
      ensures wordCloud == if stored == [] then [] else WordCloud(stored)
    {
      var cloud := [];
      if |stored| > 0 {
        cloud := ProcessWordFrequency(stored);
      }
      allFeedback := stored;
      wordCloud := cloud;
    }

    /** The recent list: the notes are sorted newest first in place and the
        first 20 of them are shown. */
    method RecentFeedback() returns (recent: seq<FeedbackPoint>)
      modifies this
      ensures allFeedback == SortDescBy(old(allFeedback), Timestamp)
      ensures multiset(allFeedback) == multiset(old(allFeedback))
      ensures recent == Take(allFeedback, MaxRecent)
      ensures |recent| <= MaxRecent && SortedDescBy(recent, Timestamp)
      ensures wordCloud == old(wordCloud)
    {
      allFeedback := SortDescBy(allFeedback, Timestamp);
      recent := Take(allFeedback, MaxRecent);
    }
  }
}
