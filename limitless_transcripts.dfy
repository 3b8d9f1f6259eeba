/**
 * The metadata the Limitless importer derives from one transcript file
 * (`importTranscriptMetadata` in scripts/import-limitless.ts): which files qualify, the
 * title, the date, a 500-character summary and the word count.
 */
module LimitlessTranscripts {
  import opened Text
  import opened Seqs
  import opened Wrappers

  /** A file of the transcripts directory: its name and its text. */
  datatype SourceFile = SourceFile(name: string, content: string)

  /** One row of `limitless_transcripts`. */
  datatype TranscriptRow = TranscriptRow(date: string, title: string, wordCount: nat, summary: string, filePath: string)

  /** `f.endsWith('.txt') || f.endsWith('.md')`. */
  predicate IsTranscriptName(name: string) {
    EndsWith(name, ".txt") || EndsWith(name, ".md")
  }

  /** `filename.replace(/\.(txt|md)$/, '')`: one trailing `.txt` or `.md` removed. */
  function TranscriptTitle(name: string): (t: string)
    ensures EndsWith(name, ".txt") ==> t + ".txt" == name
    ensures EndsWith(name, ".md") ==> t + ".md" == name
    ensures !IsTranscriptName(name) ==> t == name
  {
    if EndsWith(name, ".txt") then
      assert name[|name| - 1] == ".txt"[3];
      name[..|name| - 4]
    else if EndsWith(name, ".md") then name[..|name| - 3]
    else name
  }

  /** `\d{4}-\d{2}-\d{2}` matches at `i`. */
  predicate DateAt(s: string, i: nat) {
    i + 10 <= |s| &&
    IsDigit(s[i]) && IsDigit(s[i + 1]) && IsDigit(s[i + 2]) && IsDigit(s[i + 3]) && s[i + 4] == '-' &&
    IsDigit(s[i + 5]) && IsDigit(s[i + 6]) && s[i + 7] == '-' && IsDigit(s[i + 8]) && IsDigit(s[i + 9])
  }

  /** The start of the leftmost date in `s` at or after `from`. */
  function FirstDateFrom(s: string, from: nat): (r: Option<nat>)
    requires from <= |s|
    ensures r.Some? ==> from <= r.value && DateAt(s, r.value)
    ensures r.Some? ==> forall q :: from <= q < r.value ==> !DateAt(s, q)
    ensures r.None? ==> forall q :: from <= q <= |s| ==> !DateAt(s, q)
    decreases |s| - from
  {
    if DateAt(s, from) then Some(from)
    else if from == |s| then None
    else FirstDateFrom(s, from + 1)
  }

  /**
   * `filename.match(/(\d{4}-\d{2}-\d{2})/)`, else today's date. The current date
   * (`new Date().toISOString().split('T')[0]`) is the parameter `today`.
   */
  function TranscriptDate(name: string, today: string): string {
    match FirstDateFrom(name, 0)
    case Some(i) => name[i..i + 10]
    case None => today
  }

  /** `content.substring(0, 500)`. */
  function Summary(content: string): (r: string)
    ensures |r| == Min(500, |content|) && r == content[..|r|]
  {
    Take(content, 500)
  }

  predicate NotSpace(c: char) { !IsJsSpace(c) }

  /** `content.split(/\s+/)`: the pieces between maximal white-space runs, empty ones at the ends included. */
  function SpaceSplit(s: string): (pieces: seq<string>)
    ensures |pieces| >= 1
    ensures forall p, i :: p in pieces && 0 <= i < |p| ==> !IsJsSpace(p[i])
    decreases |s|
  {
    var k := RunEnd(NotSpace, s, 0);
    if k == |s| then [s]
    else
      var e := RunEnd(IsJsSpace, s, k);
      assert e > k;
      [s[..k]] + SpaceSplit(s[e..])
  }

  /** `content.split(/\s+/).length`. */
  function WordCount(content: string): nat {
    |SpaceSplit(content)|
  }

  /**
   * A reference count, read off one character at a time: the number of white-space
   * runs in `s`, where `inRun` says whether the character before `s` was white space.
   */
  function SpaceRuns(s: string, inRun: bool): nat
    decreases |s|
  {
    if s == [] then 0
    else (if IsJsSpace(s[0]) && !inRun then 1 else 0) + SpaceRuns(s[1..], IsJsSpace(s[0]))
  }

  lemma {:induction false} SpaceRunsAfterWord(s: string, k: nat, inRun: bool)
    requires k <= |s|
    requires forall j :: 0 <= j < k ==> !IsJsSpace(s[j])
    ensures SpaceRuns(s, inRun) == SpaceRuns(s[k..], if k == 0 then inRun else false)
    decreases k
  {
    if k > 0 {
      SpaceRunsAfterWord(s[1..], k - 1, false);
      assert s[1..][k - 1..] == s[k..];
    }
  }

  lemma {:induction false} SpaceRunsAcrossRun(s: string, e: nat, inRun: bool)
    requires 0 < e <= |s|
    requires forall j :: 0 <= j < e ==> IsJsSpace(s[j])
    ensures SpaceRuns(s, inRun) == (if inRun then 0 else 1) + SpaceRuns(s[e..], true)
    decreases e
  {
    if e > 1 {
      SpaceRunsAcrossRun(s[1..], e - 1, true);
      assert s[1..][e - 1..] == s[e..];
    }
  }

  /** Whether the previous character was white space does not matter before a non-space character. */
  lemma SpaceRunsAtWord(s: string)
    requires s == [] || !IsJsSpace(s[0])
    ensures SpaceRuns(s, true) == SpaceRuns(s, false)
  {
  }

  /** A white-space run `s[k..e]` that follows a word counts once. */
  lemma SpaceRunsOfRunAt(s: string, k: nat, e: nat)
    requires k < e <= |s|
    requires forall j :: k <= j < e ==> IsJsSpace(s[j])
    requires e == |s| || !IsJsSpace(s[e])
    ensures SpaceRuns(s[k..], false) == 1 + SpaceRuns(s[e..], false)
  {
    var t := s[k..];
    assert forall j :: 0 <= j < e - k ==> t[j] == s[k + j];
    SpaceRunsAcrossRun(t, e - k, false);
    assert t[e - k..] == s[e..];
    SpaceRunsAtWord(s[e..]);
  }

  /** `split(/\s+/)` yields one piece more than there are white-space runs, so the word count is at least 1. */
  lemma {:induction false} WordCountIsRunsPlusOne(s: string)
    ensures WordCount(s) == 1 + SpaceRuns(s, false)
    ensures WordCount(s) >= 1
    decreases |s|
  {
    var k := RunEnd(NotSpace, s, 0);
    SpaceRunsAfterWord(s, k, false);
    if k < |s| {
      var e := RunEnd(IsJsSpace, s, k);
      SpaceRunsOfRunAt(s, k, e);
      WordCountIsRunsPlusOne(s[e..]);
      assert SpaceSplit(s) == [s[..k]] + SpaceSplit(s[e..]);
    }
  }

  /** `path.join(transcriptsDir, filename)`, without its normalisation of `.` and `..`. */
  function FilePath(dir: string, name: string): string {
    dir + "/" + name
  }

  function TranscriptOf(dir: string, f: SourceFile, today: string): TranscriptRow {
    TranscriptRow(TranscriptDate(f.name, today), TranscriptTitle(f.name), WordCount(f.content),
      Summary(f.content), FilePath(dir, f.name))
  }

  predicate IsTranscriptFile(f: SourceFile) { IsTranscriptName(f.name) }

  /** The `.txt`/`.md` files of the directory, each turned into its row, in listing order. */
  function Transcripts(dir: string, files: seq<SourceFile>, today: string): (rows: seq<TranscriptRow>)
    ensures |rows| == |Filter(IsTranscriptFile, files)|
  {
    Map((f: SourceFile) => TranscriptOf(dir, f, today), Filter(IsTranscriptFile, files))
  }

  /** What each transcript row holds, stated against its source file. */
  lemma TranscriptRowFields(dir: string, f: SourceFile, today: string)
    requires IsTranscriptFile(f)
    ensures var r := TranscriptOf(dir, f, today);
      (r.title + ".txt" == f.name || r.title + ".md" == f.name) &&
      |r.summary| == Min(500, |f.content|) && r.summary == f.content[..|r.summary|] &&
      r.wordCount == 1 + SpaceRuns(f.content, false) &&
      (FirstDateFrom(f.name, 0).None? ==> r.date == today) &&
      (FirstDateFrom(f.name, 0).Some? ==>
        var i := FirstDateFrom(f.name, 0).value;
        r.date == f.name[i..i + 10] && DateAt(f.name, i) && forall q :: 0 <= q < i ==> !DateAt(f.name, q))
  {
    WordCountIsRunsPlusOne(f.content);
  }
}
