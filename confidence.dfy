/** The pure half of the voice-confidence scorer in `recognition.onresult`
    (src/App.jsx): the transcript joined with spaces, its word count,
    the words-per-minute figure, the deduction table and the label. */
module Confidence {
  import opened Text

  // ---------------------------------------------------------------------
  // Words
  // ---------------------------------------------------------------------

  /** `segments.join(" ")`: the first transcript, then a space before each further one. */
  function JoinWithSpace(segments: seq<string>): (text: string)
    ensures segments == [] ==> text == ""
    ensures |segments| > 0 ==> segments[0] <= text
    ensures |segments| > 1 ==> |segments[0]| < |text| && text[|segments[0]|] == ' '
  {
    if |segments| == 0 then ""
    else if |segments| == 1 then segments[0]
    else segments[0] + " " + JoinWithSpace(segments[1..])
  }

  /** `text.split(" ")`: the runs between single spaces, empty runs included. */
  function Split(text: string): (pieces: seq<string>)
    ensures |pieces| >= 1
    ensures forall p :: p in pieces ==> ' ' !in p
  {
    if text == [] then [""]
    else
      var rest := Split(text[1..]);
      if text[0] == ' ' then [""] + rest else [[text[0]] + rest[0]] + rest[1..]
  }

  /** `.filter((w) => w.length > 0)`: every non-empty piece is kept, as often as it
      occurs, and only those; `NonEmptyAppend` adds that the order is kept. */
  function NonEmpty(pieces: seq<string>): (words: seq<string>)
    ensures forall w :: w in words ==> w != "" && w in pieces
    ensures multiset(words) == multiset(pieces)["" := 0]
    ensures |words| == |pieces| - multiset(pieces)[""]
  {
    if pieces == [] then []
    else
      assert pieces == [pieces[0]] + pieces[1..];
      if pieces[0] == "" then NonEmpty(pieces[1..])
      else [pieces[0]] + NonEmpty(pieces[1..])
  }

  /** The words of a text: its non-empty space-separated tokens. */
  function Words(text: string): (words: seq<string>)
    ensures forall w :: w in words ==> w != "" && ' ' !in w
    ensures multiset(words) == multiset(Split(text))["" := 0]
  {
    NonEmpty(Split(text))
  }

  /** `words.length`: the number of non-empty tokens of `split(" ")`, at most one per character. */
  function WordCount(text: string): (n: nat)
    ensures n == |Split(text)| - multiset(Split(text))[""]
    ensures n <= |text|
  {
    WordCountAtMostLength(text);
    |Words(text)|
  }

  /** Two spaces in a row and a trailing space give empty pieces, which are not words. */
  lemma WordCountExample()
    ensures Split("a  b ") == ["a", "", "b", ""]
    ensures WordCount("a  b ") == 2
  {
    SplitExample();
    var pieces: seq<string> := ["a", "", "b", ""];
    assert Words("a  b ") == NonEmpty(pieces);
  }

  lemma SplitExample()
    ensures Split("a  b ") == ["a", "", "b", ""]
  {
    NoSpaceSplit("a");
    NoSpaceSplit("b");
    NoSpaceSplit("");
    SplitAtSpace("b", "");
    assert "b" + " " + "" == "b ";
    SplitAtSpace("", "b ");
    assert "" + " " + "b " == " b ";
    SplitAtSpace("a", " b ");
    assert "a" + " " + " b " == "a  b ";
  }

  /** Summed word counts of several segments. */
  function TotalWordCount(segments: seq<string>): nat {
    if segments == [] then 0 else WordCount(segments[0]) + TotalWordCount(segments[1..])
  }

  /** Splitting undoes joining: the pieces, put back together with spaces, give the text. */
  lemma {:induction false} SplitJoinRoundTrip(text: string)
    ensures JoinWithSpace(Split(text)) == text
  {
    if text != [] {
      var rest := Split(text[1..]);
      SplitJoinRoundTrip(text[1..]);
      if text[0] == ' ' {
        assert Split(text) == [""] + rest;
        assert Split(text)[1..] == rest;
      } else {
        var p := Split(text);
        assert p[0] == [text[0]] + rest[0];
        if |rest| == 1 {
          assert text == [text[0]] + rest[0];
        } else {
          assert p[1..] == rest[1..];
          assert JoinWithSpace(rest) == rest[0] + " " + JoinWithSpace(rest[1..]);
          assert text == [text[0]] + text[1..];
        }
      }
    }
  }

  /** Joining undoes splitting: transcripts without spaces come back from the joined text. */
  lemma {:induction false} JoinSplitRoundTrip(segments: seq<string>)
    requires |segments| > 0
    requires forall k :: 0 <= k < |segments| ==> ' ' !in segments[k]
    ensures Split(JoinWithSpace(segments)) == segments
  {
    NoSpaceSplit(segments[0]);
    if |segments| > 1 {
      SplitAtSpace(segments[0], JoinWithSpace(segments[1..]));
      JoinSplitRoundTrip(segments[1..]);
      assert segments == [segments[0]] + segments[1..];
    }
  }

  /** A text without spaces is a single piece. */
  lemma {:induction false} NoSpaceSplit(text: string)
    requires ' ' !in text
    ensures Split(text) == [text]
  {
    if text != [] {
      NoSpaceSplit(text[1..]);
      assert text == [text[0]] + text[1..];
    }
  }

  /** A space separates the pieces: the pieces of `a + " " + b` are those of `a` then those of `b`. */
  lemma {:induction false} SplitAtSpace(a: string, b: string)
    ensures Split(a + " " + b) == Split(a) + Split(b)
  {
    if a == [] {
      assert a + " " + b == [' '] + b;
      assert (a + " " + b)[1..] == b;
    } else {
      assert (a + " " + b)[1..] == a[1..] + " " + b;
      SplitAtSpace(a[1..], b);
    }
  }

  lemma {:induction false} NonEmptyAppend(p: seq<string>, q: seq<string>)
    ensures NonEmpty(p + q) == NonEmpty(p) + NonEmpty(q)
  {
    if p != [] {
      var rest := p[1..];
      assert (p + q)[0] == p[0] && (p + q)[1..] == rest + q;
      NonEmptyAppend(rest, q);
      if p[0] == "" {
        assert NonEmpty(p + q) == NonEmpty(rest + q) && NonEmpty(p) == NonEmpty(rest);
      } else {
        assert NonEmpty(p + q) == [p[0]] + NonEmpty(rest + q) && NonEmpty(p) == [p[0]] + NonEmpty(rest);
      }
    } else {
      assert p + q == q;
    }
  }

  /** The count over the joined transcript is the sum of the segments' counts. */
  lemma {:induction false} WordCountOfJoin(segments: seq<string>)
    ensures WordCount(JoinWithSpace(segments)) == TotalWordCount(segments)
  {
    if |segments| == 1 {
      assert segments[1..] == [];
    } else if |segments| > 1 {
      var head, tail := segments[0], JoinWithSpace(segments[1..]);
      SplitAtSpace(head, tail);
      NonEmptyAppend(Split(head), Split(tail));
      WordCountOfJoin(segments[1..]);
    }
  }

  /** Every word takes at least one character of the text, so there are no more words than characters. */
  lemma {:induction false} WordCountAtMostLength(text: string)
    ensures |Words(text)| <= |text|
  {
    if text != [] {
      var rest := Split(text[1..]);
      WordCountAtMostLength(text[1..]);
      if text[0] == ' ' {
        assert Split(text) == [""] + rest;
        assert Split(text)[1..] == rest;
      } else {
        var p := Split(text);
        assert p[0] != "" && p[1..] == rest[1..];
        assert |Words(text)| == 1 + |NonEmpty(rest[1..])|;
        assert rest == [rest[0]] + rest[1..];
        NonEmptyAppend([rest[0]], rest[1..]);
      }
    }
  }

  // ---------------------------------------------------------------------
  // Words per minute
  // ---------------------------------------------------------------------

  /** The value `(words / (elapsedMs / 60000)).toFixed(1)` takes when it is compared
      with a number: a finite value in tenths, Infinity, or NaN. */
  datatype Rate = Tenths(tenths: int) | Infinity | NotANumber

  /** `toFixed(1)` picks the nearest tenth, the larger one on a tie, of the absolute
      value and then restores the sign; this is that rounding on the exact quotient. */
  function WordsPerMinute(words: nat, elapsedMs: int): (r: Rate)
    ensures elapsedMs == 0 ==> r == (if words == 0 then NotANumber else Infinity)
    ensures elapsedMs > 0 ==>
      (r.Tenths? && r.tenths >= 0 &&
       2 * elapsedMs * r.tenths <= 1200000 * words + elapsedMs < 2 * elapsedMs * (r.tenths + 1))
    ensures elapsedMs < 0 ==> r.Tenths? && r.tenths <= 0
  {
    if elapsedMs == 0 then (if words == 0 then NotANumber else Infinity)
    else if elapsedMs > 0 then Tenths((1200000 * words + elapsedMs) / (2 * elapsedMs))
    else Tenths(-((1200000 * words - elapsedMs) / (-2 * elapsedMs)))
  }

  /** `wpm < 80`: NaN and Infinity both compare false. */
  predicate TooSlow(r: Rate): (slow: bool)
    ensures r.NotANumber? || r.Infinity? ==> !slow
  {
    r.Tenths? && r.tenths < 800
  }

  /** `wpm > 200`: Infinity compares true, NaN false. */
  predicate TooFast(r: Rate): (fast: bool)
    ensures r.Infinity? ==> fast
    ensures r.NotANumber? ==> !fast
  {
    r.Infinity? || (r.Tenths? && r.tenths > 2000)
  }

  lemma MulMonotone(a: int, b: int, d: int)
    requires a <= b && d > 0
    ensures a * d <= b * d
  {
    assert b * d - a * d == (b - a) * d;
  }

  lemma DivBelow(n: int, d: int, m: int)
    requires d > 0
    ensures n / d < m <==> n < m * d
  {
    var q, r := n / d, n % d;
    assert n == q * d + r && 0 <= r < d;
    if q < m {
      MulMonotone(q, m - 1, d);
      assert (m - 1) * d == m * d - d;
    } else {
      MulMonotone(m, q, d);
    }
  }

  /** For a positive elapsed time the two speed rules, stated on words and
      milliseconds: slow below 79.95 words per minute, fast from 200.05 on. */
  lemma {:induction false} SpeedRulesExact(words: nat, elapsedMs: int)
    requires elapsedMs > 0
    ensures TooSlow(WordsPerMinute(words, elapsedMs)) <==> 1200000 * words < 1599 * elapsedMs
    ensures TooFast(WordsPerMinute(words, elapsedMs)) <==> 1200000 * words >= 4001 * elapsedMs
  {
    var n, d := 1200000 * words + elapsedMs, 2 * elapsedMs;
    DivBelow(n, d, 800);
    DivBelow(n, d, 2001);
  }

  /** A rate is never both too slow and too fast. */
  lemma SpeedRulesExclusive(r: Rate)
    ensures !(TooSlow(r) && TooFast(r))
  {
  }

  // ---------------------------------------------------------------------
  // Score and label
  // ---------------------------------------------------------------------

  /** The deduction table: start at 100, take 20 for more than 3 pauses, 20 for
      speaking too slowly and 10 for speaking too fast. */
  function Score(pauseCount: nat, rate: Rate): (score: int)
    ensures 60 <= score <= 100 && score % 10 == 0
    ensures pauseCount <= 3 ==> score >= 80
  {
    var score := 100;
    var score := if pauseCount > 3 then score - 20 else score;
    var score := if TooSlow(rate) then score - 20 else score;
    if TooFast(rate) then score - 10 else score
  }

  /** Because the speed rules exclude each other, only five scores occur. */
  lemma ScoreValues(pauseCount: nat, rate: Rate)
    ensures Score(pauseCount, rate) in {60, 70, 80, 90, 100}
    ensures Score(pauseCount, rate) == 100 <==> pauseCount <= 3 && !TooSlow(rate) && !TooFast(rate)
    ensures Score(pauseCount, rate) == 60 <==> pauseCount > 3 && TooSlow(rate)
    ensures Score(pauseCount, rate) == 90 <==> pauseCount <= 3 && TooFast(rate)
    ensures Score(pauseCount, rate) == 70 <==> pauseCount > 3 && TooFast(rate)
    ensures Score(pauseCount, rate) == 80 <==>
      (pauseCount <= 3 && TooSlow(rate)) || (pauseCount > 3 && !TooSlow(rate) && !TooFast(rate))
  {
    SpeedRulesExclusive(rate);
  }

  datatype Bucket = Confident | Moderate | Low

  /** `score >= 80` is confident, `score >= 50` moderate, anything else low. */
  function BucketOf(score: int): (b: Bucket)
    ensures b == Confident <==> score >= 80
    ensures b == Moderate <==> 50 <= score < 80
    ensures b == Low <==> score < 50
  {
    if score >= 80 then Confident else if score >= 50 then Moderate else Low
  }

  const ConfidentPrefix: string := "\U{2705} Confident ("
  const ModeratePrefix: string := "\U{26A0}\U{FE0F} Moderate ("
  const LowPrefix: string := "\U{274C} Low Confidence ("

  /** The text shown before any speech result arrives. */
  const Analyzing: string := "Analyzing..."

  function BucketPrefix(b: Bucket): string {
    match b
    case Confident => ConfidentPrefix
    case Moderate => ModeratePrefix
    case Low => LowPrefix
  }

  /** The confidence text set for a score, e.g. "✅ Confident (90%)": the bucket's
      prefix, the score's numeral (`"" + score`) and "%)". */
  function ConfidenceText(score: int): (text: string)
    ensures BucketPrefix(BucketOf(score)) <= text
    ensures |text| >= |BucketPrefix(BucketOf(score))| + 3 && text[|text| - 2..] == "%)"
  {
    BucketPrefix(BucketOf(score)) + IntToDecimal(score) + "%)"
  }

  /** The number between a label's prefix and its "%)" reads back as the score. */
  lemma LabelShowsScore(score: nat)
    ensures var text, prefix := ConfidenceText(score), BucketPrefix(BucketOf(score));
      && (forall k :: |prefix| <= k < |text| - 2 ==> IsDigit(text[k]))
      && DecimalValue(text[|prefix|..|text| - 2]) == score
  {
    var text, prefix := ConfidenceText(score), BucketPrefix(BucketOf(score));
    assert text[|prefix|..|text| - 2] == NatToDecimal(score);
    DecimalRoundTrip(score);
  }

  lemma NoCapitalL(s: string)
    requires forall k :: 0 <= k < |s| ==> s[k] != 'L'
    ensures !Includes(s, "Low")
  {
    MissingFirstCharNotIncluded(s, "Low");
  }

  /** The trigger's `confidence.includes("Low")` holds of a score's text exactly
      when the score lands in the low bucket. */
  lemma LowTextIffLowBucket(score: int)
    ensures Includes(ConfidenceText(score), "Low") <==> BucketOf(score) == Low
  {
    var digits := IntToDecimal(score);
    if BucketOf(score) == Low {
      assert LowPrefix == "\U{274C} " + "Low" + " Confidence (";
      IncludedAfterPrefix("\U{274C} ", "Low", " Confidence (" + digits + "%)");
      assert ConfidenceText(score) == "\U{274C} " + "Low" + (" Confidence (" + digits + "%)");
    } else {
      var prefix := if BucketOf(score) == Confident then ConfidentPrefix else ModeratePrefix;
      assert ConfidenceText(score) == prefix + digits + "%)";
      NoCapitalL(prefix + digits + "%)");
    }
  }

  /** The scorer never reaches the low bucket, so its text never includes "Low":
      the voice channel can never fire the comfort kit. */
  lemma ScoredTextNeverLow(pauseCount: nat, rate: Rate)
    ensures BucketOf(Score(pauseCount, rate)) != Low
    ensures !Includes(ConfidenceText(Score(pauseCount, rate)), "Low")
  {
    ScoreValues(pauseCount, rate);
    LowTextIffLowBucket(Score(pauseCount, rate));
  }

  /** The initial text does not include "Low" either. */
  lemma AnalyzingNotLow()
    ensures !Includes(Analyzing, "Low")
  {
    NoCapitalL(Analyzing);
  }

  /** The text one speech result produces, from the pause count after the result,
      the segments' transcripts and the time since listening started. */
  function ResultText(pauseCount: nat, segments: seq<string>, elapsedMs: int): (text: string)
    ensures !Includes(text, "Low")
  {
    ScoredTextNeverLow(pauseCount, WordsPerMinute(WordCount(JoinWithSpace(segments)), elapsedMs));
    ConfidenceText(Score(pauseCount, WordsPerMinute(WordCount(JoinWithSpace(segments)), elapsedMs)))
  }

  /** A speech result always sets the Confident or the Moderate label. */
  lemma ResultTextBucket(pauseCount: nat, segments: seq<string>, elapsedMs: int)
    ensures BucketPrefix(Confident) <= ResultText(pauseCount, segments, elapsedMs)
      || BucketPrefix(Moderate) <= ResultText(pauseCount, segments, elapsedMs)
  {
  }
}
