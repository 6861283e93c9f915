/**
 * The display helpers of the mobile results screen (AnalizaTuPc/App.js): `formatScore` turns a
 * fraction or a percentage into a whole percentage, and `getScoreColor` / `getScoreLabel` map a
 * score to a colour and a word over the same 80/60/40 bands.
 */
module ResultsScreen {
  import opened JsNumber
  import LocalAnalysis

  /** The four bands both helpers distinguish. */
  datatype Band = Excellent | Good | Fair | Basic

  function BandOf(score: real): Band
  {
    if score >= 80.0 then Excellent
    else if score >= 60.0 then Good
    else if score >= 40.0 then Fair
    else Basic
  }

  /** The colour and the word of each band. */
  function BandColor(b: Band): string
  {
    match b
    case Excellent => "#4ade80"
    case Good => "#fbbf24"
    case Fair => "#fb923c"
    case Basic => "#f87171"
  }

  function BandLabel(b: Band): string
  {
    match b
    case Excellent => "Excelente"
    case Good => "Bueno"
    case Fair => "Regular"
    case Basic => "Básico"
  }

  /** `getScoreColor`: green from 80, amber from 60, orange from 40, red below. */
  function ScoreColor(score: real): (c: string)
    ensures c == "#4ade80" <==> score >= 80.0
    ensures c == "#fbbf24" <==> 60.0 <= score < 80.0
    ensures c == "#fb923c" <==> 40.0 <= score < 60.0
    ensures c == "#f87171" <==> score < 40.0
  {
    if score >= 80.0 then "#4ade80"
    else if score >= 60.0 then "#fbbf24"
    else if score >= 40.0 then "#fb923c"
    else "#f87171"
  }

  /** `getScoreLabel`: the same thresholds, in words. */
  function ScoreLabel(score: real): (l: string)
    ensures l == "Excelente" <==> score >= 80.0
    ensures l == "Bueno" <==> 60.0 <= score < 80.0
    ensures l == "Regular" <==> 40.0 <= score < 60.0
    ensures l == "Básico" <==> score < 40.0
  {
    if score >= 80.0 then "Excelente"
    else if score >= 60.0 then "Bueno"
    else if score >= 40.0 then "Regular"
    else "Básico"
  }

  /**
   * Colour and label always describe the same band, so the badge colour can be read off the
   * label and back: two scores with the same label get the same colour and vice versa.
   */
  lemma ColorAndLabelAgree(s: real, t: real)
    ensures ScoreColor(s) == BandColor(BandOf(s)) && ScoreLabel(s) == BandLabel(BandOf(s))
    ensures ScoreColor(s) == ScoreColor(t) <==> ScoreLabel(s) == ScoreLabel(t)
  {
  }

  /** A better score never lands in a worse band. */
  lemma BandMonotone(s: real, t: real)
    requires s <= t
    ensures BandOf(s) == Excellent ==> BandOf(t) == Excellent
    ensures BandOf(t) == Basic ==> BandOf(s) == Basic
    ensures BandOf(s) == Good ==> BandOf(t) in {Good, Excellent}
  {
  }

  /** `formatScore`: a score up to 1 is a fraction and is scaled to a percentage; larger ones are rounded. */
  function FormatScore(score: real): (r: int)
    ensures score <= 1.0 ==> r as real - 0.5 <= score * 100.0 < r as real + 0.5
    ensures score > 1.0 ==> r as real - 0.5 <= score < r as real + 0.5
    ensures 0.0 <= score <= 1.0 ==> 0 <= r <= 100
    ensures 1.0 < score <= 100.0 ==> 1 <= r <= 100
  {
    if score <= 1.0 then JsRound(score * 100.0) else JsRound(score)
  }

  /**
   * A whole percentage from 2 to 100 is shown the same whether it arrives as a fraction or as a
   * percentage: 0.5 and 50 both show 50.
   */
  lemma FormatScoreScales(k: int)
    requires 2 <= k <= 100
    ensures FormatScore(k as real / 100.0) == k
    ensures FormatScore(k as real) == k
  {
    JsRoundOfInt(k);
    assert k as real / 100.0 * 100.0 == k as real;
  }

  /** The boundary between the two readings: 1 is read as 100 %, anything just above it as 1 %. */
  lemma FormatScoreBoundary()
    ensures FormatScore(1.0) == 100
    ensures FormatScore(1.01) == 1
  {
    JsRoundOfInt(100);
    JsRoundOfInt(1);
  }

  /**
   * Every score of a local analysis (a base of 50 to 100, categories of 43 to 100) is shown as
   * itself and never gets the 'Básico' label.
   */
  lemma LocalScoresNeverBasic(data: LocalAnalysis.AnalysisData)
    ensures ScoreLabel(FormatScore(LocalAnalysis.BaseScore(data) as real) as real) != "Básico"
    ensures forall i :: 0 <= i < 5 ==>
      ScoreLabel(FormatScore(LocalAnalysis.CategoryScores(data.gpu_model, LocalAnalysis.Parsed(data),
                                                          LocalAnalysis.BaseScore(data))[i].1 as real) as real)
        != "Básico"
  {
    var base := LocalAnalysis.BaseScore(data);
    FormatScoreScales(base);
    var scores := LocalAnalysis.CategoryScores(data.gpu_model, LocalAnalysis.Parsed(data), base);
    LocalAnalysis.CategoryScoresFloor(data.gpu_model, LocalAnalysis.Parsed(data), base);
    forall i | 0 <= i < 5
      ensures ScoreLabel(FormatScore(scores[i].1 as real) as real) != "Básico"
    {
      FormatScoreScales(scores[i].1);
    }
  }
}
