/** The four result bands of the prediction page and the result record a
    submit produces: score, category label, recommendation text, colour token. */
module Banding {
  import opened Scoring

  datatype Band = Excellent | Good | Moderate | Low

  /** The result record shown after a successful submit. */
  datatype Prediction = Prediction(score: int, category: string, recommendations: string, color: string)

  /** The score range each band covers, stated independently of the ladder. */
  predicate InBand(b: Band, score: int) {
    match b
    case Excellent => 80 <= score
    case Good => 60 <= score < 80
    case Moderate => 40 <= score < 60
    case Low => score < 40
  }

  /** The if/else ladder of the submit handler: tests 80, 60 and 40 in turn. */
  function BandOf(score: int): Band {
    if score >= 80 then Excellent
    else if score >= 60 then Good
    else if score >= 40 then Moderate
    else Low
  }

  function Category(b: Band): string {
    match b
    case Excellent => "🟢 Performa Sangat Baik"
    case Good => "🟡 Performa Baik"
    case Moderate => "🟠 Performa Sedang"
    case Low => "🔴 Performa Rendah"
  }

  function Recommendation(b: Band): string {
    match b
    case Excellent => "Pertahankan standar operasional yang tinggi dan fokus pada inovasi berkelanjutan."
    case Good => "Tingkatkan efisiensi operasional dan kurangi tingkat cacat produksi."
    case Moderate => "Perlu perbaikan pada sistem produksi dan manajemen kualitas."
    case Low => "Diperlukan evaluasi menyeluruh dan perbaikan sistem operasional."
  }

  function Color(b: Band): string {
    match b
    case Excellent => "from-green-500 to-green-600"
    case Good => "from-yellow-500 to-orange-500"
    case Moderate => "from-orange-500 to-red-500"
    case Low => "from-red-500 to-red-600"
  }

  /** The result record for a score: the score and the three strings of the
      band whose range contains it. */
  function Classify(score: int): (p: Prediction)
    ensures p.score == score
    ensures forall b :: InBand(b, score) ==>
      p == Prediction(score, Category(b), Recommendation(b), Color(b))
  {
    var b := BandOf(score);
    Prediction(score, Category(b), Recommendation(b), Color(b))
  }

  /** Classification is total and exclusive: the ladder picks band b exactly
      when the score lies in b's range, and no score lies in two ranges. */
  lemma BandOfExact(score: int, b: Band)
    ensures BandOf(score) == b <==> InBand(b, score)
  {
  }

  /** The category label and the colour token each identify the band: no two
      bands share one (the labels differ in their leading emoji, the tokens in
      their sixth character). */
  lemma {:induction false} BandStringsDistinct(b: Band, c: Band)
    requires b != c
    ensures Category(b) != Category(c)
    ensures Color(b) != Color(c)
  {
    assert Category(b)[0] != Category(c)[0];
    assert Color(b)[5] != Color(c)[5];
  }

  /** At the boundaries: 80 gets the green token, and 80, 60 and 40 belong
      to the upper band while 79, 59 and 39 belong to the lower one. */
  lemma ClassifyBoundaries()
    ensures Classify(80).color == "from-green-500 to-green-600"
    ensures Classify(79).category == "🟡 Performa Baik"
    ensures Classify(60).category == "🟡 Performa Baik"
    ensures Classify(59).category == "🟠 Performa Sedang"
    ensures Classify(40).category == "🟠 Performa Sedang"
    ensures Classify(39).category == "🔴 Performa Rendah"
  {
  }

  /** The band of the final score, read off the unrounded score: a tie at
      .5 is rounded up, so 79.5 already reaches the top band. */
  lemma {:induction false} BandOfRawScore(i: ScoreInputs)
    ensures BandOf(Score(i)) == Excellent <==> RawScore(i) >= 79.5
    ensures BandOf(Score(i)) == Good <==> 59.5 <= RawScore(i) < 79.5
    ensures BandOf(Score(i)) == Moderate <==> 39.5 <= RawScore(i) < 59.5
    ensures BandOf(Score(i)) == Low <==> RawScore(i) < 39.5
  {
    ScoreIsRoundedRawClamped(i);
  }
}
