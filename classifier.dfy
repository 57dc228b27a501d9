/**
 * The keyword-bucket emotion classifier: per-category keyword counts over
 * the words of a text, normalised into a distribution, a weighted arg-max
 * prediction, and an additive weight update clamped to [0.1, 1] with a
 * capped training log.
 */
module Classifier {
  import opened Text

  datatype Category = Romantic | Intellectual | Emotional | Creative | Spiritual

  /** The key order of the score and weight records, which every loop follows. */
  const Categories: seq<Category> := [Romantic, Intellectual, Emotional, Creative, Spiritual]

  function Index(c: Category): (k: nat)
    ensures k < |Categories| && Categories[k] == c
  {
    match c
    case Romantic => 0
    case Intellectual => 1
    case Emotional => 2
    case Creative => 3
    case Spiritual => 4
  }

  /** The key under which a category is stored, and the label `train` compares against. */
  function Name(c: Category): string {
    match c
    case Romantic => "romantic"
    case Intellectual => "intellectual"
    case Emotional => "emotional"
    case Creative => "creative"
    case Spiritual => "spiritual"
  }

  function Keywords(c: Category): seq<string> {
    match c
    case Romantic => ["love", "heart", "kiss", "hug", "romance", "passion"]
    case Intellectual => ["think", "mind", "idea", "concept", "philosophy", "knowledge"]
    case Emotional => ["feel", "emotion", "sad", "happy", "excited", "nervous"]
    case Creative => ["create", "art", "poetry", "music", "write", "paint"]
    case Spiritual => ["soul", "spirit", "divine", "god", "universe", "eternal"]
  }

  /** A word counts for a category when one of its keywords occurs inside the word. */
  predicate Matches(word: string, c: Category) {
    AnyIn(word, Keywords(c))
  }

  /** A record with one real per category: the scores and the weights. */
  datatype PerCategory = PerCategory(romantic: real, intellectual: real, emotional: real, creative: real, spiritual: real)
  {
    function Get(c: Category): real {
      match c
      case Romantic => romantic
      case Intellectual => intellectual
      case Emotional => emotional
      case Creative => creative
      case Spiritual => spiritual
    }

    function Set(c: Category, v: real): (r: PerCategory)
      ensures r.Get(c) == v
      ensures forall d :: d != c ==> r.Get(d) == Get(d)
    {
      match c
      case Romantic => this.(romantic := v)
      case Intellectual => this.(intellectual := v)
      case Emotional => this.(emotional := v)
      case Creative => this.(creative := v)
      case Spiritual => this.(spiritual := v)
    }

    function Sum(): real {
      romantic + intellectual + emotional + creative + spiritual
    }
  }

  const Zero: PerCategory := PerCategory(0.0, 0.0, 0.0, 0.0, 0.0)

  /** Two records that agree on every category are the same record. */
  lemma Extensional(p: PerCategory, q: PerCategory)
    requires forall c :: p.Get(c) == q.Get(c)
    ensures p == q
  {
    assert p.Get(Romantic) == q.Get(Romantic) && p.Get(Intellectual) == q.Get(Intellectual);
    assert p.Get(Emotional) == q.Get(Emotional) && p.Get(Creative) == q.Get(Creative);
    assert p.Get(Spiritual) == q.Get(Spiritual);
  }

  /** How many of the words count for category `c`. */
  function Count(words: seq<string>, c: Category): (n: nat)
    ensures n <= |words|
    decreases |words|
  {
    if words == [] then 0
    else Count(words[..|words| - 1], c) + (if Matches(words[|words| - 1], c) then 1 else 0)
  }

  /** One more word adds one to the count of every category it hits. */
  lemma CountStep(words: seq<string>, i: nat, c: Category)
    requires i < |words|
    ensures Count(words[..i + 1], c) == Count(words[..i], c) + (if Matches(words[i], c) then 1 else 0)
  {
    assert words[..i + 1][..i] == words[..i];
  }

  /** A category's count is zero exactly when none of the words hits it. */
  lemma {:induction false} CountZeroIff(words: seq<string>, c: Category)
    ensures Count(words, c) == 0 <==> forall i :: 0 <= i < |words| ==> !Matches(words[i], c)
    decreases |words|
  {
    if words != [] {
      var init := words[..|words| - 1];
      CountZeroIff(init, c);
      assert forall i :: 0 <= i < |init| ==> init[i] == words[i];
    }
  }

  /** The raw per-category counts `analyzeText` accumulates before normalising. */
  function Counts(words: seq<string>): PerCategory {
    PerCategory(Count(words, Romantic) as real, Count(words, Intellectual) as real,
                Count(words, Emotional) as real, Count(words, Creative) as real,
                Count(words, Spiritual) as real)
  }

  lemma CountsGet(words: seq<string>, c: Category)
    ensures Counts(words).Get(c) == Count(words, c) as real
  {
  }

  /** Division by a positive total. */
  function Div(x: real, t: real): real
    requires t > 0.0
  {
    x / t
  }

  /** Divides every entry by the total, unless the total is zero. */
  function Normalize(p: PerCategory): PerCategory {
    var t := p.Sum();
    if t > 0.0 then PerCategory(Div(p.romantic, t), Div(p.intellectual, t), Div(p.emotional, t), Div(p.creative, t), Div(p.spiritual, t))
    else p
  }

  /** The score record `analyzeText` returns. */
  function Analysis(text: string): PerCategory {
    Normalize(Counts(Words(text)))
  }

  /** A category scores 0 exactly when none of the text's words hits one of its keywords. */
  lemma AnalysisZeroIff(text: string, c: Category)
    ensures Analysis(text).Get(c) == 0.0 <==> forall i :: 0 <= i < |Words(text)| ==> !Matches(Words(text)[i], c)
  {
    var counts := Counts(Words(text));
    forall d ensures counts.Get(d) >= 0.0 {
      CountsGet(Words(text), d);
    }
    NormalizeZeroIff(counts, c);
    CountsGet(Words(text), c);
    CountZeroIff(Words(text), c);
  }

  /** Normalising non-negative entries keeps exactly the zero entries at zero. */
  lemma NormalizeZeroIff(p: PerCategory, c: Category)
    requires forall d :: p.Get(d) >= 0.0
    ensures Normalize(p).Get(c) == 0.0 <==> p.Get(c) == 0.0
  {
    var t := p.Sum();
    if t > 0.0 {
      var x := p.Get(c);
      assert Normalize(p).Get(c) == Div(x, t);
      assert Div(x, t) * t == x;
    }
  }

  /** Some keyword of some category occurs in the word. */
  predicate Hits(word: string) {
    Matches(word, Romantic) || Matches(word, Intellectual) || Matches(word, Emotional) || Matches(word, Creative) || Matches(word, Spiritual)
  }

  /** Some word of the list hits a category. */
  predicate AnyHit(words: seq<string>) {
    exists i :: 0 <= i < |words| && Hits(words[i])
  }

  /** A record of non-negative entries with one positive entry has a positive sum. */
  lemma PositiveEntry(p: PerCategory, c: Category)
    requires forall d :: p.Get(d) >= 0.0
    requires p.Get(c) > 0.0
    ensures p.Sum() > 0.0
  {
    assert p.Get(Romantic) >= 0.0 && p.Get(Intellectual) >= 0.0 && p.Get(Emotional) >= 0.0;
    assert p.Get(Creative) >= 0.0 && p.Get(Spiritual) >= 0.0;
  }

  /** When some word hits a keyword, the counts add up to more than zero. */
  lemma CountsPositive(words: seq<string>)
    requires AnyHit(words)
    ensures Counts(words).Sum() > 0.0
  {
    var i :| 0 <= i < |words| && Hits(words[i]);
    var c: Category;
    if Matches(words[i], Romantic) {
      c := Romantic;
    } else if Matches(words[i], Intellectual) {
      c := Intellectual;
    } else if Matches(words[i], Emotional) {
      c := Emotional;
    } else if Matches(words[i], Creative) {
      c := Creative;
    } else {
      c := Spiritual;
    }
    CountPositive(words, i, c);
    PositiveEntry(Counts(words), c);
  }

  /** A word that hits category `c` makes its count positive. */
  lemma CountPositive(words: seq<string>, i: int, c: Category)
    requires 0 <= i < |words| && Matches(words[i], c)
    ensures Counts(words).Get(c) > 0.0
  {
    CountZeroIff(words, c);
    CountsGet(words, c);
  }

  /** When no word hits a keyword, every count is zero. */
  lemma CountsZero(words: seq<string>)
    requires !AnyHit(words)
    ensures forall c :: Counts(words).Get(c) == 0.0
  {
    forall c ensures Count(words, c) == 0 {
      CountZeroIff(words, c);
    }
  }

  /** `x / t` lies in [0, 1] when `x` lies in [0, t]. */
  lemma Fraction(x: real, t: real)
    requires 0.0 <= x <= t && t > 0.0
    ensures 0.0 <= Div(x, t) <= 1.0
  {
    assert x / t * t == x;
  }

  /** Five parts divided by their positive total add up to 1. */
  lemma FractionsSum(a: real, b: real, c: real, d: real, e: real, t: real)
    requires t == a + b + c + d + e && t > 0.0
    ensures Div(a, t) + Div(b, t) + Div(c, t) + Div(d, t) + Div(e, t) == 1.0
  {
    assert a / t + b / t + c / t + d / t + e / t == (a + b + c + d + e) / t;
  }

  /** Normalising non-negative entries with a positive total yields a distribution. */
  lemma NormalizeIsDistribution(p: PerCategory)
    requires forall c :: p.Get(c) >= 0.0
    requires p.Sum() > 0.0
    ensures forall c :: 0.0 <= Normalize(p).Get(c) <= 1.0
    ensures Normalize(p).Sum() == 1.0
  {
    var t := p.Sum();
    assert p.Get(Romantic) >= 0.0 && p.Get(Intellectual) >= 0.0 && p.Get(Emotional) >= 0.0;
    assert p.Get(Creative) >= 0.0 && p.Get(Spiritual) >= 0.0;
    Fraction(p.romantic, t);
    Fraction(p.intellectual, t);
    Fraction(p.emotional, t);
    Fraction(p.creative, t);
    Fraction(p.spiritual, t);
    FractionsSum(p.romantic, p.intellectual, p.emotional, p.creative, p.spiritual, t);
  }

  /**
   * The classifier bound: every score lies in [0, 1]; the scores add up to 1
   * exactly when some word hit a keyword, and are all 0 otherwise.
   */
  lemma AnalysisIsDistribution(text: string)
    ensures forall c :: 0.0 <= Analysis(text).Get(c) <= 1.0
    ensures Analysis(text).Sum() == 1.0 <==> AnyHit(Words(text))
    ensures !AnyHit(Words(text)) ==> forall c :: Analysis(text).Get(c) == 0.0
  {
    NormalizedCountsIsDistribution(Words(text));
  }

  /** The bound above, stated over the list of words. */
  lemma NormalizedCountsIsDistribution(words: seq<string>)
    ensures forall c :: 0.0 <= Normalize(Counts(words)).Get(c) <= 1.0
    ensures Normalize(Counts(words)).Sum() == 1.0 <==> AnyHit(words)
    ensures !AnyHit(words) ==> forall c :: Normalize(Counts(words)).Get(c) == 0.0
  {
    var p := Counts(words);
    if AnyHit(words) {
      CountsPositive(words);
      NormalizeIsDistribution(p);
    } else {
      CountsZero(words);
      ZeroIsFixed(p);
    }
  }

  /** A record of zeros is left as it is by normalisation. */
  lemma ZeroIsFixed(p: PerCategory)
    requires forall c :: p.Get(c) == 0.0
    ensures Normalize(p) == p
    ensures p.Sum() == 0.0
  {
    assert p.Get(Romantic) == 0.0 && p.Get(Intellectual) == 0.0 && p.Get(Emotional) == 0.0;
    assert p.Get(Creative) == 0.0 && p.Get(Spiritual) == 0.0;
  }

  /** The predicted label: a category, or `neutral` when nothing scores. */
  datatype Emotion = Neutral | Of(category: Category)

  /** The result of `predictEmotion`. */
  datatype Prediction = Prediction(emotion: Emotion, confidence: real, breakdown: PerCategory)

  /** Each category's score multiplied by its weight. */
  function Weighted(scores: PerCategory, weights: PerCategory): PerCategory {
    PerCategory(scores.romantic * weights.romantic, scores.intellectual * weights.intellectual,
                scores.emotional * weights.emotional, scores.creative * weights.creative,
                scores.spiritual * weights.spiritual)
  }

  lemma WeightedGet(scores: PerCategory, weights: PerCategory, c: Category)
    ensures Weighted(scores, weights).Get(c) == scores.Get(c) * weights.Get(c)
  {
  }

  /**
   * What the running maximum knows after the first `k` categories: `best`
   * is at least every weighted score seen, it is 0 while the pick is
   * `neutral`, and a picked category is the first one that reaches `best`.
   */
  ghost predicate ScanInv(ws: PerCategory, k: nat, best: real, pick: Emotion) {
    && k <= |Categories|
    && 0.0 <= best
    && (forall j :: 0 <= j < k ==> ws.Get(Categories[j]) <= best)
    && (pick == Neutral ==> best == 0.0)
    && (pick.Of? ==>
          && Index(pick.category) < k
          && ws.Get(pick.category) == best
          && 0.0 < best
          && forall j :: 0 <= j < Index(pick.category) ==> ws.Get(Categories[j]) < best)
  }

  /** The loop of `predictEmotion` from category `k` on, with a strict `>` test. */
  function Scan(ws: PerCategory, k: nat, best: real, pick: Emotion): (r: (Emotion, real))
    requires k <= |Categories|
    requires ScanInv(ws, k, best, pick)
    ensures ScanInv(ws, |Categories|, r.1, r.0)
    decreases |Categories| - k
  {
    if k == |Categories| then (pick, best)
    else
      var c := Categories[k];
      if ws.Get(c) > best then Scan(ws, k + 1, ws.Get(c), Of(c))
      else Scan(ws, k + 1, best, pick)
  }

  /**
   * `predictEmotion` on a score record: `neutral` with confidence 0 when no
   * weighted score is positive; otherwise the first category, in key order,
   * whose weighted score is the largest, with that score as confidence.
   */
  function Predict(scores: PerCategory, weights: PerCategory): (p: Prediction)
    ensures p.breakdown == scores
    ensures p.emotion == Neutral <==> forall c :: Weighted(scores, weights).Get(c) <= 0.0
    ensures p.emotion == Neutral ==> p.confidence == 0.0
    ensures p.emotion.Of? ==>
              && p.confidence == Weighted(scores, weights).Get(p.emotion.category)
              && (forall c :: Weighted(scores, weights).Get(c) <= p.confidence)
              && (forall c :: Index(c) < Index(p.emotion.category) ==> Weighted(scores, weights).Get(c) < p.confidence)
  {
    var ws := Weighted(scores, weights);
    var r := Scan(ws, 0, 0.0, Neutral);
    assert forall c :: ws.Get(c) == ws.Get(Categories[Index(c)]);
    Prediction(r.0, r.1, scores)
  }

  /** With scores and weights in [0, 1], the confidence is in [0, 1] too. */
  lemma ConfidenceBounded(scores: PerCategory, weights: PerCategory)
    requires forall c :: 0.0 <= scores.Get(c) <= 1.0
    requires forall c :: 0.0 <= weights.Get(c) <= 1.0
    ensures 0.0 <= Predict(scores, weights).confidence <= 1.0
  {
    WeightedBounded(scores, weights);
  }

  /** Weighting keeps every score in [0, 1] when the weights are in [0, 1]. */
  lemma WeightedBounded(scores: PerCategory, weights: PerCategory)
    requires forall c :: 0.0 <= scores.Get(c) <= 1.0
    requires forall c :: 0.0 <= weights.Get(c) <= 1.0
    ensures forall c :: 0.0 <= Weighted(scores, weights).Get(c) <= 1.0
  {
    forall c: Category
      ensures 0.0 <= Weighted(scores, weights).Get(c) <= 1.0
    {
      WeightedGet(scores, weights, c);
      ProductBound(scores.Get(c), weights.Get(c));
    }
  }

  /** The product of two numbers in [0, 1] is in [0, 1]. */
  lemma ProductBound(x: real, y: real)
    requires 0.0 <= x <= 1.0 && 0.0 <= y <= 1.0
    ensures 0.0 <= x * y <= 1.0
  {
    NonNegativeProduct(x, 1.0 - y);
    NonNegativeProduct(x, y);
  }

  lemma NonNegativeProduct(x: real, y: real)
    requires 0.0 <= x && 0.0 <= y
    ensures x * y >= 0.0
  {
  }

  const MinWeight: real := 0.1
  const MaxWeight: real := 1.0
  const MaxTrainingRecords: nat := 1000

  /** `Math.max(0.1, Math.min(1, x))`. */
  function Clamp(x: real): (r: real)
    ensures MinWeight <= r <= MaxWeight
    ensures MinWeight <= x <= MaxWeight ==> r == x
  {
    if x > MaxWeight then MaxWeight else if x < MinWeight then MinWeight else x
  }

  /** One weight after training: raised by `rate * (1 - confidence)` for the expected label, lowered by `rate * confidence` otherwise. */
  function Adjusted(w: real, expected: bool, rate: real, confidence: real): (r: real)
    ensures MinWeight <= r <= MaxWeight
  {
    if expected then Clamp(w + rate * (1.0 - confidence)) else Clamp(w - rate * confidence)
  }

  /** All the weights after one training step. */
  function Retrained(weights: PerCategory, expected: string, rate: real, confidence: real): (r: PerCategory)
    ensures forall c :: MinWeight <= r.Get(c) <= MaxWeight
    ensures forall c :: r.Get(c) == Adjusted(weights.Get(c), Name(c) == expected, rate, confidence)
  {
    PerCategory(
      Adjusted(weights.romantic, Name(Romantic) == expected, rate, confidence),
      Adjusted(weights.intellectual, Name(Intellectual) == expected, rate, confidence),
      Adjusted(weights.emotional, Name(Emotional) == expected, rate, confidence),
      Adjusted(weights.creative, Name(Creative) == expected, rate, confidence),
      Adjusted(weights.spiritual, Name(Spiritual) == expected, rate, confidence))
  }

  /**
   * Training moves the expected label's weight up (or keeps it) and every
   * other weight down (or keeps it), for weights in range and a confidence
   * in [0, 1].
   */
  lemma RetrainDirection(weights: PerCategory, expected: string, rate: real, confidence: real, c: Category)
    requires MinWeight <= weights.Get(c) <= MaxWeight
    requires 0.0 <= rate && 0.0 <= confidence <= 1.0
    ensures Name(c) == expected ==> Retrained(weights, expected, rate, confidence).Get(c) >= weights.Get(c)
    ensures Name(c) != expected ==> Retrained(weights, expected, rate, confidence).Get(c) <= weights.Get(c)
  {
    AdjustedDirection(weights.Get(c), Name(c) == expected, rate, confidence);
  }

  /** The direction of one weight's update. */
  lemma AdjustedDirection(w: real, expected: bool, rate: real, confidence: real)
    requires MinWeight <= w <= MaxWeight
    requires 0.0 <= rate && 0.0 <= confidence <= 1.0
    ensures expected ==> Adjusted(w, expected, rate, confidence) >= w
    ensures !expected ==> Adjusted(w, expected, rate, confidence) <= w
  {
    NonNegativeProduct(rate, 1.0 - confidence);
    NonNegativeProduct(rate, confidence);
  }

  /** One entry of the training log. */
  datatype TrainingRecord = TrainingRecord(text: string, predicted: Emotion, expected: string, timestamp: string)

  /** `push` the record, then `shift` the oldest when the log is over capacity. */
  function Logged(log: seq<TrainingRecord>, rec: TrainingRecord): (r: seq<TrainingRecord>)
    ensures 1 <= |r| <= |log| + 1 && r[|r| - 1] == rec
    ensures r == (log + [rec])[|log| + 1 - |r|..]
    ensures |log| <= MaxTrainingRecords ==> |r| <= MaxTrainingRecords
    ensures |log| < MaxTrainingRecords ==> r == log + [rec]
    ensures |r| == if |log| < MaxTrainingRecords then |log| + 1 else |log|
  {
    var pushed := log + [rec];
    if |pushed| > MaxTrainingRecords then pushed[1..] else pushed
  }

  /** The weights a fresh network starts with. */
  const InitialWeights: PerCategory := PerCategory(0.7, 0.6, 0.8, 0.5, 0.4)

  const LearningRate: real := 0.1

  class NeuralLoveNetwork {
    var weights: PerCategory
    const learningRate: real
    var trainingData: seq<TrainingRecord>

    /** Every weight is in [0.1, 1] and the log is within its capacity. */
    ghost predicate Valid()
      reads this
    {
      && (forall c :: MinWeight <= weights.Get(c) <= MaxWeight)
      && |trainingData| <= MaxTrainingRecords
      && learningRate == LearningRate
    }

    /** `initializeWeights`, a learning rate of 0.1 and an empty log. */
    constructor ()
      ensures Valid()
      ensures weights == InitialWeights && trainingData == []
    {
      weights := InitialWeights;
      learningRate := LearningRate;
      trainingData := [];
    }

    /** `analyzeText`: counts the words per category, then divides by the total. */
    method AnalyzeText(text: string) returns (scores: PerCategory)
      ensures scores == Analysis(text)
      ensures forall c :: 0.0 <= scores.Get(c) <= 1.0
      ensures scores.Sum() == 1.0 <==> AnyHit(Words(text))
      ensures !AnyHit(Words(text)) ==> forall c :: scores.Get(c) == 0.0
    {
      var words := Split(Lower(text));
      scores := CountKeywords(words);
      scores := NormalizeScores(scores);
      AnalysisIsDistribution(text);
    }

    /** `predictEmotion`: the first strict arg-max of weight times score, `neutral` by default. */
    method PredictEmotion(text: string) returns (p: Prediction)
      ensures p == Predict(Analysis(text), weights)
      ensures Valid() ==> 0.0 <= p.confidence <= 1.0
    {
      var analysis := AnalyzeText(text);
      var predicted, maxScore := StrongestWeighted(analysis, weights);
      p := Prediction(predicted, maxScore, analysis);
      if Valid() {
        ConfidenceBounded(analysis, weights);
      }
    }

    /**
     * `train`: one additive update of every weight, each clamped to
     * [0.1, 1], and one record appended to the capped log.
     */
    method Train(text: string, expected: string, now: string)
      requires Valid()
      modifies this`weights, this`trainingData
      ensures Valid()
      ensures weights == Retrained(old(weights), expected, learningRate, Predict(Analysis(text), old(weights)).confidence)
      ensures trainingData == Logged(old(trainingData),
                TrainingRecord(text, Predict(Analysis(text), old(weights)).emotion, expected, now))
    {
      var prediction := PredictEmotion(text);
      weights := Reweigh(weights, expected, learningRate, prediction.confidence);
      trainingData := trainingData + [TrainingRecord(text, prediction.emotion, expected, now)];
      if |trainingData| > MaxTrainingRecords {
        trainingData := trainingData[1..];
      }
    }
  }

  /** The counting loops of `analyzeText`: one pass over the words, one over the categories per word. */
  method CountKeywords(words: seq<string>) returns (scores: PerCategory)
    ensures scores == Counts(words)
  {
    scores := Zero;
    var i := 0;
    while i < |words|
      invariant 0 <= i <= |words|
      invariant forall c :: scores.Get(c) == Count(words[..i], c) as real
    {
      var next := Tally(scores, words[i]);
      forall c ensures next.Get(c) == Count(words[..i + 1], c) as real {
        CountStep(words, i, c);
      }
      scores := next;
      i := i + 1;
    }
    assert words[..|words|] == words;
    forall c ensures scores.Get(c) == Counts(words).Get(c) {
      CountsGet(words, c);
    }
    Extensional(scores, Counts(words));
  }

  /** The inner loop: adds one to every category the word hits. */
  method Tally(scores: PerCategory, word: string) returns (r: PerCategory)
    ensures forall c :: r.Get(c) == scores.Get(c) + (if Matches(word, c) then 1.0 else 0.0)
  {
    r := scores;
    var k := 0;
    while k < |Categories|
      invariant 0 <= k <= |Categories|
      invariant forall c :: Index(c) < k ==> r.Get(c) == scores.Get(c) + (if Matches(word, c) then 1.0 else 0.0)
      invariant forall c :: k <= Index(c) ==> r.Get(c) == scores.Get(c)
    {
      var c := Categories[k];
      if Matches(word, c) {
        r := r.Set(c, r.Get(c) + 1.0);
      }
      k := k + 1;
    }
  }

  /** The normalising loop of `analyzeText`: each score divided by the total when the total is positive. */
  method NormalizeScores(raw: PerCategory) returns (scores: PerCategory)
    ensures scores == Normalize(raw)
  {
    scores := raw;
    var total := raw.Sum();
    if total > 0.0 {
      var k := 0;
      while k < |Categories|
        invariant 0 <= k <= |Categories|
        invariant forall c :: Index(c) < k ==> scores.Get(c) == Div(raw.Get(c), total)
        invariant forall c :: k <= Index(c) ==> scores.Get(c) == raw.Get(c)
      {
        var c := Categories[k];
        scores := scores.Set(c, Div(scores.Get(c), total));
        k := k + 1;
      }
      Extensional(scores, Normalize(raw));
    }
  }

  /** The loop of `predictEmotion`: the strict running maximum of score times weight, in key order. */
  method StrongestWeighted(scores: PerCategory, weights: PerCategory) returns (predicted: Emotion, maxScore: real)
    ensures (predicted, maxScore) == Scan(Weighted(scores, weights), 0, 0.0, Neutral)
  {
    maxScore := 0.0;
    predicted := Neutral;
    ghost var ws := Weighted(scores, weights);
    var k := 0;
    while k < |Categories|
      invariant 0 <= k <= |Categories|
      invariant ScanInv(ws, k, maxScore, predicted)
      invariant Scan(ws, k, maxScore, predicted) == Scan(ws, 0, 0.0, Neutral)
    {
      var c := Categories[k];
      var weightedScore := scores.Get(c) * weights.Get(c);
      WeightedGet(scores, weights, c);
      if weightedScore > maxScore {
        maxScore := weightedScore;
        predicted := Of(c);
      }
      k := k + 1;
    }
  }

  /** The loop of `train`: every weight moved by the learning rate and clamped. */
  method Reweigh(weights: PerCategory, expected: string, rate: real, confidence: real) returns (r: PerCategory)
    ensures r == Retrained(weights, expected, rate, confidence)
  {
    r := weights;
    var k := 0;
    while k < |Categories|
      invariant 0 <= k <= |Categories|
      invariant forall c :: Index(c) < k ==> r.Get(c) == Adjusted(weights.Get(c), Name(c) == expected, rate, confidence)
      invariant forall c :: k <= Index(c) ==> r.Get(c) == weights.Get(c)
    {
      var emotion := Categories[k];
      var w := r.Get(emotion);
      if Name(emotion) == expected {
        w := w + rate * (1.0 - confidence);
      } else {
        w := w - rate * confidence;
      }
      assert Clamp(w) == Adjusted(weights.Get(emotion), Name(emotion) == expected, rate, confidence);
      r := r.Set(emotion, Clamp(w));
      k := k + 1;
    }
    Extensional(r, Retrained(weights, expected, rate, confidence));
  }
}
