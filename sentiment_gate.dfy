/** The confidence gate applied to the news-sentiment classifier's output. */
module SentimentGate {
  import opened Orders

  /** The classifier's labels "positive", "negative" and "neutral". */
  datatype Label = Positive | Negative | Neutral

  /** A classifier verdict: the winning probability and its polarity label. */
  datatype Sentiment = Sentiment(probability: real, polarity: Label)

  /** What the gate lets through: nothing, or a direction to enter. */
  datatype Signal = NoSignal | Signal(side: Side)

  /**
   * A positive label asks to buy and a negative one to sell, each only when
   * the probability exceeds the threshold strictly; a neutral label never
   * passes.
   */
  function Gate(s: Sentiment, threshold: real): (g: Signal)
    ensures g == Signal(Buy) <==> s.polarity == Positive && s.probability > threshold
    ensures g == Signal(Sell) <==> s.polarity == Negative && s.probability > threshold
  {
    if s.polarity == Positive && s.probability > threshold then Signal(Buy)
    else if s.polarity == Negative && s.probability > threshold then Signal(Sell)
    else NoSignal
  }

  /** A probability equal to the threshold, or a neutral label, passes nothing. */
  lemma GateIsStrict(s: Sentiment, threshold: real)
    requires s.probability <= threshold || s.polarity == Neutral
    ensures Gate(s, threshold) == NoSignal
  {
  }
}
