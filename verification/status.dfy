/**
 The status messenger of index.js: `determineMessage` turns a fill ratio into
 one of six fixed sentences, and `determineFreshness` is a placeholder that
 labels every reading 'Decent'.
 */
module Status {

  const FreshBrewedMessage: string := "Some fresh-brewed coffee is waiting for you at the kitchen!"
  const PlentyMessage: string := "Lots of delicious, mysterious liquid left. Go get it."
  const MoreThanHalfMessage: string := "More than half the can is still left! Go get some of that mysterious liquid."
  const GoodAmountMessage: string := "There's still a good amount of coffee left. Go get it before someone else!"
  const NearlyOutMessage: string := "Coffee availability is approaching dangerously low levels. Be fast or get whooshed."
  const LowMessage: string := "Coffee availability level is low. Approach at your own risk."

  /** The label every reading currently receives. */
  const PlaceholderFreshness: string := "Decent"

  /** The six fill bands, from fullest to emptiest. */
  datatype Level = FreshBrewed | Plenty | MoreThanHalf | GoodAmount | NearlyOut | Low

  /** The sentence announced for each band. */
  function MessageOf(level: Level): string {
    match level
    case FreshBrewed => FreshBrewedMessage
    case Plenty => PlentyMessage
    case MoreThanHalf => MoreThanHalfMessage
    case GoodAmount => GoodAmountMessage
    case NearlyOut => NearlyOutMessage
    case Low => LowMessage
  }

  /** The sentences, as a set. */
  const AllMessages: set<string> :=
    {FreshBrewedMessage, PlentyMessage, MoreThanHalfMessage, GoodAmountMessage, NearlyOutMessage, LowMessage}

  /** Each band as an interval of its own, stated without reference to the
      order in which the source tests the thresholds. The bounds mix closed
      and open ends exactly as the source's `>=` and `>` do. */
  predicate InBand(level: Level, measure: real) {
    match level
    case FreshBrewed => 0.95 <= measure
    case Plenty => 0.75 <= measure < 0.95
    case MoreThanHalf => 0.5 < measure < 0.75
    case GoodAmount => 0.3 < measure <= 0.5
    case NearlyOut => 0.17 <= measure <= 0.3
    case Low => measure < 0.17
  }

  /** The six sentences are pairwise different, so a sentence names its band. */
  lemma MessagesDistinct(a: Level, b: Level)
    ensures MessageOf(a) == MessageOf(b) <==> a == b
  {
  }

  /** First-match selection over the thresholds, in the source's order. The
      result is one of the six sentences, and it is the sentence of a band
      exactly when the ratio lies in that band. */
  function DetermineMessage(measure: real): (message: string)
    ensures message in AllMessages
    ensures forall level :: InBand(level, measure) <==> message == MessageOf(level)
  {
    if measure >= 0.95 then FreshBrewedMessage
    else if measure >= 0.75 then PlentyMessage
    else if measure > 0.5 then MoreThanHalfMessage
    else if measure > 0.3 then GoodAmountMessage
    else if measure >= 0.17 then NearlyOutMessage
    else LowMessage
  }

  /** The bands cover every ratio and never overlap, so the order of the
      source's tests cannot change which band a ratio gets. */
  lemma BandsPartition(measure: real)
    ensures exists level :: InBand(level, measure)
    ensures forall a, b :: InBand(a, measure) && InBand(b, measure) ==> a == b
  {
    if measure >= 0.95 {
      assert InBand(FreshBrewed, measure);
    } else if measure >= 0.75 {
      assert InBand(Plenty, measure);
    } else if measure > 0.5 {
      assert InBand(MoreThanHalf, measure);
    } else if measure > 0.3 {
      assert InBand(GoodAmount, measure);
    } else if measure >= 0.17 {
      assert InBand(NearlyOut, measure);
    } else {
      assert InBand(Low, measure);
    }
  }

  /** Where the comparison switches between `>=` and `>`: 0.95, 0.75 and 0.17
      belong to the band above them, while 0.5 and 0.3 belong to the band
      below. */
  lemma BoundaryReadings()
    ensures DetermineMessage(0.95) == FreshBrewedMessage
    ensures DetermineMessage(0.75) == PlentyMessage
    ensures DetermineMessage(0.5) == GoodAmountMessage
    ensures DetermineMessage(0.3) == NearlyOutMessage
    ensures DetermineMessage(0.17) == NearlyOutMessage
  {
  }

  /** A fuller canister never gets the sentence of a lower band: if the
      smaller ratio is in band `a` and the larger in band `b`, then `b` is
      not listed after `a`. */
  lemma MessageMonotone(lo: real, hi: real, a: Level, b: Level)
    requires lo <= hi
    requires DetermineMessage(lo) == MessageOf(a)
    requires DetermineMessage(hi) == MessageOf(b)
    ensures Rank(b) <= Rank(a)
  {
  }

  /** Position of a band in the source's order of tests. */
  function Rank(level: Level): nat {
    match level
    case FreshBrewed => 0
    case Plenty => 1
    case MoreThanHalf => 2
    case GoodAmount => 3
    case NearlyOut => 4
    case Low => 5
  }

  /** The freshness label: a placeholder in the source that ignores both the
      brew time and the fill ratio. */
  function DetermineFreshness(timestamp: int, fill: real): (freshness: string)
    ensures freshness == PlaceholderFreshness
  {
    PlaceholderFreshness
  }
}
