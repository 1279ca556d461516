/**
 * The decision logic of `displayPredictionResults`, with the DOM stripped
 * away: from a prediction result and the degraded-mode banners already on
 * the page, compute what the result panel shows.
 *
 * Confidences are modelled as exact reals; `Math.round` is modelled exactly
 * on them (nearest integer, halves rounded up).
 */
module Render {
  import opened Options

  /** One `{label, confidence}` entry of `top_predictions`. */
  datatype Entry = Entry(name: string, confidence: real)

  /** A result message; every field may be absent. */
  datatype Result = Result(
    prediction: Option<string>,
    confidence: Option<real>,
    topPredictions: Option<seq<Entry>>,
    note: Option<string>)

  /** The colour of the main confidence bar. */
  datatype Tier = Green | Orange | Red

  /** One rendered alternative: its label and its rounded percentage. */
  datatype Item = Item(name: string, percent: int)

  /** The alternatives panel: the "No other predictions available" message, or a list of items. */
  datatype Others = NoOthers | Items(items: seq<Item>)

  /**
   * What the panel shows: the main label, the percentage (used both as the
   * bar width and as the text), the bar colour, the alternatives, and the
   * notes of the "model not loaded" banners in document order.
   */
  datatype View = View(mainLabel: string, percent: int, tier: Tier, others: Others, banners: seq<string>)

  /** `Math.round`: the nearest integer, a half rounded towards positive infinity. */
  function Round(x: real): (r: int)
    ensures r as real <= x + 0.5 < r as real + 1.0
  {
    (x + 0.5).Floor
  }

  /** `Math.round(c * 100)`: the whole percentage nearest to the confidence `c`. */
  function Percent(c: real): (r: int)
    ensures r as real - 0.5 <= c * 100.0 < r as real + 0.5
    ensures 0.0 <= c <= 1.0 ==> 0 <= r <= 100
  {
    Round(c * 100.0)
  }

  /** The main label: the prediction, or a dash when it is absent or empty (`data.prediction || '-'`). */
  function MainLabel(prediction: Option<string>): (r: string)
    ensures r != ""
    ensures prediction.Some? && prediction.value != "" ==> r == prediction.value
    ensures prediction.None? || prediction.value == "" ==> r == "-"
  {
    match prediction
    case Some(p) => if p != "" then p else "-"
    case None => "-"
  }

  /** The main percentage, with an absent confidence counted as 0 (`data.confidence || 0`). */
  function MainPercent(confidence: Option<real>): (r: int)
    ensures confidence.None? ==> r == 0
    ensures confidence.Some? ==> r == Percent(confidence.value)
  {
    Percent(confidence.GetOr(0.0))
  }

  /** The bar colour: green above 80, orange above 50 up to 80, red at 50 and below. */
  function TierOf(percent: int): (t: Tier)
    ensures t == Green <==> percent > 80
    ensures t == Orange <==> 50 < percent <= 80
    ensures t == Red <==> percent <= 50
  {
    if percent > 80 then Green
    else if percent > 50 then Orange
    else Red
  }

  /** The predicate handed to `filter`: keep everything past index 0, and index 0 unless it repeats the prediction. */
  function Keep(e: Entry, index: nat, prediction: Option<string>): (b: bool)
    ensures !b <==> index == 0 && prediction.Some? && prediction.value == e.name
    ensures prediction.None? ==> b
  {
    index > 0 || prediction != Some(e.name)
  }

  /** `filter((pred, index) => …)` over `entries`, whose first element sits at `index`. */
  function FilterFrom(entries: seq<Entry>, prediction: Option<string>, index: nat): (r: seq<Entry>)
    ensures |r| <= |entries|
    ensures index > 0 ==> r == entries
    decreases |entries|
  {
    if |entries| == 0 then []
    else
      (if Keep(entries[0], index, prediction) then [entries[0]] else [])
      + FilterFrom(entries[1..], prediction, index + 1)
  }

  /**
   * The alternatives kept from `top_predictions`: the whole list, except that
   * a first entry whose label equals the prediction is dropped.
   */
  function OtherPredictions(top: seq<Entry>, prediction: Option<string>): (r: seq<Entry>)
    ensures |top| > 0 && prediction == Some(top[0].name) ==> r == top[1..]
    ensures |top| == 0 || prediction != Some(top[0].name) ==> r == top
  {
    FilterFrom(top, prediction, 0)
  }

  /** Each kept entry rendered as its label and `Math.round(confidence * 100)`, in order. */
  function ToItems(entries: seq<Entry>): (r: seq<Item>)
    ensures |r| == |entries|
    ensures forall i :: 0 <= i < |entries| ==> r[i].name == entries[i].name
    ensures forall i :: 0 <= i < |entries| ==> r[i].percent == Percent(entries[i].confidence)
    decreases |entries|
  {
    if |entries| == 0 then []
    else [Item(entries[0].name, Percent(entries[0].confidence))] + ToItems(entries[1..])
  }

  /** The alternatives panel: the empty-state message exactly when `top_predictions` is absent or empty. */
  function OthersOf(top: Option<seq<Entry>>, prediction: Option<string>): (r: Others)
    ensures r.NoOthers? <==> top.None? || |top.value| == 0
    ensures r.Items? ==> r.items == ToItems(OtherPredictions(top.value, prediction))
  {
    if top.Some? && |top.value| > 0 then Items(ToItems(OtherPredictions(top.value, prediction)))
    else NoOthers
  }

  /**
   * The banners after rendering: with a note, add one (carrying that note)
   * only if none exists; without a note, remove the first one if any.
   */
  function UpdateBanners(banners: seq<string>, note: Option<string>): (r: seq<string>)
    ensures note.Some? ==> |r| == (if |banners| == 0 then 1 else |banners|)
    ensures note.Some? && |banners| == 0 ==> r == [note.value]
    ensures note.Some? && |banners| > 0 ==> r == banners
    ensures note.None? ==> |r| == (if |banners| == 0 then 0 else |banners| - 1)
    ensures note.None? && |banners| > 0 ==> r == banners[1..]
  {
    match note
    case Some(n) => if |banners| == 0 then [n] else banners
    case None => if |banners| > 0 then banners[1..] else banners
  }

  /** `displayPredictionResults`: the whole panel after rendering `data` over existing `banners`. */
  function Display(data: Result, banners: seq<string>): (v: View)
    ensures v.mainLabel != ""
    ensures data.prediction.Some? && data.prediction.value != "" ==> v.mainLabel == data.prediction.value
    ensures data.confidence.None? ==> v.percent == 0 && v.tier == Red
    ensures data.confidence.Some? && 0.0 <= data.confidence.value <= 1.0 ==> 0 <= v.percent <= 100
    ensures v.tier == Green <==> v.percent > 80
    ensures v.tier == Orange <==> 50 < v.percent <= 80
    ensures v.tier == Red <==> v.percent <= 50
    ensures v.others.NoOthers? <==> data.topPredictions.None? || |data.topPredictions.value| == 0
    ensures v.others.Items? ==> |data.topPredictions.value| - 1 <= |v.others.items| <= |data.topPredictions.value|
    ensures |banners| <= 1 ==> |v.banners| == (if data.note.Some? then 1 else 0)
    ensures data.note.Some? && |banners| == 0 ==> v.banners == [data.note.value]
  {
    var percent := MainPercent(data.confidence);
    View(MainLabel(data.prediction), percent, TierOf(percent),
         OthersOf(data.topPredictions, data.prediction), UpdateBanners(banners, data.note))
  }

  // ---------------------------------------------------------------------
  // Properties of the rendering decision.
  // ---------------------------------------------------------------------

  /** The colour as a function of the raw confidence, rounding included. */
  lemma TierOfConfidence(c: real)
    ensures TierOf(Percent(c)) == Green <==> c >= 0.805
    ensures TierOf(Percent(c)) == Orange <==> 0.505 <= c < 0.805
    ensures TierOf(Percent(c)) == Red <==> c < 0.505
  {
    var p := Percent(c);
    assert p as real <= c * 100.0 + 0.5 < p as real + 1.0;
  }

  /** The thresholds at their edges: 81 is green, 80 and 51 orange, 50 red. */
  lemma TierBoundaries()
    ensures TierOf(81) == Green && TierOf(80) == Orange
    ensures TierOf(51) == Orange && TierOf(50) == Red
    ensures TierOf(Percent(0.81)) == Green && TierOf(Percent(0.50)) == Red && TierOf(Percent(0.49)) == Red
  {
    assert Percent(0.81) == 81;
    assert Percent(0.50) == 50;
    assert Percent(0.49) == 49;
  }

  /**
   * The filter removes at most the entry at index 0, and only when its label
   * is the prediction; every other entry survives in its original order,
   * later repeats of the prediction included.
   */
  lemma OtherPredictionsKeepsRest(top: seq<Entry>, prediction: Option<string>)
    ensures var r := OtherPredictions(top, prediction);
      var dropped := |top| - |r|;
      && (dropped == 0 || dropped == 1)
      && (dropped == 1 <==> |top| > 0 && prediction == Some(top[0].name))
      && (forall i :: dropped <= i < |top| ==> r[i - dropped] == top[i])
  {
  }

  /** The worked case: `[A, A, B]` with prediction `A` renders `[A, B]`, keeping the second `A`. */
  lemma DuplicateAfterFirstIsKept()
    ensures var top := [Entry("A", 0.9), Entry("A", 0.9), Entry("B", 0.3)];
      OthersOf(Some(top), Some("A")) == Items([Item("A", 90), Item("B", 30)])
  {
    var top := [Entry("A", 0.9), Entry("A", 0.9), Entry("B", 0.3)];
    assert OtherPredictions(top, Some("A")) == top[1..];
    assert Percent(0.9) == 90 && Percent(0.3) == 30;
  }

  /**
   * A list whose only entry repeats the prediction is non-empty, so the
   * empty-state message is not shown, yet no item is rendered either.
   */
  lemma SoleDuplicateRendersNoItems(name: string, c: real)
    ensures OthersOf(Some([Entry(name, c)]), Some(name)) == Items([])
  {
    assert OtherPredictions([Entry(name, c)], Some(name)) == [];
  }

  /** An absent prediction and confidence render a dash, 0% and red. */
  lemma EmptyResultRendersDefaults(banners: seq<string>)
    ensures var v := Display(Result(None, None, None, None), banners);
      v.mainLabel == "-" && v.percent == 0 && v.tier == Red && v.others == NoOthers
  {
  }

  /**
   * Starting from at most one banner, a result with a note leaves exactly one
   * banner and a result without a note leaves none: the page never holds two.
   */
  lemma BannerCount(data: Result, banners: seq<string>)
    requires |banners| <= 1
    ensures data.note.Some? ==> |Display(data, banners).banners| == 1
    ensures data.note.None? ==> |Display(data, banners).banners| == 0
  {
  }

  /** A banner already on the page keeps the note it was created with; a later note does not replace it. */
  lemma BannerKeepsFirstNote(first: string, later: string)
    ensures UpdateBanners(UpdateBanners([], Some(first)), Some(later)) == [first]
  {
  }

  /** Rendering the same result twice gives the same banners as rendering it once. */
  lemma BannersSettleAfterOneRender(data: Result, banners: seq<string>)
    requires |banners| <= 1
    ensures UpdateBanners(UpdateBanners(banners, data.note), data.note) == UpdateBanners(banners, data.note)
  {
  }
}
