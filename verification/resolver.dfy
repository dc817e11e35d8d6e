/**
 * Label resolution in the prediction handler: choose the arg-max class of
 * the classifier's output row, look its name up in the label table, fold the
 * wilt classes, and report the chosen score as the confidence.
 */
module Resolver {
  import opened Results
  import opened Scores
  import opened Labels
  import opened UploadUrl

  /**
   * Why resolution can fail: `np.argmax` rejects an empty row, and an index
   * past the end of the label table makes the lookup fail.
   */
  datatype ResolutionError = EmptyScores | LabelIndexOutOfRange(index: nat)

  /** The chosen class index, its display label and its unrounded score. */
  datatype Resolution = Resolution(index: nat, diagnosis: string, confidence: real)

  /** The handler's response body, before the confidence is rounded. */
  datatype Prediction = Prediction(diagnosis: string, confidence: real, imageUrl: string)

  /** Resolve the classifier's output row `scores` to a display label and confidence. */
  function Resolve(scores: seq<real>): (r: Result<Resolution, ResolutionError>)
    ensures |scores| == 0 <==> r == Err(EmptyScores)
    ensures |scores| == |Table| ==> r.Ok?
    ensures r.Ok? ==> IsFirstMax(scores, r.value.index) && r.value.index < |Table|
    ensures r.Ok? ==> r.value.confidence == scores[r.value.index]
    ensures r.Ok? ==> (r.value.diagnosis == WiltLabel <==> r.value.index < 3)
    ensures r.Ok? && 3 <= r.value.index < |Table| ==> r.value.diagnosis == Table[r.value.index]
    ensures r.Err? && r.error.LabelIndexOutOfRange? ==>
      IsFirstMax(scores, r.error.index) && |Table| <= r.error.index
  {
    if |scores| == 0 then Err(EmptyScores)
    else
      var idx := ArgMax(scores);
      var confidence := scores[idx];
      if idx < |Table| then
        DisplayOfEntry(idx);
        Ok(Resolution(idx, Display(Table[idx]), confidence))
      else
        Err(LabelIndexOutOfRange(idx))
  }

  /**
   * A resolved confidence is at least every score of the row, and the
   * resolved label is one of the seven display labels, never a wilt class.
   */
  lemma ResolvedWithinRange(scores: seq<real>)
    requires Resolve(scores).Ok?
    ensures forall j :: 0 <= j < |scores| ==> scores[j] <= Resolve(scores).value.confidence
    ensures Resolve(scores).value.diagnosis !in WiltGroup
    ensures Resolve(scores).value.diagnosis in DisplayLabels
  {
    DisplayOfEntry(Resolve(scores).value.index);
  }

  /**
   * For a nine-score row, resolution succeeds and the index it reports is
   * exactly the first maximum `i`, shown with its table name and its score.
   */
  lemma ResolveAtFirstMax(scores: seq<real>, i: nat)
    requires |scores| == |Table|
    ensures Resolve(scores).Ok?
    ensures IsFirstMax(scores, i) <==> i == Resolve(scores).value.index
    ensures IsFirstMax(scores, i) ==>
      Resolve(scores) == Ok(Resolution(i, Display(Table[i]), scores[i]))
  {
    FirstMaxUnique(scores, Resolve(scores).value.index, i);
  }

  /**
   * A row whose maximum at `i` is strictly larger than every other score
   * resolves to the displayed name of entry `i`: the wilt label for 0..2,
   * the table name itself for 3..8.
   */
  lemma UniqueMaxResolves(scores: seq<real>, i: nat)
    requires |scores| == |Table| && i < |Table|
    requires forall j :: 0 <= j < |scores| && j != i ==> scores[j] < scores[i]
    ensures Resolve(scores).Ok?
    ensures Resolve(scores).value.index == i
    ensures Resolve(scores).value.confidence == scores[i]
    ensures i < 3 ==> Resolve(scores).value.diagnosis == WiltLabel
    ensures 3 <= i ==> Resolve(scores).value.diagnosis == Table[i]
  {
    UniqueMaxChosen(scores, i);
    DisplayOfEntry(i);
  }

  /** The handler's result for an upload named `filename` whose row is `scores`. */
  function Predict(filename: string, scores: seq<real>): (r: Result<Prediction, ResolutionError>)
    ensures r.Ok? <==> Resolve(scores).Ok?
    ensures r.Err? ==> r.error == Resolve(scores).error
    ensures r.Ok? ==> r.value.diagnosis == Resolve(scores).value.diagnosis
    ensures r.Ok? ==> r.value.confidence == Resolve(scores).value.confidence
    ensures r.Ok? ==> UploadedName(r.value.imageUrl) == Some(filename)
  {
    match Resolve(scores)
    case Err(e) => Err(e)
    case Ok(res) =>
      NameRoundTrip(filename);
      Ok(Prediction(res.diagnosis, res.confidence, ImageUrl(filename)))
  }

  /** A row led by a wilt score resolves to the wilt label with that score. */
  lemma WiltScenario()
    ensures Predict("leaf.jpg", [0.9, 0.01, 0.01, 0.01, 0.01, 0.01, 0.01, 0.02, 0.02])
      == Ok(Prediction("coconut wilt", 0.9, "/uploads/leaf.jpg"))
  {
    var scores: seq<real> := [0.9, 0.01, 0.01, 0.01, 0.01, 0.01, 0.01, 0.02, 0.02];
    UniqueMaxResolves(scores, 0);
    assert ImageUrl("leaf.jpg") == "/uploads/leaf.jpg";
  }

  /** A row led by the healthy score resolves to the healthy label unchanged. */
  lemma HealthyScenario()
    ensures Predict("leaf.jpg", [0.01, 0.01, 0.01, 0.01, 0.01, 0.01, 0.9, 0.02, 0.02])
      == Ok(Prediction("healthy_leaves", 0.9, "/uploads/leaf.jpg"))
  {
    var scores: seq<real> := [0.01, 0.01, 0.01, 0.01, 0.01, 0.01, 0.9, 0.02, 0.02];
    UniqueMaxResolves(scores, 6);
    assert ImageUrl("leaf.jpg") == "/uploads/leaf.jpg";
  }

  /** With every score equal, the tie goes to index 0, a wilt class. */
  lemma TieGoesToFirst()
    ensures Resolve([0.5, 0.5, 0.5, 0.5, 0.5, 0.5, 0.5, 0.5, 0.5])
      == Ok(Resolution(0, "coconut wilt", 0.5))
  {
    var scores: seq<real> := [0.5, 0.5, 0.5, 0.5, 0.5, 0.5, 0.5, 0.5, 0.5];
    assert IsFirstMax(scores, 0);
    ResolveAtFirstMax(scores, 0);
  }
}
