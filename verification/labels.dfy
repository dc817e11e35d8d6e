/**
 * The fixed label table of the classifier and the display rule that folds
 * the three wilt classes into a single label.
 */
module Labels {

  /** Class names in the order of the classifier's output row. */
  const Table: seq<string> := [
    "WCLWD_DryingofLeaflets",
    "WCLWD_Flaccidity",
    "WCLWD_Yellowing",
    "bud root dropping",
    "bud rot",
    "gray leaf spot",
    "healthy_leaves",
    "leaf rot",
    "stem bleeding"
  ]

  /** The display label shown for every wilt class. */
  const WiltLabel: string := "coconut wilt"

  /** The raw class names that are shown as `WiltLabel`. */
  const WiltGroup: set<string> := {"WCLWD_DryingofLeaflets", "WCLWD_Flaccidity", "WCLWD_Yellowing"}

  /** Every label a prediction can show: the wilt label and the six other classes. */
  const DisplayLabels: set<string> := {
    WiltLabel,
    "bud root dropping",
    "bud rot",
    "gray leaf spot",
    "healthy_leaves",
    "leaf rot",
    "stem bleeding"
  }

  /**
   * The label shown for raw class name `raw`: a wilt class becomes
   * `WiltLabel`, every other name passes through unchanged.
   */
  function Display(raw: string): (shown: string)
    ensures shown == raw <==> raw !in WiltGroup
    ensures shown != raw ==> shown == WiltLabel
    ensures shown !in WiltGroup
  {
    if raw in WiltGroup then WiltLabel else raw
  }

  /** The table has nine entries and no name appears twice. */
  lemma TableDistinct()
    ensures |Table| == 9
    ensures forall i, j :: 0 <= i < j < |Table| ==> Table[i] != Table[j]
  {
  }

  /** A table entry is a wilt class exactly when its index is 0, 1 or 2. */
  lemma WiltByIndex(i: nat)
    requires i < |Table|
    ensures Table[i] in WiltGroup <==> i < 3
  {
  }

  /**
   * The label shown for table entry `i` is `WiltLabel` for indices 0..2 and
   * the entry itself for 3..8; it is never a wilt class name and always one
   * of the seven display labels.
   */
  lemma DisplayOfEntry(i: nat)
    requires i < |Table|
    ensures i < 3 ==> Display(Table[i]) == WiltLabel
    ensures 3 <= i ==> Display(Table[i]) == Table[i]
    ensures Display(Table[i]) !in WiltGroup
    ensures Display(Table[i]) in DisplayLabels
  {
    WiltByIndex(i);
  }

  /** Every display label is shown for some table entry, and there are seven. */
  lemma DisplayLabelsReached(shown: string)
    requires shown in DisplayLabels
    ensures exists i :: 0 <= i < |Table| && Display(Table[i]) == shown
  {
    if shown == WiltLabel {
      DisplayOfEntry(0);
    } else {
      assert shown in Table[3..];
      var i :| 3 <= i < |Table| && Table[i] == shown;
      DisplayOfEntry(i);
    }
  }

  /** Showing a label that is already shown changes nothing. */
  lemma DisplayIdempotent(raw: string)
    ensures Display(Display(raw)) == Display(raw)
  {
  }
}
