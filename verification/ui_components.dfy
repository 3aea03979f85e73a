/** The computations inside the panels of ui_components.py: the camera
    counts of the camera panel and the 20-block progress bar of the metrics
    panel. Layout and drawing are not modelled; a panel here is the data it
    would show. */
module UiComponents {
  import opened Wrappers
  import opened Seqs
  import opened CameraUtils
  import opened Export

  function EnabledCount(cams: seq<CameraItem>): nat {
    |Filter(cams, (c: CameraItem) => c.enabled)|
  }

  function ResultsCount(cams: seq<CameraItem>): nat {
    |WithResults(cams)|
  }

  function ProblematicCount(cams: seq<CameraItem>): nat {
    |Filter(cams, (c: CameraItem) => c.hasResults && c.isProblematic)|
  }

  /** No count exceeds the list, and a problematic camera is only counted
      when it also has results. */
  lemma CountsBounded(cams: seq<CameraItem>)
    ensures EnabledCount(cams) <= |cams|
    ensures ProblematicCount(cams) <= ResultsCount(cams) <= |cams|
  {
    var hasResults := (c: CameraItem) => c.hasResults;
    var flagged := (c: CameraItem) => c.hasResults && c.isProblematic;
    FilterFilter(cams, flagged, hasResults);
    assert ProblematicCount(cams) == |Filter(WithResults(cams), flagged)|;
  }

  /** The rows of a list of cameras with results distribute over concatenation. */
  lemma RowsOfAppend(a: seq<CameraItem>, b: seq<CameraItem>, tp: real, ts: real)
    ensures RowsOf(a + b, tp, ts) == RowsOf(a, tp, ts) + RowsOf(b, tp, ts)
  {
  }

  /** The camera panel's problem count is the number of rows the HTML
      report marks `Problem`. */
  lemma {:induction false} ProblematicCountMatchesReport(cams: seq<CameraItem>, tp: real, ts: real)
    ensures ProblematicCount(cams) ==
            |Filter(RowsOf(WithResults(cams), tp, ts), (r: HtmlRow) => r.status == "Problem")|
    decreases |cams|
  {
    var isProblem := (r: HtmlRow) => r.status == "Problem";
    var flagged := (c: CameraItem) => c.hasResults && c.isProblematic;
    if cams != [] {
      var c := cams[0];
      ProblematicCountMatchesReport(cams[1..], tp, ts);
      var head := if c.hasResults then [c] else [];
      assert WithResults(cams) == head + WithResults(cams[1..]);
      RowsOfAppend(head, WithResults(cams[1..]), tp, ts);
      FilterAppend(RowsOf(head, tp, ts), RowsOf(WithResults(cams[1..]), tp, ts), isProblem);
      assert Filter(cams, flagged) == (if flagged(c) then [c] else []) + Filter(cams[1..], flagged);
      if c.hasResults {
        assert RowsOf(head, tp, ts) == [RowOf(c, tp, ts)];
        assert Filter([RowOf(c, tp, ts)], isProblem) == if c.isProblematic then [RowOf(c, tp, ts)] else [];
      } else {
        assert RowsOf(head, tp, ts) == [];
      }
    }
  }

  /** What the camera panel shows under its list: nothing for an empty list;
      otherwise the total and enabled counts, the calculated count only when
      some camera has results, and the problem count only when it is positive. */
  datatype CameraStats = CameraStats(total: nat, enabled: nat, calculated: Option<nat>, problematic: Option<nat>)

  function CameraPanelStats(cams: seq<CameraItem>): Option<CameraStats> {
    if |cams| == 0 then None
    else
      var results := ResultsCount(cams);
      var problematic := ProblematicCount(cams);
      Some(CameraStats(|cams|, EnabledCount(cams),
                       if results > 0 then Some(results) else None,
                       if results > 0 && problematic > 0 then Some(problematic) else None))
  }

  /** The panel's conditions in terms of the list: stats for a non-empty
      list, a calculated count exactly when a camera has results, and a
      problem count exactly when a camera with results is flagged. */
  lemma CameraPanelStatsShown(cams: seq<CameraItem>)
    ensures CameraPanelStats(cams).Some? <==> cams != []
    ensures cams != [] ==>
              (CameraPanelStats(cams).value.calculated.Some? <==> exists c :: c in cams && c.hasResults)
    ensures cams != [] ==>
              (CameraPanelStats(cams).value.problematic.Some? <==>
                 exists c :: c in cams && c.hasResults && c.isProblematic)
  {
    var flagged := (c: CameraItem) => c.hasResults && c.isProblematic;
    WithResultsMembership(cams);
    FilterMembershipAll(cams, flagged);
    CountsBounded(cams);
    if exists c :: c in cams && c.hasResults {
      var c :| c in cams && c.hasResults;
      assert c in WithResults(cams);
    }
    if exists c :: c in cams && c.hasResults && c.isProblematic {
      var c :| c in cams && c.hasResults && c.isProblematic;
      assert c in Filter(cams, flagged);
    }
    if ResultsCount(cams) > 0 {
      assert WithResults(cams)[0] in WithResults(cams);
    }
    if ProblematicCount(cams) > 0 {
      assert Filter(cams, flagged)[0] in Filter(cams, flagged);
    }
  }

  /** Python's `int(x)` on a float: truncation toward zero. */
  function TruncateToInt(x: real): (n: int)
    ensures 0.0 <= x ==> 0 <= n && n as real <= x < n as real + 1.0
    ensures x < 0.0 ==> n <= 0 && n as real - 1.0 < x <= n as real
  {
    if x >= 0.0 then x.Floor else -((-x).Floor)
  }

  /** How many of the 20 blocks are filled at a progress percentage. */
  function FilledBlocks(progress: real): int {
    TruncateToInt(progress / 5.0)
  }

  /** Over the range the progress takes, between none and all 20 blocks are
      filled: all of them exactly at 100%, none below 5%, and more progress
      never fills fewer. */
  lemma FilledBlocksRange(progress: real, more: real)
    requires 0.0 <= progress <= more <= 100.0
    ensures 0 <= FilledBlocks(progress) <= FilledBlocks(more) <= 20
    ensures FilledBlocks(progress) == 20 <==> progress == 100.0
    ensures FilledBlocks(progress) == 0 <==> progress < 5.0
  {
    var n := FilledBlocks(progress);
    if n >= 20 {
      assert 20.0 <= progress / 5.0;
    }
    assert n as real <= progress / 5.0 <= more / 5.0 < FilledBlocks(more) as real + 1.0;
  }

  /** The progress-bar loop of the metrics panel: block `i` is drawn filled
      exactly when it is below the filled count. */
  method ProgressBlocks(progress: real) returns (blocks: seq<bool>)
    ensures |blocks| == 20
    ensures forall i :: 0 <= i < 20 ==> (blocks[i] <==> i < FilledBlocks(progress))
  {
    var progressBlocks := TruncateToInt(progress / 5.0);
    blocks := [];
    for i := 0 to 20
      invariant |blocks| == i
      invariant forall j :: 0 <= j < i ==> (blocks[j] <==> j < progressBlocks)
    {
      if i < progressBlocks {
        blocks := blocks + [true];
      } else {
        blocks := blocks + [false];
      }
    }
  }
}
