/**
 * The alternating-line-colour adornment: an object that owns an adornment
 * layer and keeps a tinted rectangle behind every odd-numbered line of an
 * editor view, in step with layout passes and with horizontal viewport changes.
 *
 * The editor is reduced to the data each handler reads from it: the view
 * (viewport width, viewport left offset, the lines currently laid out) and,
 * for a layout pass, the event arguments.
 */
module TextAdornment {
  import opened Wrappers
  import opened LineBands

  /** What the handlers read from the text view that raised the event. */
  datatype TextView = TextView(viewportWidth: int, viewportLeft: int, textViewLines: seq<Line>)

  /**
   * The arguments of a layout pass: identities of the snapshots before and
   * after, whether the old snapshot's changes include line changes, and the
   * lines that this pass created or reformatted.
   */
  datatype LayoutChangedEventArgs = LayoutChangedEventArgs(
    oldSnapshot: nat,
    newSnapshot: nat,
    includesLineChanges: bool,
    newOrReformattedLines: seq<Line>)

  /** The exception construction raises, naming the offending parameter. */
  datatype ConstructionError = ArgumentNull(paramName: string)

  /** A layout pass rebuilds everything when the snapshot changed and the change touched lines. */
  predicate IsFullRebuild(e: LayoutChangedEventArgs)
  {
    e.oldSnapshot != e.newSnapshot && e.includesLineChanges
  }

  class AlternatingLineColorTextAdornment {
    /** The rectangles registered in the adornment layer, in the order they were added. */
    var layer: seq<Decoration>

    /** The single frozen brush shared by every rectangle. */
    const brush: Color

    /**
     * The allocation step of construction: an empty adornment layer and the
     * frozen brush. The null check of the constructor is modelled by `Create`,
     * which is how clients obtain an adornment.
     */
    constructor ()
      ensures layer == [] && brush == BandFill
    {
      layer := [];
      brush := BandFill;
    }

    /** Moves every rectangle of the layer to the viewport's left offset. */
    method OnViewportLeftChanged(textView: TextView)
      modifies this
      ensures layer == WithLeft(old(layer), textView.viewportLeft)
    {
      var i := 0;
      while i < |layer|
        invariant 0 <= i <= |layer| && |layer| == |old(layer)|
        invariant forall k :: 0 <= k < i ==> layer[k] == old(layer)[k].(left := textView.viewportLeft)
        invariant forall k :: i <= k < |layer| ==> layer[k] == old(layer)[k]
      {
        layer := layer[i := layer[i].(left := textView.viewportLeft)];
        i := i + 1;
      }
    }

    /** Sets the width of every rectangle of the layer to the viewport's width. */
    method OnViewportWidthChanged(textView: TextView)
      modifies this
      ensures layer == WithWidth(old(layer), textView.viewportWidth)
    {
      var i := 0;
      while i < |layer|
        invariant 0 <= i <= |layer| && |layer| == |old(layer)|
        invariant forall k :: 0 <= k < i ==> layer[k] == old(layer)[k].(width := textView.viewportWidth)
        invariant forall k :: i <= k < |layer| ==> layer[k] == old(layer)[k]
      {
        layer := layer[i := layer[i].(width := textView.viewportWidth)];
        i := i + 1;
      }
    }

    /**
     * On a full rebuild the layer is emptied and refilled from every visible
     * line, so it holds exactly the bands of the visible odd-numbered lines;
     * otherwise only the new or reformatted lines are refreshed and the
     * existing rectangles stay as they were, ahead of the new ones.
     */
    method OnLayoutChanged(textView: TextView, e: LayoutChangedEventArgs)
      modifies this
      ensures IsFullRebuild(e) ==>
        layer == Bands(textView.textViewLines, textView.viewportWidth, textView.viewportLeft, brush)
      ensures !IsFullRebuild(e) ==>
        layer == old(layer) + Bands(e.newOrReformattedLines, textView.viewportWidth, textView.viewportLeft, brush)
    {
      if e.oldSnapshot != e.newSnapshot && e.includesLineChanges {
        layer := [];
        Refresh(textView, textView.textViewLines);
      } else {
        Refresh(textView, e.newOrReformattedLines);
      }
    }

    /**
     * Appends, in input order, one rectangle for each odd-numbered line; the
     * rectangles already in the layer are neither removed nor changed.
     */
    method Refresh(textView: TextView, lines: seq<Line>)
      modifies this
      ensures layer == old(layer) + Bands(lines, textView.viewportWidth, textView.viewportLeft, brush)
    {
      var i := 0;
      while i < |lines|
        invariant 0 <= i <= |lines|
        invariant layer == old(layer) + Bands(lines[..i], textView.viewportWidth, textView.viewportLeft, brush)
      {
        var line := lines[i];
        if line.lineNumber % 2 == 1 {
          var rect := Decoration(line.extent, line.height, textView.viewportWidth, textView.viewportLeft, line.top, brush);
          layer := layer + [rect];
        }
        assert lines[..i + 1] == lines[..i] + [line];
        BandsAppend(lines[..i], [line], textView.viewportWidth, textView.viewportLeft, brush);
        i := i + 1;
      }
      assert lines[..i] == lines;
    }
  }

  /**
   * Construction: a missing text view is refused with an argument-null error
   * before anything is created; otherwise the adornment starts with an empty
   * layer and the shared brush.
   */
  method Create(textView: Option<TextView>) returns (r: Result<AlternatingLineColorTextAdornment, ConstructionError>)
    ensures r.Failure? <==> textView.None?
    ensures r.Failure? ==> r.error == ArgumentNull("textView")
    ensures r.Success? ==> fresh(r.value) && r.value.layer == [] && r.value.brush == BandFill
  {
    if textView.None? {
      return Failure(ArgumentNull("textView"));
    }
    var adornment := new AlternatingLineColorTextAdornment();
    return Success(adornment);
  }

  /** A visible line numbered `n`, with arbitrary but distinct geometry. */
  function NumberedLine(n: nat): Line
  {
    Line(n, Extent(10 * n, 10 * n + 9), 16 * n, 16)
  }

  /** The band of line `n` under a viewport 800 wide scrolled to the left edge. */
  function NumberedBand(n: nat): Decoration
  {
    BandFor(NumberedLine(n), 800, 0, BandFill)
  }

  /** Lines 5 to 9 leave bands for lines 5, 7 and 9. */
  lemma UpperFiveLineBands()
    ensures Bands([NumberedLine(5), NumberedLine(6), NumberedLine(7), NumberedLine(8), NumberedLine(9)], 800, 0, BandFill)
      == [NumberedBand(5), NumberedBand(7), NumberedBand(9)]
  {
    var l5, l6, l7, l8, l9 := NumberedLine(5), NumberedLine(6), NumberedLine(7), NumberedLine(8), NumberedLine(9);
    assert Bands([l9], 800, 0, BandFill) == [NumberedBand(9)];
    assert Bands([l8, l9], 800, 0, BandFill) == [NumberedBand(9)];
    assert Bands([l7], 800, 0, BandFill) == [NumberedBand(7)];
    assert Bands([l5, l6], 800, 0, BandFill) == [NumberedBand(5)];
    BandsAppend([l7], [l8, l9], 800, 0, BandFill);
    assert [l7] + [l8, l9] == [l7, l8, l9];
    BandsAppend([l5, l6], [l7, l8, l9], 800, 0, BandFill);
    assert [l5, l6] + [l7, l8, l9] == [l5, l6, l7, l8, l9];
  }

  /** Lines 0 to 4 leave bands for lines 1 and 3. */
  lemma LowerFiveLineBands()
    ensures Bands([NumberedLine(0), NumberedLine(1), NumberedLine(2), NumberedLine(3), NumberedLine(4)], 800, 0, BandFill)
      == [NumberedBand(1), NumberedBand(3)]
  {
    var l0, l1, l2, l3, l4 := NumberedLine(0), NumberedLine(1), NumberedLine(2), NumberedLine(3), NumberedLine(4);
    assert Bands([l4], 800, 0, BandFill) == [];
    assert Bands([l3, l4], 800, 0, BandFill) == [NumberedBand(3)];
    assert Bands([l2, l3, l4], 800, 0, BandFill) == [NumberedBand(3)];
    assert Bands([l1, l2, l3, l4], 800, 0, BandFill) == [NumberedBand(1), NumberedBand(3)];
  }

  /** Lines 2 and 3 leave a band for line 3 only. */
  lemma ReformattedLineBands()
    ensures Bands([NumberedLine(2), NumberedLine(3)], 800, 0, BandFill) == [NumberedBand(3)]
  {
    assert Bands([NumberedLine(3)], 800, 0, BandFill) == [NumberedBand(3)];
  }

  /**
   * A client of the adornment: ten lines laid out, then a line edit that
   * leaves five visible lines, then a cosmetic reformat of lines 2 and 3,
   * then a resize and a horizontal scroll.
   */
  method LayoutScenarios()
  {
    var r := Create(Some(TextView(800, 0, [])));
    var adornment := r.value;
    var lower := [NumberedLine(0), NumberedLine(1), NumberedLine(2), NumberedLine(3), NumberedLine(4)];
    var upper := [NumberedLine(5), NumberedLine(6), NumberedLine(7), NumberedLine(8), NumberedLine(9)];
    var b1, b3 := NumberedBand(1), NumberedBand(3);

    LowerFiveLineBands();
    UpperFiveLineBands();
    BandsAppend(lower, upper, 800, 0, BandFill);
    adornment.OnLayoutChanged(TextView(800, 0, lower + upper), LayoutChangedEventArgs(0, 1, true, lower + upper));
    assert adornment.layer == [b1, b3, NumberedBand(5), NumberedBand(7), NumberedBand(9)];

    // a line edit: everything is rebuilt, nothing is left over from lines 5 to 9
    adornment.OnLayoutChanged(TextView(800, 0, lower), LayoutChangedEventArgs(1, 2, true, [NumberedLine(2)]));
    assert adornment.layer == [b1, b3];

    // a reformat of lines 2 and 3: the layer here drops nothing on its own, so the
    // old bands stay and the refresh adds a second band for line 3
    ReformattedLineBands();
    adornment.OnLayoutChanged(TextView(800, 0, lower), LayoutChangedEventArgs(2, 2, true, [NumberedLine(2), NumberedLine(3)]));
    assert adornment.layer == [b1, b3, b3];

    adornment.OnViewportWidthChanged(TextView(640, 0, lower));
    adornment.OnViewportLeftChanged(TextView(640, 25, lower));
    assert adornment.layer == [b1.(width := 640, left := 25), b3.(width := 640, left := 25), b3.(width := 640, left := 25)];
  }
}
