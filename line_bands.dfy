/**
 * The values the adornment works on -- laid-out lines, the rectangles
 * ("decorations") it places behind them -- and the specification of what a
 * refresh pass adds and what the two viewport broadcasts do to the layer.
 *
 * Geometry (heights, widths, offsets) is only ever copied, never computed, so
 * it is modelled as `int`.
 */
module LineBands {

  /** A span of buffer positions of the text snapshot; a decoration is anchored to one. */
  datatype Extent = Extent(start: nat, end: nat)

  /**
   * One laid-out visual line as the editor reports it. `lineNumber` is the
   * 0-based buffer line that contains `extent.start` (the host's lookup,
   * supplied here as data).
   */
  datatype Line = Line(lineNumber: nat, extent: Extent, top: int, height: int)

  /** One colour channel: an unsigned byte. */
  type Byte = x: nat | x < 256

  /** An ARGB colour; the only brush the adornment ever uses is `BandFill`. */
  datatype Color = Argb(a: Byte, r: Byte, g: Byte, b: Byte)

  /** The shared, frozen fill of every band: alpha 160 over RGB (194, 252, 233). */
  const BandFill: Color := Argb(160, 194, 252, 233)

  /** A filled rectangle registered in the adornment layer against a line extent. */
  datatype Decoration = Decoration(extent: Extent, height: int, width: int, left: int, top: int, fill: Color)

  /** The parity test of the refresh pass: only odd-numbered lines get a band. */
  predicate IsOddLine(line: Line)
  {
    line.lineNumber % 2 == 1
  }

  /** The rectangle built for one line under a viewport of the given width and left offset. */
  function BandFor(line: Line, width: int, left: int, fill: Color): (d: Decoration)
    ensures d.extent == line.extent && d.height == line.height && d.top == line.top
    ensures d.width == width && d.left == left && d.fill == fill
  {
    Decoration(line.extent, line.height, width, left, line.top, fill)
  }

  /**
   * What one refresh pass over `lines` appends to the layer, in order: a band
   * for every odd-numbered line, nothing for the even-numbered ones.
   */
  function Bands(lines: seq<Line>, width: int, left: int, fill: Color): (r: seq<Decoration>)
    ensures |r| <= |lines|
    ensures SpansViewport(r, width, left)
    ensures forall d :: d in r ==> d.fill == fill
  {
    if lines == [] then []
    else
      (if IsOddLine(lines[0]) then [BandFor(lines[0], width, left, fill)] else [])
      + Bands(lines[1..], width, left, fill)
  }

  /** The odd-numbered lines of `lines`, in their order: the reference the bands are checked against. */
  function OddLines(lines: seq<Line>): (r: seq<Line>)
    ensures |r| <= |lines|
    ensures forall l :: l in r ==> l in lines && IsOddLine(l)
    ensures forall l :: l in lines && IsOddLine(l) ==> l in r
  {
    if lines == [] then []
    else (if IsOddLine(lines[0]) then [lines[0]] else []) + OddLines(lines[1..])
  }

  /** The positions of the odd-numbered lines in `lines`. */
  function OddPositions(lines: seq<Line>): set<nat>
  {
    set i: nat | i < |lines| && IsOddLine(lines[i])
  }

  /** The positions of `s`, each moved one place to the right. */
  function ShiftRight(s: set<nat>): set<nat>
  {
    set i | i in s :: i + 1
  }

  /** Moving every position one place keeps the number of positions. */
  lemma {:induction false} ShiftRightSize(s: set<nat>)
    ensures |ShiftRight(s)| == |s|
    decreases |s|
  {
    if s != {} {
      var x :| x in s;
      var rest := s - {x};
      ShiftRightSize(rest);
      forall y | y in ShiftRight(s) ensures y in ShiftRight(rest) + {x + 1} {
        var i :| i in s && y == i + 1;
        if i != x { assert i in rest; }
      }
      forall y | y in ShiftRight(rest) + {x + 1} ensures y in ShiftRight(s) {
        if y != x + 1 {
          var i :| i in rest && y == i + 1;
          assert i in s;
        } else {
          assert x in s;
        }
      }
      assert ShiftRight(s) == ShiftRight(rest) + {x + 1};
      assert x + 1 !in ShiftRight(rest);
    }
  }

  /** The odd positions of a non-empty sequence: its head's, then its tail's moved one place. */
  lemma OddPositionsCons(lines: seq<Line>)
    requires lines != []
    ensures OddPositions(lines) ==
      (if IsOddLine(lines[0]) then {0} else {}) + ShiftRight(OddPositions(lines[1..]))
  {
    var tail := lines[1..];
    var head: set<nat> := if IsOddLine(lines[0]) then {0} else {};
    forall i | i in OddPositions(lines) ensures i in head + ShiftRight(OddPositions(tail)) {
      if i > 0 {
        assert i - 1 in OddPositions(tail);
      }
    }
    forall i | i in head + ShiftRight(OddPositions(tail)) ensures i in OddPositions(lines) {
      if i != 0 || !IsOddLine(lines[0]) {
        var j :| j in OddPositions(tail) && i == j + 1;
        assert lines[i] == tail[j];
      }
    }
  }

  /**
   * The filter keeps every odd-numbered line exactly as often as it occurs in
   * the input, and no even-numbered line: no odd line is dropped or kept twice.
   */
  lemma {:induction false} OddLinesMultiplicity(lines: seq<Line>)
    ensures forall l :: multiset(OddLines(lines))[l] == (if IsOddLine(l) then multiset(lines)[l] else 0)
  {
    if lines != [] {
      OddLinesMultiplicity(lines[1..]);
      assert lines == [lines[0]] + lines[1..];
    }
  }

  /** The filter keeps as many lines as there are positions holding an odd-numbered line. */
  lemma {:induction false} OddLinesCount(lines: seq<Line>)
    ensures |OddLines(lines)| == |OddPositions(lines)|
  {
    if lines != [] {
      OddLinesCount(lines[1..]);
      ShiftRightSize(OddPositions(lines[1..]));
      OddPositionsCons(lines);
      assert 0 !in ShiftRight(OddPositions(lines[1..]));
    }
  }

  /**
   * The bands of a pass are exactly the odd-numbered lines, one band each,
   * in input order; so a pass adds as many bands as there are odd lines.
   */
  lemma {:induction false} BandsAreOddLines(lines: seq<Line>, width: int, left: int, fill: Color)
    ensures |Bands(lines, width, left, fill)| == |OddLines(lines)|
    ensures forall k :: 0 <= k < |OddLines(lines)| ==>
      Bands(lines, width, left, fill)[k] == BandFor(OddLines(lines)[k], width, left, fill)
  {
    if lines != [] {
      BandsAreOddLines(lines[1..], width, left, fill);
    }
  }

  /** A pass over no odd-numbered line adds nothing. */
  lemma {:induction false} NoBandsForEvenLines(lines: seq<Line>, width: int, left: int, fill: Color)
    requires forall i :: 0 <= i < |lines| ==> !IsOddLine(lines[i])
    ensures Bands(lines, width, left, fill) == []
  {
    if lines != [] {
      NoBandsForEvenLines(lines[1..], width, left, fill);
    }
  }

  /**
   * Every odd-numbered input line gets its band, and every band belongs to an
   * odd-numbered input line: the one-to-one correspondence a full rebuild restores.
   */
  lemma BandsMatchOddLines(lines: seq<Line>, width: int, left: int, fill: Color)
    ensures forall l :: l in lines && IsOddLine(l) ==> BandFor(l, width, left, fill) in Bands(lines, width, left, fill)
    ensures forall d :: d in Bands(lines, width, left, fill) ==>
      exists l :: l in lines && IsOddLine(l) && d == BandFor(l, width, left, fill)
  {
    var bands, odd := Bands(lines, width, left, fill), OddLines(lines);
    BandsAreOddLines(lines, width, left, fill);
    forall l | l in lines && IsOddLine(l)
      ensures BandFor(l, width, left, fill) in bands
    {
      var k :| 0 <= k < |odd| && odd[k] == l;
      assert bands[k] == BandFor(l, width, left, fill);
    }
    forall d | d in bands
      ensures exists l :: l in lines && IsOddLine(l) && d == BandFor(l, width, left, fill)
    {
      var k :| 0 <= k < |bands| && bands[k] == d;
      assert odd[k] in odd;
    }
  }

  /** A pass over two runs of lines adds the first run's bands, then the second's. */
  lemma {:induction false} BandsAppend(a: seq<Line>, b: seq<Line>, width: int, left: int, fill: Color)
    ensures Bands(a + b, width, left, fill) == Bands(a, width, left, fill) + Bands(b, width, left, fill)
  {
    if a == [] {
      assert a + b == b;
    } else {
      assert (a + b)[1..] == a[1..] + b;
      BandsAppend(a[1..], b, width, left, fill);
    }
  }

  /**
   * A refresh pass does not deduplicate: an odd-numbered line that occurs
   * twice in the input gets two identical bands anchored to the same extent.
   */
  lemma RepeatedLineGetsTwoBands(line: Line, width: int, left: int, fill: Color)
    requires IsOddLine(line)
    ensures Bands([line, line], width, left, fill) == [BandFor(line, width, left, fill), BandFor(line, width, left, fill)]
  {
    BandsAppend([line], [line], width, left, fill);
    assert [line] + [line] == [line, line];
  }

  /** The layer after a width broadcast: every rectangle takes the new width. */
  function WithWidth(layer: seq<Decoration>, width: int): (r: seq<Decoration>)
    ensures |r| == |layer|
    ensures forall k :: 0 <= k < |r| ==>
      r[k].width == width && r[k].extent == layer[k].extent && r[k].height == layer[k].height &&
      r[k].left == layer[k].left && r[k].top == layer[k].top && r[k].fill == layer[k].fill
  {
    seq(|layer|, k requires 0 <= k < |layer| => layer[k].(width := width))
  }

  /** The layer after a left-offset broadcast: every rectangle moves to the new left offset. */
  function WithLeft(layer: seq<Decoration>, left: int): (r: seq<Decoration>)
    ensures |r| == |layer|
    ensures forall k :: 0 <= k < |r| ==>
      r[k].left == left && r[k].extent == layer[k].extent && r[k].height == layer[k].height &&
      r[k].width == layer[k].width && r[k].top == layer[k].top && r[k].fill == layer[k].fill
  {
    seq(|layer|, k requires 0 <= k < |layer| => layer[k].(left := left))
  }

  /** Every rectangle of the layer spans the viewport of the given width and left offset. */
  predicate SpansViewport(layer: seq<Decoration>, width: int, left: int)
  {
    forall d :: d in layer ==> d.width == width && d.left == left
  }

  /** The two broadcasts together bring any layer into line with the viewport. */
  lemma BroadcastsSpanViewport(layer: seq<Decoration>, width: int, left: int)
    ensures SpansViewport(WithLeft(WithWidth(layer, width), left), width, left)
    ensures SpansViewport(WithWidth(WithLeft(layer, left), width), width, left)
  {
    var a := WithLeft(WithWidth(layer, width), left);
    forall d | d in a ensures d.width == width && d.left == left {
      var k :| 0 <= k < |a| && a[k] == d;
    }
    var b := WithWidth(WithLeft(layer, left), width);
    forall d | d in b ensures d.width == width && d.left == left {
      var k :| 0 <= k < |b| && b[k] == d;
    }
  }

  /** The two broadcasts touch different fields, so their order does not matter. */
  lemma BroadcastsCommute(layer: seq<Decoration>, width: int, left: int)
    ensures WithLeft(WithWidth(layer, width), left) == WithWidth(WithLeft(layer, left), width)
  {
  }

  /** Repeating a broadcast with the same value changes nothing. */
  lemma BroadcastsIdempotent(layer: seq<Decoration>, width: int, left: int)
    ensures WithWidth(WithWidth(layer, width), width) == WithWidth(layer, width)
    ensures WithLeft(WithLeft(layer, left), left) == WithLeft(layer, left)
  {
  }

  /** A broadcast keeps a layer that already spans the viewport as it is. */
  lemma BroadcastKeepsSpanningLayer(layer: seq<Decoration>, width: int, left: int)
    requires SpansViewport(layer, width, left)
    ensures WithWidth(layer, width) == layer
    ensures WithLeft(layer, left) == layer
  {
    assert forall k :: 0 <= k < |layer| ==> layer[k] in layer;
  }
}
