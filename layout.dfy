/** The 2D room layout: furniture markers placed round-robin on eight fixed
    anchor points scaled to the room, drawn onto a plotting axes. Python
    floats are modelled as exact reals. */
module Layout {
  import opened Wrappers

  datatype Point = Point(x: real, y: real)

  /** One `ax.scatter(x, y, ..., label=item)` call: a square marker. */
  datatype Marker = Marker(at: Point, name: string)

  /** One `ax.text(x, y, item, ...)` call: a text label. */
  datatype Annotation = Annotation(at: Point, text: string)

  /** What has been drawn on the axes: markers and labels in drawing order,
      and the axis bounds once `xlim`/`ylim` set them (`None` while they are
      still automatic). */
  datatype Figure = Figure(
    markers: seq<Marker>,
    annotations: seq<Annotation>,
    xlim: Option<(real, real)>,
    ylim: Option<(real, real)>)

  /** A label sits this fraction of the breadth above its marker. */
  const LabelOffset: real := 0.03

  /** The table of anchor points, each a fixed fraction of the room's length
      and breadth. */
  function Positions(length: real, breadth: real): (ps: seq<Point>)
    ensures |ps| == 8
  {
    [ Point(0.1 * length, 0.1 * breadth),
      Point(0.1 * length, 0.8 * breadth),
      Point(0.8 * length, 0.1 * breadth),
      Point(0.8 * length, 0.8 * breadth),
      Point(0.3 * length, 0.5 * breadth),
      Point(0.5 * length, 0.3 * breadth),
      Point(0.5 * length, 0.7 * breadth),
      Point(0.7 * length, 0.5 * breadth) ]
  }

  /** `positions[i % len(positions)]`: the anchor of the `i`-th item. */
  function AnchorOf(i: nat, length: real, breadth: real): Point {
    var ps := Positions(length, breadth);
    ps[i % |ps|]
  }

  /** Where the label of a marker at `p` goes. */
  function LabelAt(p: Point, breadth: real): Point {
    Point(p.x, p.y + LabelOffset * breadth)
  }

  /** The markers the placement loop draws, one per item in list order. */
  function PlacedMarkers(furniture: seq<string>, length: real, breadth: real): seq<Marker> {
    seq(|furniture|, k requires 0 <= k < |furniture| => Marker(AnchorOf(k, length, breadth), furniture[k]))
  }

  /** The labels the placement loop draws, one per item in list order. */
  function PlacedLabels(furniture: seq<string>, length: real, breadth: real): seq<Annotation> {
    seq(|furniture|, k requires 0 <= k < |furniture| =>
      Annotation(LabelAt(AnchorOf(k, length, breadth), breadth), furniture[k]))
  }

  /** The figure a fresh axes holds after lines 82-88. */
  function LayoutFigure(furniture: seq<string>, length: real, breadth: real): Figure {
    Figure(PlacedMarkers(furniture, length, breadth), PlacedLabels(furniture, length, breadth),
           Some((0.0, length)), Some((0.0, breadth)))
  }

  /** The plotting axes the handler draws on (`plt.gca()` of a new figure). */
  class Axes {
    var markers: seq<Marker>
    var annotations: seq<Annotation>
    var xlim: Option<(real, real)>
    var ylim: Option<(real, real)>

    /** A new figure's axes: nothing drawn, bounds automatic. */
    constructor ()
      ensures markers == [] && annotations == [] && xlim == None && ylim == None
    {
      markers, annotations := [], [];
      xlim, ylim := None, None;
    }

    function Snapshot(): Figure
      reads this
    {
      Figure(markers, annotations, xlim, ylim)
    }

    /** `ax.scatter(x, y, label=name)`. */
    method Scatter(at: Point, name: string)
      modifies this
      ensures markers == old(markers) + [Marker(at, name)]
      ensures annotations == old(annotations) && xlim == old(xlim) && ylim == old(ylim)
    {
      markers := markers + [Marker(at, name)];
    }

    /** `ax.text(x, y, text)`. */
    method Text(at: Point, text: string)
      modifies this
      ensures annotations == old(annotations) + [Annotation(at, text)]
      ensures markers == old(markers) && xlim == old(xlim) && ylim == old(ylim)
    {
      annotations := annotations + [Annotation(at, text)];
    }

    /** `plt.xlim(lo, hi)` on the current axes. */
    method SetXLim(lo: real, hi: real)
      modifies this
      ensures xlim == Some((lo, hi))
      ensures markers == old(markers) && annotations == old(annotations) && ylim == old(ylim)
    {
      xlim := Some((lo, hi));
    }

    /** `plt.ylim(lo, hi)` on the current axes. */
    method SetYLim(lo: real, hi: real)
      modifies this
      ensures ylim == Some((lo, hi))
      ensures markers == old(markers) && annotations == old(annotations) && xlim == old(xlim)
    {
      ylim := Some((lo, hi));
    }
  }

  /** Lines 82-88: one marker and one label per item, item `i` at anchor
      `i % 8`, then the axis bounds set to the room. */
  method DrawLayout(ax: Axes, furniture: seq<string>, length: real, breadth: real)
    modifies ax
    ensures ax.markers == old(ax.markers) + PlacedMarkers(furniture, length, breadth)
    ensures ax.annotations == old(ax.annotations) + PlacedLabels(furniture, length, breadth)
    ensures ax.xlim == Some((0.0, length)) && ax.ylim == Some((0.0, breadth))
  {
    var positions := Positions(length, breadth);
    ghost var markers0, annotations0 := ax.markers, ax.annotations;
    for i := 0 to |furniture|
      invariant |ax.markers| == |markers0| + i && ax.markers[..|markers0|] == markers0
      invariant |ax.annotations| == |annotations0| + i && ax.annotations[..|annotations0|] == annotations0
      invariant forall k | 0 <= k < i ::
        ax.markers[|markers0| + k] == Marker(AnchorOf(k, length, breadth), furniture[k])
      invariant forall k | 0 <= k < i ::
        ax.annotations[|annotations0| + k] == Annotation(LabelAt(AnchorOf(k, length, breadth), breadth), furniture[k])
    {
      var p := positions[i % |positions|];
      ax.Scatter(p, furniture[i]);
      ax.Text(LabelAt(p, breadth), furniture[i]);
    }
    ax.SetXLim(0.0, length);
    ax.SetYLim(0.0, breadth);
    assert ax.markers == markers0 + PlacedMarkers(furniture, length, breadth);
    assert ax.annotations == annotations0 + PlacedLabels(furniture, length, breadth);
  }

  /** Every item gets exactly one marker and one label, in list order, both
      named after the item, the label `0.03 * breadth` above the marker. */
  lemma {:induction false} OneMarkerPerItem(furniture: seq<string>, length: real, breadth: real, k: nat)
    requires k < |furniture|
    ensures |PlacedMarkers(furniture, length, breadth)| == |PlacedLabels(furniture, length, breadth)| == |furniture|
    ensures PlacedMarkers(furniture, length, breadth)[k].name == furniture[k]
    ensures PlacedLabels(furniture, length, breadth)[k].text == furniture[k]
    ensures PlacedLabels(furniture, length, breadth)[k].at.x == PlacedMarkers(furniture, length, breadth)[k].at.x
    ensures PlacedLabels(furniture, length, breadth)[k].at.y == PlacedMarkers(furniture, length, breadth)[k].at.y + 0.03 * breadth
  {
  }

  /** Round-robin: items eight places apart share an anchor. */
  lemma {:induction false} RoundRobin(furniture: seq<string>, length: real, breadth: real, i: nat)
    requires i + 8 < |furniture|
    ensures PlacedMarkers(furniture, length, breadth)[i + 8].at == PlacedMarkers(furniture, length, breadth)[i].at
  {
    assert (i + 8) % 8 == i % 8;
  }

  /** For a room of positive size, the eight anchors are pairwise distinct, so
      a list of at most eight items never stacks two markers. */
  lemma {:induction false} DistinctAnchors(furniture: seq<string>, length: real, breadth: real, i: nat, j: nat)
    requires length > 0.0 && breadth > 0.0
    requires |furniture| <= 8 && i < j < |furniture|
    ensures PlacedMarkers(furniture, length, breadth)[i].at != PlacedMarkers(furniture, length, breadth)[j].at
  {
  }

  /** For a room of positive size, every marker and every label lies strictly
      inside the axis bounds `[0, length] x [0, breadth]` the layout sets. */
  lemma {:induction false} InsideRoom(furniture: seq<string>, length: real, breadth: real, k: nat)
    requires length > 0.0 && breadth > 0.0 && k < |furniture|
    ensures var p := PlacedMarkers(furniture, length, breadth)[k].at;
      0.0 < p.x < length && 0.0 < p.y < breadth
    ensures var q := PlacedLabels(furniture, length, breadth)[k].at;
      0.0 < q.x < length && 0.0 < q.y < breadth
  {
  }
}
