/**
 * Ready-made steps: turning detected circles into bounding boxes. A circle is
 * `(x, y, r)`; its box is `(x - r, y + r, x + r, y - r)`, so the second and
 * fourth coordinates are the top and the bottom edge in a y-up frame.
 */
module Processes {
  /** A circle `(x, y, r)`. */
  type Circle = (int, int, int)

  /** A box `(x, y, maxx, maxy)`, as `circles_to_bboxes` lays it out. */
  type BBox = (int, int, int, int)

  function CircleToBbox(c: Circle): BBox
  {
    (c.0 - c.2, c.1 + c.2, c.0 + c.2, c.1 - c.2)
  }

  /** `circles_to_bboxes`: one box per circle, in the same order. */
  function CirclesToBboxes(circles: seq<Circle>): (r: seq<BBox>)
    ensures |r| == |circles|
  {
    seq(|circles|, i requires 0 <= i < |circles| => CircleToBbox(circles[i]))
  }

  /** The circle a box was made from: its centre and half its width. */
  function BboxToCircle(b: BBox): Circle
  {
    ((b.0 + b.2) / 2, (b.1 + b.3) / 2, (b.2 - b.0) / 2)
  }

  function BboxesToCircles(bboxes: seq<BBox>): (r: seq<Circle>)
    ensures |r| == |bboxes|
  {
    seq(|bboxes|, i requires 0 <= i < |bboxes| => BboxToCircle(bboxes[i]))
  }

  /** A box some circle maps to: as wide as it is tall, with an even side. */
  predicate IsCircleBox(b: BBox)
  {
    b.2 - b.0 == b.1 - b.3 && (b.2 - b.0) % 2 == 0
  }

  /** Box `i` is built from circle `i`: `(x - r, y + r, x + r, y - r)`. */
  lemma CirclesToBboxesElements(circles: seq<Circle>)
    ensures forall i :: 0 <= i < |circles| ==>
      var (x, y, r) := circles[i];
      CirclesToBboxes(circles)[i] == (x - r, y + r, x + r, y - r)
  {
  }

  /** Every circle can be read back from its box. */
  lemma CirclesRoundTrip(circles: seq<Circle>)
    ensures BboxesToCircles(CirclesToBboxes(circles)) == circles
  {
    var back := BboxesToCircles(CirclesToBboxes(circles));
    forall i | 0 <= i < |circles|
      ensures back[i] == circles[i]
    {
      var (x, y, r) := circles[i];
      assert CirclesToBboxes(circles)[i] == (x - r, y + r, x + r, y - r);
      assert (x - r + (x + r)) / 2 == x;
      assert (y + r + (y - r)) / 2 == y;
      assert (x + r - (x - r)) / 2 == r;
    }
  }

  /** Every circle's box is square with an even side. */
  lemma CircleBoxIsSquare(c: Circle)
    ensures IsCircleBox(CircleToBbox(c))
  {
    assert CircleToBbox(c).2 - CircleToBbox(c).0 == 2 * c.2;
    assert (2 * c.2) % 2 == 0;
  }

  /** A box is rebuilt from the circle read off it exactly when it is square with an even side. */
  lemma BoxOfCircleIff(b: BBox)
    ensures IsCircleBox(b) <==> CircleToBbox(BboxToCircle(b)) == b
  {
    var (x0, y0, x1, y1) := b;
    var h := (x1 - x0) / 2;
    var c := BboxToCircle(b);
    if IsCircleBox(b) {
      assert x1 - x0 == 2 * h;
      assert y0 - y1 == 2 * h;
      assert c == (x0 + h, y1 + h, h);
    } else if CircleToBbox(c) == b {
      CircleBoxIsSquare(c);
      assert false;
    }
  }

  /** Reading boxes back as circles and converting again gives the same boxes
      exactly when every box is square with an even side. */
  lemma BoxesRoundTrip(bboxes: seq<BBox>)
    ensures CirclesToBboxes(BboxesToCircles(bboxes)) == bboxes <==> forall i :: 0 <= i < |bboxes| ==> IsCircleBox(bboxes[i])
  {
    var again := CirclesToBboxes(BboxesToCircles(bboxes));
    forall i | 0 <= i < |bboxes|
      ensures again[i] == bboxes[i] <==> IsCircleBox(bboxes[i])
    {
      BoxOfCircleIff(bboxes[i]);
    }
    if again != bboxes {
      var i :| 0 <= i < |bboxes| && again[i] != bboxes[i];
      assert !IsCircleBox(bboxes[i]);
    }
  }

  /** With a non-negative radius, the first coordinate is at most the third and
      the second at least the fourth. */
  lemma BoxesOrdered(circles: seq<Circle>)
    requires forall i :: 0 <= i < |circles| ==> circles[i].2 >= 0
    ensures forall i :: 0 <= i < |circles| ==>
      CirclesToBboxes(circles)[i].0 <= CirclesToBboxes(circles)[i].2 &&
      CirclesToBboxes(circles)[i].3 <= CirclesToBboxes(circles)[i].1
  {
  }

  /** The conversion works circle by circle: it distributes over concatenation. */
  lemma CirclesToBboxesConcat(a: seq<Circle>, b: seq<Circle>)
    ensures CirclesToBboxes(a + b) == CirclesToBboxes(a) + CirclesToBboxes(b)
  {
    var lhs, rhs := CirclesToBboxes(a + b), CirclesToBboxes(a) + CirclesToBboxes(b);
    forall i | 0 <= i < |a + b|
      ensures lhs[i] == rhs[i]
    {
      if i < |a| {
        assert (a + b)[i] == a[i];
      } else {
        assert (a + b)[i] == b[i - |a|];
      }
    }
  }
}
