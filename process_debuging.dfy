/**
 * Debugging steps for troubleshooting a workflow. Both pass their input
 * through unchanged; what they print is modelled as a returned log.
 */
module Debugging {
  import opened Workflows
  import opened Processes

  /** `echo_output`: the input, unchanged. */
  function EchoOutput<T>(input: T): T
  {
    input
  }

  /** `echo_output` as a step of a workflow. */
  function EchoStep<T>(): (p: Process<T>)
    ensures p.name == "echo_output"
  {
    Process("echo_output", x => EchoOutput(x))
  }

  /** Adding an echo step anywhere in a workflow does not change what it computes. */
  lemma EchoTransparent<T>(before: seq<Process<T>>, after: seq<Process<T>>, x: T)
    ensures Apply(before + [EchoStep()] + after, x) == Apply(before + after, x)
  {
    var echo: seq<Process<T>> := [EchoStep()];
    ApplyConcat(before + echo, after, x);
    ApplyConcat(before, echo, x);
    ApplyConcat(before, after, x);
    assert echo[..0] == [];
  }

  /** A box lies outside a `width` × `height` frame when a coordinate exceeds its bound; a coordinate equal to the bound is inside. */
  predicate OutOfBound(width: int, height: int, b: BBox)
  {
    b.0 > width || b.2 > width || b.1 > height || b.3 > height
  }

  /** The boxes `check_bbox_outofbound` reports, one message each, in input order. */
  function OutOfBoundLog(width: int, height: int, bboxes: seq<BBox>): seq<BBox>
    decreases |bboxes|
  {
    if bboxes == [] then []
    else
      var last := bboxes[|bboxes| - 1];
      OutOfBoundLog(width, height, bboxes[..|bboxes| - 1]) + (if OutOfBound(width, height, last) then [last] else [])
  }

  /** `check_bbox_outofbound`: reports each out-of-bound box and hands back its input. */
  method CheckBboxOutOfBound(width: int, height: int, bboxes: seq<BBox>) returns (result: seq<BBox>, log: seq<BBox>)
    ensures result == bboxes && result == EchoBboxOutOfBound(width, height).fn(bboxes)
    ensures log == OutOfBoundLog(width, height, bboxes)
  {
    log := [];
    for i := 0 to |bboxes|
      invariant log == OutOfBoundLog(width, height, bboxes[..i])
    {
      var (x, y, maxx, maxy) := bboxes[i];
      assert bboxes[..i + 1][..i] == bboxes[..i];
      if x > width || maxx > width || y > height || maxy > height {
        log := log + [(x, y, maxx, maxy)];
      }
    }
    assert bboxes[..|bboxes|] == bboxes;
    result := bboxes;
  }

  /** `echo_bbox_outofbound(width, height)`: the check as a workflow step, named after the inner function. */
  function EchoBboxOutOfBound(width: int, height: int): (p: Process<seq<BBox>>)
    ensures p.name == "check_bbox_outofbound"
    ensures forall bs :: p.fn(bs) == bs
  {
    Process("check_bbox_outofbound", bs => bs)
  }

  /** Adding the bounds check anywhere in a box workflow does not change what it computes. */
  lemma EchoBboxTransparent(width: int, height: int, before: seq<Process<seq<BBox>>>, after: seq<Process<seq<BBox>>>, bboxes: seq<BBox>)
    ensures Apply(before + [EchoBboxOutOfBound(width, height)] + after, bboxes) == Apply(before + after, bboxes)
  {
    var check: seq<Process<seq<BBox>>> := [EchoBboxOutOfBound(width, height)];
    ApplyConcat(before + check, after, bboxes);
    ApplyConcat(before, check, bboxes);
    ApplyConcat(before, after, bboxes);
    assert check[..0] == [];
  }

  /** A box is reported exactly when it is in the input and out of bound. */
  lemma {:induction false} OutOfBoundLogMembers(width: int, height: int, bboxes: seq<BBox>, b: BBox)
    ensures b in OutOfBoundLog(width, height, bboxes) <==> b in bboxes && OutOfBound(width, height, b)
    decreases |bboxes|
  {
    if bboxes != [] {
      var pre := bboxes[..|bboxes| - 1];
      OutOfBoundLogMembers(width, height, pre, b);
      assert bboxes == pre + [bboxes[|bboxes| - 1]];
    }
  }

  /** Reports are made box by box: the log of a concatenation is the concatenation of the logs. */
  lemma {:induction false} OutOfBoundLogConcat(width: int, height: int, a: seq<BBox>, b: seq<BBox>)
    ensures OutOfBoundLog(width, height, a + b) == OutOfBoundLog(width, height, a) + OutOfBoundLog(width, height, b)
    decreases |b|
  {
    if b == [] {
      assert a + b == a;
    } else {
      var pre := b[..|b| - 1];
      OutOfBoundLogConcat(width, height, a, pre);
      assert (a + b)[..|a + b| - 1] == a + pre;
    }
  }

  /** One box gives one message when out of bound and none otherwise. */
  lemma OutOfBoundLogSingle(width: int, height: int, b: BBox)
    ensures OutOfBoundLog(width, height, [b]) == if OutOfBound(width, height, b) then [b] else []
  {
    assert [b][..0] == [];
  }

  /** No box in bound means no message; every box out of bound means one message per box. */
  lemma {:induction false} OutOfBoundLogExtremes(width: int, height: int, bboxes: seq<BBox>)
    ensures (forall i :: 0 <= i < |bboxes| ==> !OutOfBound(width, height, bboxes[i])) ==> OutOfBoundLog(width, height, bboxes) == []
    ensures (forall i :: 0 <= i < |bboxes| ==> OutOfBound(width, height, bboxes[i])) ==> OutOfBoundLog(width, height, bboxes) == bboxes
    decreases |bboxes|
  {
    if bboxes != [] {
      var pre := bboxes[..|bboxes| - 1];
      OutOfBoundLogExtremes(width, height, pre);
      assert bboxes == pre + [bboxes[|bboxes| - 1]];
      assert forall i :: 0 <= i < |pre| ==> pre[i] == bboxes[i];
    }
  }
}
