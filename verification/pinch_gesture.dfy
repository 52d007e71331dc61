/**
 How the canvas view drives `scaleElement` from a pinch. A magnification
 gesture reports, on every change, the total magnification since the gesture
 began; the view passes each report straight to `scaleElement`, which
 multiplies the element's current size by it. Successive reports therefore
 compound. The drag handler in the same view avoids this by subtracting the
 previous report; the corrected driver does the same for pinches by dividing
 by the previous report.
 */
module PinchGesture {
  import opened Common
  import opened ElementModel
  import opened ViewModel

  /**
   One scaling by `a` followed by one by `b` is one scaling by this factor.
   Naming the product lets the proofs below match it as one term; the solver
   does not equate two bare products of reals whose arguments are only
   provably equal.
   */
  function Compose(a: real, b: real): real
  {
    a * b
  }

  /** The factor that takes a gesture from report `previous` to report `report`. */
  function StepFactor(report: real, previous: real): real
    requires previous != 0.0
  {
    report / previous
  }

  /** `acc` times every report, multiplied in report order. */
  function Product(acc: real, reports: seq<real>): real
    decreases |reports|
  {
    if |reports| == 0 then acc else Product(Compose(acc, reports[0]), reports[1..])
  }

  /** As written: every report of one gesture is applied as a factor of its own. */
  function PinchAsWritten(es: seq<BoardElement>, id: Uuid, reports: seq<real>): seq<BoardElement>
    decreases |reports|
  {
    if |reports| == 0 then es
    else PinchAsWritten(ScaleElement(es, id, reports[0]), id, reports[1..])
  }

  /** Pinching after two scalings is pinching after one by their composition. */
  lemma PinchAfterTwoScales(es: seq<BoardElement>, id: Uuid, a: real, b: real, reports: seq<real>)
    ensures PinchAsWritten(ScaleElement(ScaleElement(es, id, a), id, b), id, reports)
         == PinchAsWritten(ScaleElement(es, id, Compose(a, b)), id, reports)
  {
    ScaleTwice(es, id, a, b);
  }

  /** `ViewModel.ScaleTwice` with the product named by `Compose`, for the proofs below. */
  lemma ScaleComposed(es: seq<BoardElement>, id: Uuid, a: real, b: real)
    ensures ScaleElement(ScaleElement(es, id, a), id, b) == ScaleElement(es, id, Compose(a, b))
  {
    ScaleTwice(es, id, a, b);
  }

  /** One report of the as-written driver, given the claim for the remaining reports. */
  lemma PinchAsWrittenStep(es: seq<BoardElement>, id: Uuid, acc: real, reports: seq<real>)
    requires |reports| > 0
    requires PinchAsWritten(ScaleElement(es, id, Compose(acc, reports[0])), id, reports[1..])
          == ScaleElement(es, id, Product(Compose(acc, reports[0]), reports[1..]))
    ensures PinchAsWritten(ScaleElement(es, id, acc), id, reports) == ScaleElement(es, id, Product(acc, reports))
  {
    PinchAfterTwoScales(es, id, acc, reports[0], reports[1..]);
  }

  /**
   As written, a gesture amounts to one scaling by the product of all its
   reports (shown here after an earlier scaling by `acc`).
   */
  lemma {:induction false} PinchAsWrittenMultipliesAll(es: seq<BoardElement>, id: Uuid, acc: real, reports: seq<real>)
    ensures PinchAsWritten(ScaleElement(es, id, acc), id, reports) == ScaleElement(es, id, Product(acc, reports))
    decreases |reports|
  {
    if |reports| > 0 {
      PinchAsWrittenMultipliesAll(es, id, Compose(acc, reports[0]), reports[1..]);
      PinchAsWrittenStep(es, id, acc, reports);
    }
  }

  /**
   A pinch held at 2x, reported twice, leaves a fresh 160 x 160 sticky note
   at 640 x 640, four times its size instead of two.
   */
  lemma PinchCompounds(id: Uuid)
    ensures PinchAsWritten([NewStickyNote(id)], id, [2.0, 2.0])[0].geometry.size == Size(640.0, 640.0)
  {
    var es := [NewStickyNote(id)];
    assert IndexOf(es, id) == Some(0);
    ScaleByOne(es, id);
    PinchAsWrittenMultipliesAll(es, id, 1.0, [2.0, 2.0]);
    assert Product(1.0, [2.0, 2.0]) == 4.0 by {
      assert [2.0, 2.0][1..] == [2.0];
      assert [2.0][1..] == [];
    }
  }

  /**
   Corrected: each report is turned into the step since the previous report
   (the gesture starts at 1) before it reaches `scaleElement`.
   Magnification reports are positive.
   */
  function PinchCorrected(es: seq<BoardElement>, id: Uuid, reports: seq<real>, previous: real): seq<BoardElement>
    requires previous > 0.0
    requires forall k :: 0 <= k < |reports| ==> reports[k] > 0.0
    decreases |reports|
  {
    if |reports| == 0 then es
    else PinchCorrected(ScaleElement(es, id, StepFactor(reports[0], previous)), id, reports[1..], reports[0])
  }

  /** The last report of a gesture, or `previous` when there is none yet. */
  function Latest(reports: seq<real>, previous: real): real
  {
    if |reports| == 0 then previous else reports[|reports| - 1]
  }

  /** Stepping from `previous` to `middle` and then to `last` steps from `previous` to `last`. */
  lemma StepsCompose(previous: real, middle: real, last: real)
    requires previous != 0.0 && middle != 0.0
    ensures Compose(StepFactor(middle, previous), StepFactor(last, middle)) == StepFactor(last, previous)
  {
    calc {
      Compose(StepFactor(middle, previous), StepFactor(last, middle));
      (middle / previous) * (last / middle);
      (middle * last) / (previous * middle);
      last / previous;
    }
  }

  /** One report of the corrected driver, given the claim for the remaining reports. */
  lemma PinchCorrectedStep(es: seq<BoardElement>, id: Uuid, reports: seq<real>, previous: real)
    requires previous > 0.0
    requires forall k :: 0 <= k < |reports| ==> reports[k] > 0.0
    requires |reports| > 0
    requires PinchCorrected(ScaleElement(es, id, StepFactor(reports[0], previous)), id, reports[1..], reports[0])
          == ScaleElement(ScaleElement(es, id, StepFactor(reports[0], previous)), id,
                          StepFactor(Latest(reports[1..], reports[0]), reports[0]))
    ensures PinchCorrected(es, id, reports, previous)
         == ScaleElement(es, id, StepFactor(Latest(reports, previous), previous))
  {
    assert Latest(reports[1..], reports[0]) == Latest(reports, previous);
    ScaleComposed(es, id, StepFactor(reports[0], previous), StepFactor(Latest(reports, previous), reports[0]));
    StepsCompose(previous, reports[0], Latest(reports, previous));
  }

  /**
   Corrected, a gesture amounts to one scaling by its latest report (relative
   to `previous`, which is 1 at the start of the gesture), whatever reports
   came between.
   */
  lemma {:induction false} PinchCorrectedTracksGesture(es: seq<BoardElement>, id: Uuid, reports: seq<real>, previous: real)
    requires previous > 0.0
    requires forall k :: 0 <= k < |reports| ==> reports[k] > 0.0
    ensures PinchCorrected(es, id, reports, previous) == ScaleElement(es, id, StepFactor(Latest(reports, previous), previous))
    decreases |reports|
  {
    if |reports| == 0 {
      assert StepFactor(previous, previous) == 1.0;
      ScaleByOne(es, id);
    } else {
      PinchCorrectedTracksGesture(ScaleElement(es, id, StepFactor(reports[0], previous)), id, reports[1..], reports[0]);
      PinchCorrectedStep(es, id, reports, previous);
    }
  }

  /** The same held pinch, corrected: the note is 320 x 320, twice its size. */
  lemma PinchCorrectedHolds(id: Uuid)
    ensures PinchCorrected([NewStickyNote(id)], id, [2.0, 2.0], 1.0)[0].geometry.size == Size(320.0, 320.0)
  {
    var es := [NewStickyNote(id)];
    assert IndexOf(es, id) == Some(0);
    PinchCorrectedTracksGesture(es, id, [2.0, 2.0], 1.0);
  }
}
