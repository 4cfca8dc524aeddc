/** The calibration store and movement normaliser of movement_analyser.py
    (class MovementAnalyser), without the camera.

    A frame of pose landmarks is a sequence of `(id, x, y)` entries; the pose
    model reports either none or a full set (at least 13, so that the
    shoulders, entries 11 and 12, are there). Calibration records the
    shoulders high (arms up) and low (arms down); the current shoulder
    height is then mapped linearly onto [-1, 1]. */
module Movement {
  import opened Common

  /** One pose landmark `[id, x, y]`, in pixels. */
  datatype BodyPart = BodyPart(id: int, x: int, y: int)

  /** A frame as the pose model delivers it: empty when nobody is seen. */
  predicate WellFormedFrame(parts: seq<BodyPart>) {
    parts == [] || |parts| >= 13
  }

  /** Python's `sum`, adding from the left. */
  function Sum(xs: seq<real>): real {
    if xs == [] then 0.0 else Sum(xs[..|xs| - 1]) + xs[|xs| - 1]
  }

  /** get_mean (movement_analyser.py:35-37): the sum divided by the count.
      Python raises ZeroDivisionError for no arguments. */
  function Mean(xs: seq<real>): (m: real)
    requires |xs| > 0
    ensures m * |xs| as real == Sum(xs)
  {
    Sum(xs) / |xs| as real
  }

  lemma {:induction false} SumBounds(xs: seq<real>, lo: real, hi: real)
    requires forall k :: 0 <= k < |xs| ==> lo <= xs[k] <= hi
    ensures |xs| as real * lo <= Sum(xs) <= |xs| as real * hi
  {
    if xs != [] {
      var init := xs[..|xs| - 1];
      assert forall k :: 0 <= k < |init| ==> init[k] == xs[k];
      SumBounds(init, lo, hi);
      assert |xs| as real * lo == |init| as real * lo + lo;
      assert |xs| as real * hi == |init| as real * hi + hi;
    }
  }

  /** The mean lies between the smallest and the largest argument. */
  lemma MeanBounds(xs: seq<real>, lo: real, hi: real)
    requires |xs| > 0
    requires forall k :: 0 <= k < |xs| ==> lo <= xs[k] <= hi
    ensures lo <= Mean(xs) <= hi
  {
    SumBounds(xs, lo, hi);
    var n := |xs| as real;
    var m := Mean(xs);
    CancelPositive(lo, m, n);
    CancelPositive(m, hi, n);
  }

  lemma CancelPositive(a: real, b: real, n: real)
    requires n > 0.0 && a * n <= b * n
    ensures a <= b
  {
    assert (b - a) * n == b * n - a * n;
  }

  /** The mean of two values is their midpoint. */
  lemma MeanOfTwo(a: real, b: real)
    ensures Mean([a, b]) == (a + b) / 2.0
  {
    assert [a, b][..1] == [a];
    assert [a][..0] == [];
    assert Sum([a]) == a;
    assert Sum([a, b]) == a + b;
  }

  /** Python's slice `s[lo:hi]`: bounds past the end are cut to the end. */
  function Slice<T>(s: seq<T>, lo: nat, hi: nat): (r: seq<T>)
    requires lo <= hi
    ensures |r| == if |s| <= lo then 0 else if |s| < hi then |s| - lo else hi - lo
    ensures forall k :: 0 <= k < |r| ==> r[k] == s[lo + k]
  {
    if |s| <= lo then [] else s[lo..if |s| < hi then |s| else hi]
  }

  /** `body_parts[11:13]`: both shoulders. */
  function Shoulders(parts: seq<BodyPart>): seq<BodyPart> {
    Slice(parts, 11, 13)
  }

  /** `body_parts[13:15]`: both elbows. */
  function Elbows(parts: seq<BodyPart>): seq<BodyPart> {
    Slice(parts, 13, 15)
  }

  /** The fields of a MovementAnalyser that calibration changes. */
  datatype Calibration = Calibration(
    upShoulders: Option<seq<BodyPart>>, upElbows: Option<seq<BodyPart>>,
    downShoulders: Option<seq<BodyPart>>, downElbows: Option<seq<BodyPart>>,
    meanUp: real, meanDown: real, bodyParts: seq<BodyPart>)

  /** The state after construction and after reset (movement_analyser.py:16-21). */
  const Uncalibrated := Calibration(None, None, None, None, 0.0, 0.0, [])

  /** A stored shoulder slice comes from a well-formed frame: both shoulders
      or none. */
  predicate PairOrNone(v: Option<seq<BodyPart>>) {
    v.Some? ==> |v.value| == 0 || |v.value| == 2
  }

  predicate WellFormed(c: Calibration) {
    WellFormedFrame(c.bodyParts) && PairOrNone(c.upShoulders) && PairOrNone(c.downShoulders)
  }

  /** The effect of get_positions on body_parts: a frame that could not be
      read (camera off, failed read) leaves it alone, otherwise it is
      replaced by the landmarks of the frame, possibly none. */
  function ReceiveFrameStep(c: Calibration, frame: Option<seq<BodyPart>>): Calibration {
    match frame
    case None => c
    case Some(parts) => c.(bodyParts := parts)
  }

  /** get_up_positions (movement_analyser.py:23-25). */
  function UpPositionsStep(c: Calibration): Calibration {
    c.(upShoulders := Some(Shoulders(c.bodyParts)), upElbows := Some(Elbows(c.bodyParts)))
  }

  /** get_down_positions (movement_analyser.py:27-29). */
  function DownPositionsStep(c: Calibration): Calibration {
    c.(downShoulders := Some(Shoulders(c.bodyParts)), downElbows := Some(Elbows(c.bodyParts)))
  }

  /** calculate_setup_means needs two recorded shoulders in each pose;
      otherwise Python fails on `None[0]` or an index out of range. */
  predicate MeansDefined(c: Calibration) {
    c.upShoulders.Some? && |c.upShoulders.value| >= 2 && c.downShoulders.Some? && |c.downShoulders.value| >= 2
  }

  /** calculate_setup_means (movement_analyser.py:31-33): only the y values
      of the shoulders count. */
  function SetupMeansStep(c: Calibration): Calibration
    requires MeansDefined(c)
  {
    c.(meanUp := Mean([c.upShoulders.value[0].y as real, c.upShoulders.value[1].y as real]),
       meanDown := Mean([c.downShoulders.value[0].y as real, c.downShoulders.value[1].y as real]))
  }

  /** What a sample taken from a frame records: a frame of at least 15
      landmarks gives both shoulders and both elbows, one of exactly 13 the
      shoulders and no elbow, an empty frame nothing. The shoulders are
      landmarks 11 and 12, the elbows 13 and 14. */
  lemma SampleSlices(parts: seq<BodyPart>)
    requires WellFormedFrame(parts)
    ensures parts == [] ==> Shoulders(parts) == [] && Elbows(parts) == []
    ensures parts != [] ==> Shoulders(parts) == [parts[11], parts[12]]
    ensures |parts| == 13 ==> Elbows(parts) == []
    ensures |parts| == 14 ==> Elbows(parts) == [parts[13]]
    ensures |parts| >= 15 ==> Elbows(parts) == [parts[13], parts[14]]
  {
  }

  /** Calibration steps keep the stored slices well formed, and the means
      are the midpoints of the two shoulder heights recorded in each pose,
      whatever the elbows were. */
  lemma StepsWellFormed(c: Calibration, frame: Option<seq<BodyPart>>)
    requires WellFormed(c)
    requires frame.Some? ==> WellFormedFrame(frame.value)
    ensures WellFormed(ReceiveFrameStep(c, frame))
    ensures WellFormed(UpPositionsStep(c)) && WellFormed(DownPositionsStep(c))
    ensures MeansDefined(c) ==> WellFormed(SetupMeansStep(c))
    ensures MeansDefined(c) ==>
      var u, d := c.upShoulders.value, c.downShoulders.value;
      && SetupMeansStep(c) == c.(meanUp := (u[0].y + u[1].y) as real / 2.0, meanDown := (d[0].y + d[1].y) as real / 2.0)
  {
    if MeansDefined(c) {
      var u, d := c.upShoulders.value, c.downShoulders.value;
      MeanOfTwo(u[0].y as real, u[1].y as real);
      MeanOfTwo(d[0].y as real, d[1].y as real);
    }
  }

  /** The linear map of get_movement_percentage before clamping. */
  function Linear(now: real, up: real, down: real): real
    requires down != up
  {
    -2.0 * (now - up) / (down - up) + 1.0
  }

  /** The two clamping lines of get_movement_percentage: first to at most 1,
      then to at least -1. */
  function Clamp(p: real): (c: real)
    ensures -1.0 <= c <= 1.0
    ensures -1.0 <= p <= 1.0 ==> c == p
    ensures p > 1.0 ==> c == 1.0
    ensures p < -1.0 ==> c == -1.0
  {
    var a := if p < 1.0 then p else 1.0;
    if a > -1.0 then a else -1.0
  }

  /** get_movement_percentage needs the two shoulders of a non-empty frame
      and two different calibrated heights (the division is unguarded). */
  predicate PercentageDefined(parts: seq<BodyPart>, meanUp: real, meanDown: real) {
    parts == [] || (|parts| >= 13 && meanDown != meanUp)
  }

  /** get_movement_percentage (movement_analyser.py:84-95): 0 when no body
      is seen, otherwise the current shoulder height mapped so that the
      calibrated top gives 1 and the calibrated bottom -1, clamped to
      [-1, 1]. */
  function Percentage(parts: seq<BodyPart>, meanUp: real, meanDown: real): (p: real)
    requires PercentageDefined(parts, meanUp, meanDown)
    ensures -1.0 <= p <= 1.0
    ensures parts == [] ==> p == 0.0
    ensures parts != [] && (parts[11].y + parts[12].y) as real / 2.0 == meanUp ==> p == 1.0
    ensures parts != [] && (parts[11].y + parts[12].y) as real / 2.0 == meanDown ==> p == -1.0
  {
    if parts == [] then 0.0
    else
      var now := Mean([parts[11].y as real, parts[12].y as real]);
      MeanOfTwo(parts[11].y as real, parts[12].y as real);
      LinearEnds(meanUp, meanDown);
      Clamp(Linear(now, meanUp, meanDown))
  }

  /** The map is 1 at the top and -1 at the bottom of the calibration, 0 half
      way. */
  lemma LinearEnds(up: real, down: real)
    requires down != up
    ensures Linear(up, up, down) == 1.0
    ensures Linear(down, up, down) == -1.0
    ensures Linear((up + down) / 2.0, up, down) == 0.0
  {
    var d := down - up;
    MulDiv(-2.0, d, d);
    assert d / d == 1.0;
    var half := (up + down) / 2.0 - up;
    assert half == d / 2.0;
    MulDiv(-2.0, half, d);
    MulDiv(0.5, d, d);
    assert half / d == 0.5 * (d / d);
  }

  /** Real division distributes over a constant factor. */
  lemma MulDiv(k: real, a: real, d: real)
    requires d != 0.0
    ensures (k * a) / d == k * (a / d)
  {
    var q := a / d;
    assert q * d == a;
    assert (k * q) * d == k * a;
  }

  /** Between the two calibrated heights, in either order, no clamping
      happens: the result is exactly the linear map. */
  lemma PercentageUnclamped(parts: seq<BodyPart>, meanUp: real, meanDown: real)
    requires |parts| >= 13 && meanUp != meanDown
    requires (meanUp <= (parts[11].y + parts[12].y) as real / 2.0 <= meanDown)
          || (meanDown <= (parts[11].y + parts[12].y) as real / 2.0 <= meanUp)
    ensures Percentage(parts, meanUp, meanDown) == Linear((parts[11].y + parts[12].y) as real / 2.0, meanUp, meanDown)
  {
    MeanOfTwo(parts[11].y as real, parts[12].y as real);
    LinearInside((parts[11].y + parts[12].y) as real / 2.0, meanUp, meanDown);
  }

  /** The linear map stays in [-1, 1] between the calibrated heights. */
  lemma LinearInside(now: real, up: real, down: real)
    requires up != down
    requires (up <= now <= down) || (down <= now <= up)
    ensures -1.0 <= Linear(now, up, down) <= 1.0
  {
    var d := down - up;
    if up < down {
      ScaledFraction(now - up, d);
    } else {
      ScaledFraction(up - now, -d);
      MulDiv(-1.0, up - now, -d);
      assert (now - up) / d == (up - now) / -d;
    }
    MulDiv(-2.0, now - up, d);
  }

  lemma ScaledFraction(a: real, d: real)
    requires d > 0.0 && 0.0 <= a <= d
    ensures 0.0 <= a / d <= 1.0
  {
  }

  /** Lower shoulders (a larger image y) never give a larger percentage when
      the arms-down height is below the arms-up height. */
  lemma PercentageMonotone(a: seq<BodyPart>, b: seq<BodyPart>, meanUp: real, meanDown: real)
    requires |a| >= 13 && |b| >= 13 && meanUp < meanDown
    requires a[11].y + a[12].y <= b[11].y + b[12].y
    ensures Percentage(b, meanUp, meanDown) <= Percentage(a, meanUp, meanDown)
  {
    var na := Mean([a[11].y as real, a[12].y as real]);
    var nb := Mean([b[11].y as real, b[12].y as real]);
    MeanOfTwo(a[11].y as real, a[12].y as real);
    MeanOfTwo(b[11].y as real, b[12].y as real);
    assert na <= nb;
    DivideMonotone(na - meanUp, nb - meanUp, meanDown - meanUp);
  }

  lemma DivideMonotone(x: real, y: real, d: real)
    requires x <= y && d > 0.0
    ensures -2.0 * y / d <= -2.0 * x / d
  {
    assert -2.0 * y <= -2.0 * x;
  }

  /** A MovementAnalyser without the camera and the pose model. */
  class MovementAnalyser {
    var upShoulders: Option<seq<BodyPart>>
    var upElbows: Option<seq<BodyPart>>
    var downShoulders: Option<seq<BodyPart>>
    var downElbows: Option<seq<BodyPart>>
    var meanUp: real
    var meanDown: real
    var bodyParts: seq<BodyPart>

    function State(): Calibration
      reads this
    {
      Calibration(upShoulders, upElbows, downShoulders, downElbows, meanUp, meanDown, bodyParts)
    }

    ghost predicate Valid()
      reads this
    {
      WellFormed(State())
    }

    /** MovementAnalyser.__init__ (movement_analyser.py:7-21). */
    constructor ()
      ensures Valid() && State() == Uncalibrated
    {
      upShoulders, upElbows := None, None;
      downShoulders, downElbows := None, None;
      meanUp, meanDown := 0.0, 0.0;
      bodyParts := [];
    }

    /** The effect of get_positions (movement_analyser.py:39-66) on
        body_parts; the camera frame is an input. */
    method ReceiveFrame(frame: Option<seq<BodyPart>>)
      requires Valid()
      requires frame.Some? ==> WellFormedFrame(frame.value)
      modifies this
      ensures Valid() && State() == ReceiveFrameStep(old(State()), frame)
    {
      if frame.Some? {
        bodyParts := frame.value;
      }
    }

    /** get_up_positions (movement_analyser.py:23-25). */
    method GetUpPositions()
      requires Valid()
      modifies this
      ensures Valid() && State() == UpPositionsStep(old(State()))
    {
      upShoulders := Some(Slice(bodyParts, 11, 13));
      upElbows := Some(Slice(bodyParts, 13, 15));
    }

    /** get_down_positions (movement_analyser.py:27-29). */
    method GetDownPositions()
      requires Valid()
      modifies this
      ensures Valid() && State() == DownPositionsStep(old(State()))
    {
      downShoulders := Some(Slice(bodyParts, 11, 13));
      downElbows := Some(Slice(bodyParts, 13, 15));
    }

    /** calculate_setup_means (movement_analyser.py:31-33). */
    method CalculateSetupMeans()
      requires Valid() && MeansDefined(State())
      modifies this
      ensures Valid() && State() == SetupMeansStep(old(State()))
    {
      meanUp := Mean([upShoulders.value[0].y as real, upShoulders.value[1].y as real]);
      meanDown := Mean([downShoulders.value[0].y as real, downShoulders.value[1].y as real]);
    }

    /** reset (movement_analyser.py:97-104): back to the state of a new
        analyser. */
    method Reset()
      modifies this
      ensures Valid() && State() == Uncalibrated
    {
      upShoulders, upElbows := None, None;
      downShoulders, downElbows := None, None;
      meanUp, meanDown := 0.0, 0.0;
      bodyParts := [];
    }
  }
}
