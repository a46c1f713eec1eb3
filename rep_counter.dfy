/** The two-phase repetition counter both pose analyzers run
    (backend/analysis/sit_ups.py, backend/analysis/push_ups.py): one rep is
    an angle below `low` followed by a later angle above `high`. The
    sit-up counter's 'down' phase and the push-up counter's 'up' phase are
    `AwaitLow`. */
module RepCounter {
  datatype Phase = AwaitLow | AwaitHigh

  datatype Counter = Counter(phase: Phase, reps: nat)

  const Start := Counter(AwaitLow, 0)

  /** One frame: a low angle arms the counter, a high angle while armed
      counts a rep and disarms it; anything else changes nothing. */
  function Step(c: Counter, angle: real, low: real, high: real): (n: Counter)
    ensures c.phase == AwaitLow ==> n == (if angle < low then Counter(AwaitHigh, c.reps) else c)
    ensures c.phase == AwaitHigh ==> n == (if angle > high then Counter(AwaitLow, c.reps + 1) else c)
    ensures low <= angle <= high ==> n == c
    ensures n.reps == c.reps || (n.reps == c.reps + 1 && c.phase == AwaitHigh && n.phase == AwaitLow)
  {
    if c.phase == AwaitLow && angle < low then Counter(AwaitHigh, c.reps)
    else if c.phase == AwaitHigh && angle > high then Counter(AwaitLow, c.reps + 1)
    else c
  }

  /** The counter after the frames `angles`, in order. */
  function Run(angles: seq<real>, low: real, high: real): Counter
    decreases |angles|
  {
    if angles == [] then Start
    else Step(Run(angles[..|angles| - 1], low, high), angles[|angles| - 1], low, high)
  }

  function Armed(c: Counter): nat {
    if c.phase == AwaitHigh then 1 else 0
  }

  /** Every rep used two frames and an armed counter one more, so there
      are at most half as many reps as frames. */
  lemma {:induction false} RunBound(angles: seq<real>, low: real, high: real)
    ensures 2 * Run(angles, low, high).reps + Armed(Run(angles, low, high)) <= |angles|
    ensures Run(angles, low, high).reps <= |angles| / 2
    decreases |angles|
  {
    if angles != [] {
      RunBound(angles[..|angles| - 1], low, high);
    }
  }

  /** Reps never decrease as frames arrive, and each frame adds at most one. */
  lemma {:induction false} RunMonotone(angles: seq<real>, k: nat, low: real, high: real)
    requires k <= |angles|
    ensures Run(angles[..k], low, high).reps <= Run(angles, low, high).reps
    ensures Run(angles, low, high).reps <= Run(angles[..k], low, high).reps + (|angles| - k)
    decreases |angles| - k
  {
    if k < |angles| {
      RunMonotone(angles, k + 1, low, high);
      assert angles[..k + 1][..k] == angles[..k];
    } else {
      assert angles[..k] == angles;
    }
  }

  /** Without any frame above `high` nothing is ever counted. */
  lemma {:induction false} NoHighNoRep(angles: seq<real>, low: real, high: real)
    requires forall i :: 0 <= i < |angles| ==> angles[i] <= high
    ensures Run(angles, low, high).reps == 0
    decreases |angles|
  {
    if angles != [] {
      NoHighNoRep(angles[..|angles| - 1], low, high);
    }
  }

  /** `n` repetitions of a low frame then a high frame. */
  function Alternating(n: nat, lowAngle: real, highAngle: real): (s: seq<real>)
    ensures |s| == 2 * n
  {
    if n == 0 then [] else Alternating(n - 1, lowAngle, highAngle) + [lowAngle, highAngle]
  }

  /** The bound is tight: alternating clear low and high frames count one
      rep per pair. */
  lemma {:induction false} AlternatingCountsEveryPair(n: nat, lowAngle: real, highAngle: real, low: real, high: real)
    requires lowAngle < low && highAngle > high
    ensures Run(Alternating(n, lowAngle, highAngle), low, high) == Counter(AwaitLow, n)
  {
    if n > 0 {
      var prev := Alternating(n - 1, lowAngle, highAngle);
      var s := Alternating(n, lowAngle, highAngle);
      AlternatingCountsEveryPair(n - 1, lowAngle, highAngle, low, high);
      assert s[..|s| - 1] == prev + [lowAngle];
      assert (prev + [lowAngle])[..|prev|] == prev;
    }
  }

  /** The arithmetic mean of a non-empty list. */
  function Sum(xs: seq<real>): real
    decreases |xs|
  {
    if xs == [] then 0.0 else Sum(xs[..|xs| - 1]) + xs[|xs| - 1]
  }

  function Mean(xs: seq<real>): real
    requires xs != []
  {
    Sum(xs) / |xs| as real
  }

  /** `np.clip(x, 0.0, 1.0)`. */
  function Clip(x: real): (y: real)
    ensures 0.0 <= y <= 1.0
    ensures 0.0 <= x <= 1.0 ==> y == x
    ensures x < 0.0 ==> y == 0.0
    ensures x > 1.0 ==> y == 1.0
  {
    if x < 0.0 then 0.0 else if x > 1.0 then 1.0 else x
  }

  /** One pose frame: the left and right joint angles and the frame's
      landmark confidence. */
  datatype Frame = Frame(leftAngle: real, rightAngle: real, score: real)

  /** The angle the counter sees: the mean of left and right. */
  function FrameAngle(f: Frame): real {
    (f.leftAngle + f.rightAngle) * 0.5
  }

  function Angles(frames: seq<Frame>): (angles: seq<real>)
    ensures |angles| == |frames|
    ensures forall i :: 0 <= i < |frames| ==> angles[i] == FrameAngle(frames[i])
  {
    seq(|frames|, i requires 0 <= i < |frames| => FrameAngle(frames[i]))
  }

  function Scores(frames: seq<Frame>): (scores: seq<real>)
    ensures |scores| == |frames|
    ensures forall i :: 0 <= i < |frames| ==> scores[i] == frames[i].score
  {
    seq(|frames|, i requires 0 <= i < |frames| => frames[i].score)
  }
}
