/**
 * The discrete side of the Rave Neuron toy: the time-of-day zones and the
 * per-class boosts that go with them, the 12-hour clock label, picking the
 * winning class, and the training panel's state (a click on the plot and a
 * label button together make one training point; a training step counts
 * how many points the network now gets right; reset).
 *
 * The network's arithmetic (logits, softmax, the gradient step) is left
 * out: a training step receives the updated weights and the class the
 * updated network predicts for each point.
 */
module RaveNeuron {
  import opened Wrappers

  // ------------------------------------------------------ hours of the day

  /** Truncation toward zero, as JavaScript's % uses it. */
  function Trunc(x: real): (n: int)
    ensures x >= 0.0 ==> n as real <= x < n as real + 1.0
    ensures x < 0.0 ==> n as real - 1.0 < x <= n as real
  {
    if x >= 0.0 then x.Floor else -((-x).Floor)
  }

  /** JavaScript's t % 24 on numbers: the remainder takes the sign of t. */
  function Rem24(t: real): (r: real)
    ensures t >= 0.0 ==> 0.0 <= r < 24.0
    ensures t < 0.0 ==> -24.0 < r <= 0.0
  {
    t - 24.0 * Trunc(t / 24.0) as real
  }

  /** ((t % 24) + 24) % 24: the hour of the day that t stands for. */
  function Normalise(t: real): real
  {
    Rem24(Rem24(t) + 24.0)
  }

  /** The normalised hour is t minus a whole number of days, and lies in [0, 24). */
  lemma NormaliseIsFloorMod(t: real)
    ensures Normalise(t) == t - 24.0 * (t / 24.0).Floor as real
    ensures 0.0 <= Normalise(t) < 24.0
  {
    var k1 := Trunc(t / 24.0);
    var r1 := Rem24(t);
    assert r1 == t - 24.0 * k1 as real;
    var k2 := Trunc((r1 + 24.0) / 24.0);
    var n := Rem24(r1 + 24.0);
    assert n == r1 + 24.0 - 24.0 * k2 as real;
    assert 0.0 <= n < 24.0;
    var k := k1 - 1 + k2;
    assert n == t - 24.0 * k as real;
    assert k as real <= t / 24.0 < k as real + 1.0;
    assert (t / 24.0).Floor == k;
  }

  /** An hour already in [0, 24) is left as it is. */
  lemma NormaliseInRange(t: real)
    requires 0.0 <= t < 24.0
    ensures Normalise(t) == t
  {
    NormaliseIsFloorMod(t);
    assert (t / 24.0).Floor == 0;
  }

  /** t and t + 24 are the same hour of the day. */
  lemma NormalisePeriodic(t: real)
    ensures Normalise(t + 24.0) == Normalise(t)
  {
    NormaliseIsFloorMod(t);
    NormaliseIsFloorMod(t + 24.0);
    assert (t + 24.0) / 24.0 == t / 24.0 + 1.0;
  }

  // ------------------------------------------------------------ the zones

  /** The three classes, in the network's order: 0 scroll, 1 sleep, 2 work. */
  datatype Zone = Scroll | Sleep | Work

  function ClassIndex(z: Zone): (i: nat)
    ensures i < 3
  {
    match z
    case Scroll => 0
    case Sleep => 1
    case Work => 2
  }

  /** getTimeZone: 8 PM to 2:30 AM is doomscroll time, 2:30 to 7 AM sleep, the rest schoolwork. */
  function GetTimeZone(t: real): Zone
  {
    var h := Normalise(t);
    if h >= 20.0 || h < 2.5 then Scroll
    else if h >= 2.5 && h < 7.0 then Sleep
    else Work
  }

  /** getTimeBoosts: the extra push each class gets at hour t, indexed by class. */
  function GetTimeBoosts(t: real): (boosts: seq<real>)
    ensures |boosts| == 3
  {
    var h := Normalise(t);
    if h >= 20.0 || h < 2.5 then [1.5, -0.5, -1.0]
    else if h >= 2.5 && h < 7.0 then [-0.5, 1.5, -1.0]
    else [-0.8, -0.5, 1.5]
  }

  /** Within one day the zones are the three bands of the clock, and every later day repeats them. */
  lemma ZonesOfTheDay(t: real)
    requires 0.0 <= t < 24.0
    ensures GetTimeZone(t) == Scroll <==> (20.0 <= t || t < 2.5)
    ensures GetTimeZone(t) == Sleep <==> 2.5 <= t < 7.0
    ensures GetTimeZone(t) == Work <==> 7.0 <= t < 20.0
    ensures GetTimeZone(t + 24.0) == GetTimeZone(t) && GetTimeBoosts(t + 24.0) == GetTimeBoosts(t)
  {
    NormaliseInRange(t);
    NormalisePeriodic(t);
  }

  /**
   * The boosts agree with the zone: the zone's own class gets 1.5, strictly
   * more than either other class, so it is also the winner of the boosts.
   */
  lemma BoostsFavourZone(t: real)
    ensures GetTimeBoosts(t)[ClassIndex(GetTimeZone(t))] == 1.5
    ensures forall i :: 0 <= i < 3 && i != ClassIndex(GetTimeZone(t)) ==> GetTimeBoosts(t)[i] < 1.5
    ensures Winner(GetTimeBoosts(t)) == ClassIndex(GetTimeZone(t))
  {
    var b := GetTimeBoosts(t);
    var z := ClassIndex(GetTimeZone(t));
    WinnerIsFirstMax(b);
    WinnerUnique(b, z);
  }

  // ------------------------------------------------------------- winner

  /** Math.max(...s) */
  function MaxOf(s: seq<real>): (m: real)
    requires |s| > 0
    ensures m in s && forall i :: 0 <= i < |s| ==> s[i] <= m
  {
    if |s| == 1 then s[0]
    else if s[0] >= MaxOf(s[1..]) then s[0]
    else MaxOf(s[1..])
  }

  /** s.indexOf(v) for a value that occurs in s. */
  function IndexOf(s: seq<real>, v: real): (i: nat)
    requires v in s
    ensures i < |s| && s[i] == v && forall j :: 0 <= j < i ==> s[j] != v
  {
    if s[0] == v then 0 else 1 + IndexOf(s[1..], v)
  }

  /** probs.indexOf(Math.max(...probs)): the class the network picks. */
  function Winner(s: seq<real>): nat
    requires |s| > 0
  {
    IndexOf(s, MaxOf(s))
  }

  /** The winner is an index holding the largest value, and the first such index. */
  lemma WinnerIsFirstMax(s: seq<real>)
    requires |s| > 0
    ensures Winner(s) < |s|
    ensures forall i :: 0 <= i < |s| ==> s[i] <= s[Winner(s)]
    ensures forall i :: 0 <= i < Winner(s) ==> s[i] < s[Winner(s)]
  {
  }

  /** Conversely, the first index of a largest value is the winner. */
  lemma WinnerUnique(s: seq<real>, w: nat)
    requires w < |s|
    requires forall i :: 0 <= i < |s| ==> s[i] <= s[w]
    requires forall i :: 0 <= i < w ==> s[i] < s[w]
    ensures Winner(s) == w
  {
    WinnerIsFirstMax(s);
    var v := Winner(s);
    assert s[v] == s[w] by {
      assert s[v] <= s[w] && s[w] <= s[v];
    }
  }

  // --------------------------------------------------------- clock label

  datatype Suffix = AM | PM

  /** The pieces of the label formatHour writes as "h:mm AM". */
  datatype ClockLabel = ClockLabel(hour: int, minute: int, suffix: Suffix)

  /** Math.round: halves go up. */
  function Round(x: real): (n: int)
    ensures x - 0.5 < n as real <= x + 0.5
  {
    (x + 0.5).Floor
  }

  /** The 12-hour clock: midnight is 12 AM, noon 12 PM. */
  function TwelveHour(hh: int): int
  {
    if hh == 0 then 12 else if hh > 12 then hh - 12 else hh
  }

  /** formatHour as written: the minutes are rounded separately from the hour. */
  function FormatHourAsWritten(h: real): (c: ClockLabel)
    ensures 1 <= c.hour <= 12 && 0 <= c.minute <= 60
  {
    var hour24 := Normalise(h);
    NormaliseIsFloorMod(h);
    var hh := hour24.Floor;
    var mm := Round((hour24 - hh as real) * 60.0);
    ClockLabel(TwelveHour(hh), mm, if hh < 12 then AM else PM)
  }

  /** Just before two o'clock the label as written reads "1:60 AM". */
  lemma AsWrittenShowsMinuteSixty()
    ensures FormatHourAsWritten(1.995) == ClockLabel(1, 60, AM)
    ensures LabelText(FormatHourAsWritten(1.995)) == "1:60 AM"
  {
    NormaliseInRange(1.995);
    assert 1.995.Floor == 1;
    assert (1.995 - 1.0) * 60.0 + 0.5 == 60.2;
    assert Round((1.995 - 1.0) * 60.0) == 60;
  }

  /** formatHour with the time rounded to a whole minute first, carrying into the hour. */
  function FormatHour(h: real): (c: ClockLabel)
    ensures 1 <= c.hour <= 12 && 0 <= c.minute < 60
  {
    var hour24 := Normalise(h);
    var total := Round(hour24 * 60.0) % 1440;
    var hh := total / 60;
    ClockLabel(TwelveHour(hh), total % 60, if hh < 12 then AM else PM)
  }

  /** The minute of the day a label names. */
  function LabelMinutes(c: ClockLabel): int
  {
    ((c.hour % 12) + (if c.suffix == PM then 12 else 0)) * 60 + c.minute
  }

  /** Shifting by a whole number shifts the rounded value by the same number. */
  lemma RoundShift(n: int, y: real)
    ensures Round(n as real + y) == n + Round(y)
  {
  }

  /**
   * The corrected label names the minute of the day nearest to the hour,
   * or midnight when the hour is within half a minute of the next day.
   */
  lemma FormatHourIsNearestMinute(h: real)
    ensures 0 <= LabelMinutes(FormatHour(h)) < 1440
    ensures var m := LabelMinutes(FormatHour(h)) as real; var x := Normalise(h) * 60.0;
      (x - 0.5 < m <= x + 0.5) || (m == 0.0 && x + 0.5 >= 1440.0)
  {
    NormaliseIsFloorMod(h);
    var total := Round(Normalise(h) * 60.0);
    assert 0 <= total <= 1440;
    var t := total % 1440;
    assert t == (if total == 1440 then 0 else total);
    var hh := t / 60;
    assert hh * 60 + t % 60 == t && 0 <= hh < 24;
    assert TwelveHour(hh) % 12 + (if hh < 12 then 0 else 12) == hh;
    assert LabelMinutes(FormatHour(h)) == t;
  }

  /** Whenever the label as written shows a real minute, the corrected label is the same. */
  lemma FormatHourAgreesBelowSixty(h: real)
    requires FormatHourAsWritten(h).minute < 60
    ensures FormatHour(h) == FormatHourAsWritten(h)
  {
    NormaliseIsFloorMod(h);
    var hour24 := Normalise(h);
    var hh := hour24.Floor;
    var mm := Round((hour24 - hh as real) * 60.0);
    assert hour24 * 60.0 == (hh * 60) as real + (hour24 - hh as real) * 60.0;
    RoundShift(hh * 60, (hour24 - hh as real) * 60.0);
    var t := Round(hour24 * 60.0);
    assert t == hh * 60 + mm && 0 <= t < 1440;
    assert t % 1440 == t;
    assert t / 60 == hh && t % 60 == mm;
  }

  function Digit(d: int): char
    requires 0 <= d < 10
  {
    "0123456789"[d]
  }

  /** String(n) for 0 <= n < 100. */
  function Decimal(n: int): (s: string)
    requires 0 <= n < 100
    ensures |s| == (if n < 10 then 1 else 2)
  {
    if n < 10 then [Digit(n)] else [Digit(n / 10), Digit(n % 10)]
  }

  /** `${h12}:${String(mm).padStart(2, '0')} ${suffix}` */
  function LabelText(c: ClockLabel): (s: string)
    requires 0 <= c.hour < 100 && 0 <= c.minute < 100
    ensures |s| == |Decimal(c.hour)| + 6 && s[|s| - 6] == ':'
    ensures s[|s| - 3..] == (if c.suffix == AM then " AM" else " PM")
  {
    var mm := if c.minute < 10 then "0" + Decimal(c.minute) else Decimal(c.minute);
    Decimal(c.hour) + ":" + mm + (if c.suffix == AM then " AM" else " PM")
  }

  // ------------------------------------------------------------ training

  /** A labelled training point: x is the hour, y the spiciness. */
  datatype Point = Point(x: real, y: real, zone: Zone)

  /** A click on the plot waiting for its label. */
  datatype Click = Click(x: real, y: real)

  const InitialWeights: seq<seq<real>> := [
    [0.3, 1.2, -0.8, 0.7, 0.9],
    [0.1, -0.6, 0.8, -0.9, -0.5],
    [-0.2, -0.5, 1.0, 0.5, -0.7]
  ]
  const InitialBiases: seq<real> := [0.3, 0.0, 0.0]

  /** Three classes, each with five input weights, and one bias per class. */
  predicate Shaped(weights: seq<seq<real>>, biases: seq<real>)
  {
    |weights| == 3 && (forall c :: 0 <= c < 3 ==> |weights[c]| == 5) && |biases| == 3
  }

  /** A click that lands on the plot: hour in [0, 24], spiciness in [0, 1]. */
  predicate OnPlot(x: real, y: real)
  {
    0.0 <= x <= 24.0 && 0.0 <= y <= 1.0
  }

  /** How many points the predicted classes get right. */
  function Correct(points: seq<Point>, predictions: seq<int>): (n: nat)
    requires |predictions| == |points|
    ensures n <= |points|
  {
    if points == [] then 0
    else Correct(points[..|points| - 1], predictions[..|predictions| - 1])
         + (if predictions[|points| - 1] == ClassIndex(points[|points| - 1].zone) then 1 else 0)
  }

  /** (correct / count) * 100 */
  function Accuracy(correct: nat, count: nat): (acc: real)
    requires 0 < count && correct <= count
    ensures 0.0 <= acc <= 100.0
    ensures acc == 100.0 <==> correct == count
  {
    (correct as real / count as real) * 100.0
  }

  class Trainer {
    var weights: seq<seq<real>>
    var biases: seq<real>
    var trainingPoints: seq<Point>
    var pendingLabel: Option<Zone>
    var pendingClick: Option<Click>
    var trainSteps: nat
    var celebrationDone: bool
    var autoTraining: bool
    /** The accuracy shown after the last step; None shows as "--". */
    var accuracy: Option<real>

    /**
     * The network keeps its shape, every training point and waiting click
     * lies on the plot, and a click never waits once a label is chosen.
     */
    ghost predicate Valid()
      reads this
    {
      && Shaped(weights, biases)
      && (forall i :: 0 <= i < |trainingPoints| ==> OnPlot(trainingPoints[i].x, trainingPoints[i].y))
      && (pendingClick.Some? ==> OnPlot(pendingClick.value.x, pendingClick.value.y))
      && (pendingLabel.Some? ==> pendingClick.None?)
      && (accuracy.Some? ==> 0.0 <= accuracy.value <= 100.0)
    }

    /** The page's starting state. */
    constructor ()
      ensures Valid()
      ensures weights == InitialWeights && biases == InitialBiases && trainingPoints == []
      ensures pendingLabel == None && pendingClick == None && trainSteps == 0
      ensures !celebrationDone && !autoTraining && accuracy == None
    {
      weights := InitialWeights;
      biases := InitialBiases;
      trainingPoints := [];
      pendingLabel := None;
      pendingClick := None;
      trainSteps := 0;
      celebrationDone := false;
      autoTraining := false;
      accuracy := None;
    }

    /**
     * A click on the plot at hour x and spiciness y. Off the plot nothing
     * changes. On it the click waits for a label, unless a label is already
     * chosen: then it becomes a training point with that label at once.
     */
    method PlotClick(x: real, y: real)
      requires Valid()
      modifies this`pendingClick, this`trainingPoints
      ensures Valid()
      ensures !OnPlot(x, y) ==> pendingClick == old(pendingClick) && trainingPoints == old(trainingPoints)
      ensures OnPlot(x, y) && pendingLabel.None? ==>
        pendingClick == Some(Click(x, y)) && trainingPoints == old(trainingPoints)
      ensures OnPlot(x, y) && pendingLabel.Some? ==>
        pendingClick == None && trainingPoints == old(trainingPoints) + [Point(x, y, pendingLabel.value)]
    {
      if x < 0.0 || x > 24.0 || y < 0.0 || y > 1.0 {
        return;
      }
      pendingClick := Some(Click(x, y));
      if pendingLabel.Some? {
        trainingPoints := trainingPoints + [Point(pendingClick.value.x, pendingClick.value.y, pendingLabel.value)];
        pendingClick := None;
      }
    }

    /** A label button: the label is chosen, and a waiting click becomes a point with it. */
    method PressLabel(chosen: Zone)
      requires Valid()
      modifies this`pendingLabel, this`pendingClick, this`trainingPoints
      ensures Valid()
      ensures pendingLabel == Some(chosen) && pendingClick == None
      ensures old(pendingClick).None? ==> trainingPoints == old(trainingPoints)
      ensures old(pendingClick).Some? ==>
        trainingPoints == old(trainingPoints) + [Point(old(pendingClick).value.x, old(pendingClick).value.y, chosen)]
    {
      pendingLabel := Some(chosen);
      if pendingClick.Some? {
        trainingPoints := trainingPoints + [Point(pendingClick.value.x, pendingClick.value.y, chosen)];
        pendingClick := None;
      }
    }

    /**
     * trainStep: nothing at all without training points. Otherwise the
     * network takes the updated weights and biases, the step count goes up
     * by one, and the accuracy is the share of points whose predicted class
     * matches their label, as a percentage; reaching 90% with at least four
     * points sets off the one-time celebration.
     */
    method TrainStep(newWeights: seq<seq<real>>, newBiases: seq<real>, predictions: seq<int>)
      requires Valid() && Shaped(newWeights, newBiases) && |predictions| == |trainingPoints|
      modifies this`weights, this`biases, this`trainSteps, this`accuracy, this`celebrationDone
      ensures Valid()
      ensures old(trainingPoints) == [] ==> unchanged(this)
      ensures old(trainingPoints) != [] ==>
        && weights == newWeights && biases == newBiases
        && trainSteps == old(trainSteps) + 1
        && accuracy == Some(Accuracy(Correct(trainingPoints, predictions), |trainingPoints|))
        && celebrationDone == (old(celebrationDone) || (accuracy.value >= 90.0 && |trainingPoints| >= 4))
    {
      if |trainingPoints| == 0 {
        return;
      }
      weights, biases := newWeights, newBiases;
      trainSteps := trainSteps + 1;
      var correct := 0;
      for i := 0 to |trainingPoints|
        invariant correct == Correct(trainingPoints[..i], predictions[..i])
      {
        assert trainingPoints[..i + 1][..i] == trainingPoints[..i];
        assert predictions[..i + 1][..i] == predictions[..i];
        if predictions[i] == ClassIndex(trainingPoints[i].zone) {
          correct := correct + 1;
        }
      }
      assert trainingPoints[..|trainingPoints|] == trainingPoints;
      assert predictions[..|predictions|] == predictions;
      var acc := Accuracy(correct, |trainingPoints|);
      accuracy := Some(acc);
      if acc >= 90.0 && !celebrationDone && |trainingPoints| >= 4 {
        celebrationDone := true;
      }
    }

    /** The reset button: auto-training stops and everything returns to the starting state. */
    method Reset()
      modifies this
      ensures Valid()
      ensures weights == InitialWeights && biases == InitialBiases && trainingPoints == []
      ensures pendingLabel == None && pendingClick == None && trainSteps == 0
      ensures !celebrationDone && !autoTraining && accuracy == None
    {
      autoTraining := false;
      weights := InitialWeights;
      biases := InitialBiases;
      trainingPoints := [];
      trainSteps := 0;
      celebrationDone := false;
      accuracy := None;
      pendingLabel := None;
      pendingClick := None;
    }
  }
}
