/** The sleep page: logging last night's sleep, the average over the whole
    log, the insight chosen from that average, and the seven-day chart. */
module SleepPage {
  import opened Common
  import opened Charts
  import opened UserData

  /** The form: hours slept and the two clock times, as entered. */
  datatype SleepForm = SleepForm(hoursSlept: real, restTime: string, wakeUpTime: string)

  const InitialForm := SleepForm(7.5, "23:00", "06:30")

  /** Submitting logs an entry dated today from the form, newest first,
      through the capped update; the form keeps its values. */
  function SubmitSleep(form: SleepForm, log: seq<SleepEntry>, today: string): (r: seq<SleepEntry>)
    ensures |r| == Min(|log| + 1, SleepCap) && |r| > 0
    ensures r[0] == SleepEntry(today, form.hoursSlept, form.restTime, form.wakeUpTime)
    ensures r[1..] == log[..|r| - 1]
  {
    var r := AddSleepEntry(log, SleepEntry(today, form.hoursSlept, form.restTime, form.wakeUpTime));
    assert r[1..] == log[..|r| - 1];
    r
  }

  // ---------------------------------------------------------------- average

  /** The sum of the hours of every entry. */
  function TotalHours(log: seq<SleepEntry>): real
  {
    if |log| == 0 then 0.0 else log[0].hoursSlept + TotalHours(log[1..])
  }

  /** The mean hours per entry, or 0 for an empty log. */
  function AverageSleep(log: seq<SleepEntry>): (r: real)
    ensures |log| == 0 ==> r == 0.0
    ensures |log| > 0 ==> r * (|log| as real) == TotalHours(log)
  {
    if |log| == 0 then 0.0 else TotalHours(log) / (|log| as real)
  }

  /** Entries all within `[lo, hi]` sum to between `lo` and `hi` times
      their number. */
  lemma {:induction false} TotalWithinBounds(log: seq<SleepEntry>, lo: real, hi: real)
    requires forall i :: 0 <= i < |log| ==> lo <= log[i].hoursSlept <= hi
    ensures lo * (|log| as real) <= TotalHours(log) <= hi * (|log| as real)
  {
    if |log| > 0 {
      TotalWithinBounds(log[1..], lo, hi);
      assert lo * (|log| as real) == lo + lo * (|log[1..]| as real);
      assert hi * (|log| as real) == hi + hi * (|log[1..]| as real);
    }
  }

  /** The average of a non-empty log lies between its least and greatest
      entry bounds. */
  lemma AverageWithinBounds(log: seq<SleepEntry>, lo: real, hi: real)
    requires |log| > 0
    requires forall i :: 0 <= i < |log| ==> lo <= log[i].hoursSlept <= hi
    ensures lo <= AverageSleep(log) <= hi
  {
    TotalWithinBounds(log, lo, hi);
    var n := |log| as real;
    var a := AverageSleep(log);
    assert a * n == TotalHours(log);
    CancelPositive(lo, a, n);
    CancelPositive(a, hi, n);
  }

  /** Dividing both sides of `x * n <= y * n` by a positive `n`. */
  lemma CancelPositive(x: real, y: real, n: real)
    requires n > 0.0 && x * n <= y * n
    ensures x <= y
  {
    assert (y - x) * n >= 0.0;
  }

  // ---------------------------------------------------------------- insight

  /** The four insight messages, by band of the average. */
  datatype Insight = BelowRecommended | CloseToAdequate | Recommended | AboveAverage

  /** Below 6 hours, from 6 up to 7, from 7 to 9 inclusive, above 9. */
  function SleepInsight(avg: real): (r: Insight)
    ensures r == BelowRecommended <==> avg < 6.0
    ensures r == CloseToAdequate <==> 6.0 <= avg < 7.0
    ensures r == Recommended <==> 7.0 <= avg <= 9.0
    ensures r == AboveAverage <==> avg > 9.0
  {
    if avg < 6.0 then BelowRecommended
    else if avg >= 6.0 && avg < 7.0 then CloseToAdequate
    else if avg >= 7.0 && avg <= 9.0 then Recommended
    else AboveAverage
  }

  /** The bands in order of hours. */
  function Rank(i: Insight): nat
  {
    match i
    case BelowRecommended => 0
    case CloseToAdequate => 1
    case Recommended => 2
    case AboveAverage => 3
  }

  /** A longer average never falls into an earlier band. */
  lemma SleepInsightMonotone(a: real, b: real)
    requires a <= b
    ensures Rank(SleepInsight(a)) <= Rank(SleepInsight(b))
  {
  }

  /** A log whose every night lasted 7 to 9 hours earns the "great job"
      message; an empty log is treated as an average of 0. */
  lemma SteadyNightsAreRecommended(log: seq<SleepEntry>)
    requires forall i :: 0 <= i < |log| ==> 7.0 <= log[i].hoursSlept <= 9.0
    ensures |log| > 0 ==> SleepInsight(AverageSleep(log)) == Recommended
    ensures |log| == 0 ==> SleepInsight(AverageSleep(log)) == BelowRecommended
  {
    if |log| > 0 {
      AverageWithinBounds(log, 7.0, 9.0);
    }
  }

  // ------------------------------------------------------------------ chart

  /** One point of the hours chart. */
  datatype Point = Point(axis: string, hours: real)

  function ReadingsOf(log: seq<SleepEntry>): (r: seq<Reading>)
    ensures |r| == |log|
    ensures forall i :: 0 <= i < |log| ==> r[i] == Reading(log[i].date, log[i].hoursSlept)
  {
    seq(|log|, i requires 0 <= i < |log| => Reading(log[i].date, log[i].hoursSlept))
  }

  /** Every windowed reading is the reading of some log entry. */
  lemma WindowedIsLogged(log: seq<SleepEntry>, i: nat) returns (j: nat)
    requires i < |Window(ReadingsOf(log))|
    ensures j < |log| && Window(ReadingsOf(log))[i] == Reading(log[j].date, log[j].hoursSlept)
  {
    var rs := ReadingsOf(log);
    assert Window(rs)[i] in rs;
    var k :| 0 <= k < |rs| && rs[k] == Window(rs)[i];
    j := k;
  }

  /** The seven latest nights, oldest first, labelled month/day. */
  function ChartData(log: seq<SleepEntry>): (r: seq<Point>)
    ensures |r| == Min(WindowSize, |log|)
    ensures forall i :: 0 <= i < |r| ==>
      r[i] == Point(AxisLabel(Window(ReadingsOf(log))[i].date), Window(ReadingsOf(log))[i].value)
    ensures forall i :: 0 <= i < |r| ==> exists j :: 0 <= j < |log| && r[i] == Point(AxisLabel(log[j].date), log[j].hoursSlept)
  {
    var w := Window(ReadingsOf(log));
    forall i | 0 <= i < |w| ensures exists j :: 0 <= j < |log| && ReadingsOf(log)[j] == w[i] {
      var j := WindowedIsLogged(log, i);
    }
    seq(|w|, i requires 0 <= i < |w| => Point(AxisLabel(w[i].date), w[i].value))
  }
}
