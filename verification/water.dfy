/** The water page: the recommended daily intake, today's intake and the
    progress toward it, the body water index, the seven-day chart and the
    "add water" button. */
module WaterPage {
  import opened Common
  import opened Charts
  import opened UserData

  /** The nearest whole number, a tie going to the larger one. */
  function RoundHalfUp(y: real): (n: int)
    ensures n as real - 0.5 <= y < n as real + 0.5
  {
    (y + 0.5).Floor
  }

  /** The number of tenths `x.toFixed(1)` writes: the nearest tenth, a
      tie going away from zero (a negative number is rounded by its
      magnitude and the sign put back). */
  function TenthsOf(x: real): (n: int)
    ensures x >= 0.0 ==> n as real - 0.5 <= x * 10.0 < n as real + 0.5
    ensures x < 0.0 ==> n as real - 0.5 < x * 10.0 <= n as real + 0.5
  {
    if x < 0.0 then -RoundHalfUp(-x * 10.0) else RoundHalfUp(x * 10.0)
  }

  /** `Number(x.toFixed(1))`. */
  function ToTenths(x: real): (r: real)
    ensures r * 10.0 == TenthsOf(x) as real
    ensures x >= 0.0 ==> r - 0.05 <= x < r + 0.05
    ensures x < 0.0 ==> r - 0.05 < x <= r + 0.05
  {
    TenthsOf(x) as real / 10.0
  }

  /** 33 ml per kg of body weight, in litres to one decimal. */
  function RecommendedWater(weightKg: real): (r: real)
    ensures weightKg >= 0.0 ==> r >= 0.0
    ensures r - 0.05 <= weightKg * 0.033 <= r + 0.05
  {
    ToTenths(weightKg * 0.033)
  }

  /** 70 kg gives 2.31 litres, shown and used as 2.3. */
  lemma SeventyKilograms()
    ensures RecommendedWater(70.0) == 2.3
  {
    assert 70.0 * 0.033 * 10.0 + 0.5 == 23.6;
    assert (23.6).Floor == 23;
  }

  /** The amount of the first entry dated today, or 0 when there is none. */
  function TodayIntake(log: seq<WaterEntry>, today: string): (r: real)
    ensures !HasEntryFor(log, today) ==> r == 0.0
    ensures HasEntryFor(log, today) ==>
      exists i :: 0 <= i < |log| && log[i].date == today && r == log[i].amount
                  && forall j :: 0 <= j < i ==> log[j].date != today
  {
    if |log| == 0 then 0.0
    else if log[0].date == today then log[0].amount
    else
      var r := TodayIntake(log[1..], today);
      if HasEntryFor(log, today) then
        var k :| 0 <= k < |log| && log[k].date == today;
        assert log[1..][k - 1].date == today;
        var i :| 0 <= i < |log[1..]| && log[1..][i].date == today && r == log[1..][i].amount
                 && forall j :: 0 <= j < i ==> log[1..][j].date != today;
        assert forall j :: 0 < j < i + 1 ==> log[j] == log[1..][j - 1];
        r
      else r
  }

  lemma {:induction false} TodayIntakeAfterAddOnDay(log: seq<WaterEntry>, today: string, amount: real)
    requires HasEntryFor(log, today)
    ensures TodayIntake(AddOnDay(log, today, amount), today) == TodayIntake(log, today) + amount
  {
    var r := AddOnDay(log, today, amount);
    if log[0].date != today {
      var k :| 0 <= k < |log| && log[k].date == today;
      assert log[1..][k - 1].date == today;
      TodayIntakeAfterAddOnDay(log[1..], today, amount);
      assert r[1..] == AddOnDay(log[1..], today, amount);
    }
  }

  /** Adding water raises today's intake by exactly the amount added. */
  lemma TodayIntakeAfterAdd(log: seq<WaterEntry>, today: string, amount: real)
    ensures TodayIntake(AddWaterIntake(log, today, amount), today) == TodayIntake(log, today) + amount
  {
    if HasEntryFor(log, today) {
      TodayIntakeAfterAddOnDay(log, today, amount);
    }
  }

  /** Two additions on one day: with at most one entry per date there is
      exactly one entry for the day, holding both amounts. */
  lemma TwoAdditionsSameDay(log: seq<WaterEntry>, today: string, a: real, b: real)
    requires DatesUnique(log) && !HasEntryFor(log, today)
    ensures DatesUnique(AddWaterIntake(AddWaterIntake(log, today, a), today, b))
    ensures TodayIntake(AddWaterIntake(AddWaterIntake(log, today, a), today, b), today) == a + b
  {
    var once := AddWaterIntake(log, today, a);
    AddWaterIntakeKeepsDatesUnique(log, today, a);
    AddWaterIntakeKeepsDatesUnique(once, today, b);
    TodayIntakeAfterAdd(log, today, a);
    TodayIntakeAfterAdd(once, today, b);
  }

  /** The "add water" button forwards the selected amount unchanged. */
  function HandleAddWater(log: seq<WaterEntry>, today: string, amount: real): (r: seq<WaterEntry>)
    ensures TodayIntake(r, today) == TodayIntake(log, today) + amount
    ensures HasEntryFor(log, today) ==> |r| == |log|
    ensures !HasEntryFor(log, today) ==> |r| == |log| + 1
  {
    TodayIntakeAfterAdd(log, today, amount);
    AddWaterIntake(log, today, amount)
  }

  /** Today's intake as a percentage of the target, capped at 100. */
  function Progress(intake: real, target: real): (r: real)
    requires target > 0.0
    ensures r <= 100.0
    ensures r == 100.0 <==> intake >= target
    ensures r < 100.0 ==> r * target == intake * 100.0
    ensures intake >= 0.0 ==> r >= 0.0
  {
    var ratio := (intake / target) * 100.0;
    if ratio < 100.0 then ratio else 100.0
  }

  /** 60 for "male", 55 otherwise, 5 less above age 50. */
  function BaseHydration(gender: string, age: real): (r: real)
    ensures 50.0 <= r <= 60.0
    ensures r == 60.0 <==> gender == "male" && age <= 50.0
    ensures r == 55.0 <==> (gender == "male" <==> age > 50.0)
    ensures r == 50.0 <==> gender != "male" && age > 50.0
  {
    var base := if gender == "male" then 60.0 else 55.0;
    if age > 50.0 then base - 5.0 else base
  }

  function Clamp(x: real, lo: real, hi: real): real
    requires lo <= hi
  {
    if x < lo then lo else if x > hi then hi else x
  }

  /** The body water index: the demographic base plus ten points per full
      target drunk today, held within [0, 100]. */
  function BodyWaterIndex(gender: string, age: real, intake: real, target: real): (r: real)
    requires target > 0.0
    ensures 0.0 <= r <= 100.0
    ensures var raw := BaseHydration(gender, age) + (intake / target) * 10.0;
            0.0 <= raw <= 100.0 ==> r == raw
    ensures BaseHydration(gender, age) + (intake / target) * 10.0 > 100.0 ==> r == 100.0
    ensures BaseHydration(gender, age) + (intake / target) * 10.0 < 0.0 ==> r == 0.0
    ensures intake >= 0.0 ==> r >= BaseHydration(gender, age)
  {
    Clamp(BaseHydration(gender, age) + (intake / target) * 10.0, 0.0, 100.0)
  }

  /** Drinking more never lowers the index. */
  lemma BodyWaterIndexMonotone(gender: string, age: real, a: real, b: real, target: real)
    requires target > 0.0 && a <= b
    ensures BodyWaterIndex(gender, age, a, target) <= BodyWaterIndex(gender, age, b, target)
  {
    assert a / target <= b / target;
  }

  /** One point of the intake chart. */
  datatype Point = Point(axis: string, intake: real, target: real)

  function ReadingsOf(log: seq<WaterEntry>): (r: seq<Reading>)
    ensures |r| == |log|
    ensures forall i :: 0 <= i < |log| ==> r[i] == Reading(log[i].date, log[i].amount)
  {
    seq(|log|, i requires 0 <= i < |log| => Reading(log[i].date, log[i].amount))
  }

  /** Every windowed reading is the reading of some log entry. */
  lemma WindowedIsLogged(log: seq<WaterEntry>, i: nat) returns (j: nat)
    requires i < |Window(ReadingsOf(log))|
    ensures j < |log| && Window(ReadingsOf(log))[i] == Reading(log[j].date, log[j].amount)
  {
    var rs := ReadingsOf(log);
    assert Window(rs)[i] in rs;
    var k :| 0 <= k < |rs| && rs[k] == Window(rs)[i];
    j := k;
  }

  /** The chart: the seven latest entries, oldest first, each drawn against
      the same target line. */
  function ChartData(log: seq<WaterEntry>, target: real): (r: seq<Point>)
    ensures |r| == Min(WindowSize, |log|)
    ensures forall i :: 0 <= i < |r| ==>
      r[i] == Point(AxisLabel(Window(ReadingsOf(log))[i].date), Window(ReadingsOf(log))[i].value, target)
    ensures forall i :: 0 <= i < |r| ==> exists j :: 0 <= j < |log| && r[i] == Point(AxisLabel(log[j].date), log[j].amount, target)
  {
    var w := Window(ReadingsOf(log));
    forall i | 0 <= i < |w| ensures exists j :: 0 <= j < |log| && ReadingsOf(log)[j] == w[i] {
      var j := WindowedIsLogged(log, i);
    }
    seq(|w|, i requires 0 <= i < |w| => Point(AxisLabel(w[i].date), w[i].value, target))
  }
}
