/**
 * The hidden-anomaly table of the generator (`_get_scenario_adjustments`):
 * a pure function from a date and an optional equipment name to the six
 * modifiers. Each window assigns (never adds to) its fields, starting from
 * the neutral adjustments.
 */
module Scenarios {
  import opened Wrappers
  import opened Calendar
  import opened Text

  datatype Adjustments = Adjustments(
    yieldModifier: real,
    hardnessModifier: real,
    dissolutionModifier: real,
    complaintRateModifier: real,
    capaRateModifier: real,
    description: Option<String>)

  /** The adjustments before any window applies. */
  const Neutral := Adjustments(0.0, 0.0, 0.0, 1.0, 1.0, None)

  const CovidLabel := "COVID-19 disruption"
  const PressAWearLabel := "Press-A wear"
  const MccLabel := "MCC excipient issue"
  const MethodTransitionLabel := "Method transition"
  const SummerHeatLabel := "Summer heat effect"
  const PressBLabel := "Press-B drift & new API supplier"
  const SupplierLabel := "New API supplier adjustment"

  predicate CovidWindow(d: Date) { d.year == 2020 && 3 <= d.month <= 5 }
  predicate PressAWindow(d: Date) { d.year == 2021 && 9 <= d.month <= 11 }
  predicate MccWindow(d: Date) { d.year == 2022 && d.month == 6 }
  predicate MethodWindow(d: Date) { d.year == 2023 && 4 <= d.month <= 6 }
  predicate SummerWindow(d: Date) { d.year == 2024 && 7 <= d.month <= 8 }
  predicate PressBWindow(d: Date) { d.year == 2025 && d.month == 8 }
  predicate SupplierWindow(d: Date) { d.year == 2025 && 11 <= d.month <= 12 }

  const PressAStart := Date(2021, 9, 1)

  /** `min(day_in_period * 0.05, 2.0)` with `day_in_period` the days since 2021-09-01. */
  function PressAWear(d: Date): real
    requires ValidDate(d)
  {
    var days := DaysBetween(PressAStart, d) as real;
    if days * 0.05 <= 2.0 then days * 0.05 else 2.0
  }

  /** The table, window by window in the order of the source; each window assigns its fields. */
  function ScenarioAdjustments(d: Date, equipment: Option<String>): (r: Adjustments)
    requires ValidDate(d)
  {
    var a0 := Neutral;
    var a1 := if CovidWindow(d) then a0.(yieldModifier := -2.0, description := Some(CovidLabel)) else a0;
    var a2 := if PressAWindow(d) && equipment == Some("Press-A")
              then a1.(hardnessModifier := PressAWear(d), description := Some(PressAWearLabel)) else a1;
    var a3 := if MccWindow(d)
              then a2.(dissolutionModifier := -5.0, complaintRateModifier := 1.5, description := Some(MccLabel))
              else a2;
    var a4 := if MethodWindow(d) then a3.(description := Some(MethodTransitionLabel)) else a3;
    var a5 := if SummerWindow(d) then a4.(description := Some(SummerHeatLabel)) else a4;
    var a6 := if PressBWindow(d)
              then (if equipment == Some("Press-B") && d.day <= 15
                    then a5.(hardnessModifier := 1.5, dissolutionModifier := -8.0) else a5).(description := Some(PressBLabel))
              else a5;
    var a7 := if SupplierWindow(d)
              then a6.(yieldModifier := -1.0, capaRateModifier := 1.3, description := Some(SupplierLabel))
              else a6;
    a7
  }

  /** At most one window contains any date: the assignments never interfere. */
  lemma WindowsDisjoint(d: Date)
    ensures var w := [CovidWindow(d), PressAWindow(d), MccWindow(d), MethodWindow(d),
                      SummerWindow(d), PressBWindow(d), SupplierWindow(d)];
            forall i, j :: 0 <= i < j < |w| ==> !(w[i] && w[j])
  {
  }

  predicate InSomeWindow(d: Date) {
    CovidWindow(d) || PressAWindow(d) || MccWindow(d) || MethodWindow(d)
    || SummerWindow(d) || PressBWindow(d) || SupplierWindow(d)
  }

  /** Outside every window the adjustments are neutral, for any equipment. */
  lemma OutsideWindowsNeutral(d: Date, equipment: Option<String>)
    requires ValidDate(d) && !InSomeWindow(d)
    ensures ScenarioAdjustments(d, equipment) == Neutral
  {
  }

  /** Each field of the result, as a table over the windows. */
  lemma AdjustmentFields(d: Date, equipment: Option<String>)
    requires ValidDate(d)
    ensures var r := ScenarioAdjustments(d, equipment);
      && r.yieldModifier == (if CovidWindow(d) then -2.0 else if SupplierWindow(d) then -1.0 else 0.0)
      && r.hardnessModifier
         == (if PressAWindow(d) && equipment == Some("Press-A") then PressAWear(d)
             else if PressBWindow(d) && equipment == Some("Press-B") && d.day <= 15 then 1.5
             else 0.0)
      && r.dissolutionModifier
         == (if MccWindow(d) then -5.0
             else if PressBWindow(d) && equipment == Some("Press-B") && d.day <= 15 then -8.0
             else 0.0)
      && r.complaintRateModifier == (if MccWindow(d) then 1.5 else 1.0)
      && r.capaRateModifier == (if SupplierWindow(d) then 1.3 else 1.0)
  {
  }

  /** The label depends on the date alone, except in the Press-A window where only Press-A gets one. */
  lemma AdjustmentLabel(d: Date, equipment: Option<String>)
    requires ValidDate(d)
    ensures ScenarioAdjustments(d, equipment).description
         == if CovidWindow(d) then Some(CovidLabel)
            else if PressAWindow(d) then (if equipment == Some("Press-A") then Some(PressAWearLabel) else None)
            else if MccWindow(d) then Some(MccLabel)
            else if MethodWindow(d) then Some(MethodTransitionLabel)
            else if SummerWindow(d) then Some(SummerHeatLabel)
            else if PressBWindow(d) then Some(PressBLabel)
            else if SupplierWindow(d) then Some(SupplierLabel)
            else None
  {
  }

  lemma PressAWindowAfterStart(d: Date)
    requires ValidDate(d) && PressAWindow(d)
    ensures DaysBetween(PressAStart, d) >= 0
  {
    SameYearOrder(PressAStart, d);
  }

  /** The Press-A wear modifier stays within [0, 2] and never decreases through the window. */
  lemma PressAWearBoundedMonotone(d1: Date, d2: Date)
    requires ValidDate(d1) && ValidDate(d2) && PressAWindow(d1) && PressAWindow(d2)
    requires NotAfter(d1, d2)
    ensures 0.0 <= PressAWear(d1) <= PressAWear(d2) <= 2.0
  {
    PressAWindowAfterStart(d1);
  }

  /** Only Press-A ever gets a wear modifier in the Press-A window. */
  lemma PressAWearOnlyPressA(d: Date, equipment: Option<String>)
    requires ValidDate(d) && PressAWindow(d) && equipment != Some("Press-A")
    ensures ScenarioAdjustments(d, equipment).hardnessModifier == 0.0
  {
  }
}
