/**
 * The session-duration panel. It shows the remaining time in whole minutes,
 * lets the user pick 1 to 120 minutes (number input, slider or one of five
 * presets) and reports every choice to the app in seconds.
 */
module TimerConfig {

  const MinMinutes: int := 1
  const MaxMinutes: int := 120

  /** The five quick presets, in minutes, in display order. */
  const Presets: seq<int> := [5, 15, 25, 45, 60]

  /** `Math.max(1, Math.min(120, v))`: the number input's value forced into 1..120. */
  function ClampMinutes(v: int): (r: int)
    ensures MinMinutes <= r <= MaxMinutes
    ensures MinMinutes <= v <= MaxMinutes ==> r == v
    ensures v < MinMinutes ==> r == MinMinutes
    ensures v > MaxMinutes ==> r == MaxMinutes
  {
    var capped := if MaxMinutes < v then MaxMinutes else v;
    if MinMinutes > capped then MinMinutes else capped
  }

  /** `handleMinutesChange`: the duration handed to the app, in seconds. */
  function MinutesToSeconds(mins: int): int
  {
    mins * 60
  }

  /** `Math.floor(seconds / 60)`: the whole minutes shown in the number input and slider. */
  function DisplayedMinutes(seconds: int): (m: int)
    ensures m * 60 <= seconds < m * 60 + 60
  {
    seconds / 60
  }

  /** The three ways the panel reports a duration. */
  datatype DurationInput =
    | NumberInput(raw: int)
    | SliderInput(value: int)
    | PresetInput(index: nat)

  /** Inputs the widgets can produce: the slider moves in whole steps over 1..120. */
  predicate Producible(input: DurationInput)
  {
    match input
    case NumberInput(_) => true
    case SliderInput(v) => MinMinutes <= v <= MaxMinutes
    case PresetInput(i) => i < |Presets|
  }

  /** The minutes a widget reports: the number input is clamped, the others pass through. */
  function ChosenMinutes(input: DurationInput): int
    requires Producible(input)
  {
    match input
    case NumberInput(raw) => ClampMinutes(raw)
    case SliderInput(v) => v
    case PresetInput(i) => Presets[i]
  }

  /** The seconds the panel hands to the app for one user action. */
  function EmittedSeconds(input: DurationInput): int
    requires Producible(input)
  {
    MinutesToSeconds(ChosenMinutes(input))
  }

  /** Every emitted duration is a whole number of minutes between 1 and 120. */
  lemma EmittedSecondsInRange(input: DurationInput)
    requires Producible(input)
    ensures var s := EmittedSeconds(input); s % 60 == 0 && 60 <= s <= 7200
    ensures DisplayedMinutes(EmittedSeconds(input)) == ChosenMinutes(input)
  {
    var m := ChosenMinutes(input);
    assert 1 <= m <= 120;
    MinutesRoundTrip(m);
  }

  /** The displayed minutes of an emitted duration are the minutes that were chosen. */
  lemma MinutesRoundTrip(mins: int)
    ensures DisplayedMinutes(MinutesToSeconds(mins)) == mins
    ensures MinutesToSeconds(mins) % 60 == 0
  {
    var m := DisplayedMinutes(mins * 60);
    assert m * 60 <= mins * 60 < m * 60 + 60;
    assert m <= mins < m + 1;
  }

  /** Which preset buttons are highlighted for the current remaining time. */
  function Highlighted(seconds: int): (h: seq<bool>)
    ensures |h| == |Presets|
    ensures forall i :: 0 <= i < |Presets| ==> (h[i] <==> DisplayedMinutes(seconds) == Presets[i])
  {
    var minutes := DisplayedMinutes(seconds);
    seq(|Presets|, i requires 0 <= i < |Presets| => minutes == Presets[i])
  }

  /**
   * The presets are distinct, so at most one button is highlighted.
   */
  lemma AtMostOneHighlighted(seconds: int)
    ensures forall i, j :: 0 <= i < j < |Presets| ==> !(Highlighted(seconds)[i] && Highlighted(seconds)[j])
  {
    forall i, j | 0 <= i < j < |Presets|
      ensures Presets[i] < Presets[j]
    {
    }
  }

  /** After a preset click, that preset (and only that one) is highlighted. */
  lemma PresetClickHighlightsItself(i: nat)
    requires i < |Presets|
    ensures forall j :: 0 <= j < |Presets| ==> (Highlighted(EmittedSeconds(PresetInput(i)))[j] <==> j == i)
  {
    MinutesRoundTrip(Presets[i]);
    AtMostOneHighlighted(EmittedSeconds(PresetInput(i)));
  }
}
