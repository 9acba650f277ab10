/**
 * ntuweather/weather.py: the command-line report.  It fetches from the package's
 * default provider (ntuweather/__init__.py: NTUSAProvider().get()), reports a parse
 * failure with the offending text and re-raises it, and otherwise picks a wind arrow
 * and the highlight colours of the precipitation line.  Writing to the terminal is
 * not modelled: the method returns what it decides to show.
 */
module NtuCli {
  import opened Wrappers
  import opened Errors
  import opened Calendar
  import opened DateText
  import opened NtuModels
  import opened NtuProviders

  /** ARROWS, in the order the dictionary iterates it: thresholds in degrees and their arrows. */
  const Arrows: seq<(int, string)> :=
    [(337, "↑"), (292, "↖"), (247, "←"), (202, "↙"), (157, "↓"), (112, "↘"), (67, "→"), (22, "↗")]

  /** The arrows of the eight 45-degree compass sectors, from north clockwise. */
  const CompassArrows: seq<string> := ["↑", "↗", "→", "↘", "↓", "↙", "←", "↖"]

  /**
   * The arrow of the 45-degree sector a heading falls in, the sector boundaries lying
   * halfway between two compass points (north covers 338 to 22 degrees).
   */
  function CompassArrow(direction: int): (arrow: string)
    requires 0 <= direction <= 360
    ensures arrow in CompassArrows
  {
    CompassArrows[((direction + 22) / 45) % 8]
  }

  /**
   * `icon` is the arrow the thresholds give `direction`, whatever the integer: `↑` when
   * it exceeds none of them, otherwise the arrow of the largest threshold below it.
   */
  predicate IconOfThresholds(direction: int, icon: string) {
    ((forall k :: 0 <= k < |Arrows| ==> direction <= Arrows[k].0) ==> icon == "↑")
    && forall k :: (0 <= k < |Arrows| && Arrows[k].0 < direction
      && (forall j :: 0 <= j < |Arrows| && Arrows[j].0 < direction ==> Arrows[j].0 <= Arrows[k].0)
      ==> icon == Arrows[k].1)
  }

  /**
   * The wind-icon loop: the first threshold the direction exceeds, in iteration order,
   * selects the arrow; `↑` when it exceeds none.  Since the thresholds descend, that is
   * the arrow of the largest threshold below the direction, and for a heading between
   * 0 and 360 degrees it is the arrow of its compass sector.
   */
  method WindIcon(direction: int) returns (icon: string)
    ensures IconOfThresholds(direction, icon)
    ensures 0 <= direction <= 360 ==> icon == CompassArrow(direction)
  {
    icon := "↑";
    for i := 0 to |Arrows|
      invariant forall k :: 0 <= k < i ==> direction <= Arrows[k].0
      invariant icon == "↑"
    {
      if direction > Arrows[i].0 {
        icon := Arrows[i].1;
        assert forall j :: i < j < |Arrows| ==> Arrows[j].0 < Arrows[i].0;
        SectorOfThreshold(direction, i);
        return;
      }
    }
    assert direction <= Arrows[7].0;
    assert 0 <= direction ==> (direction + 22) / 45 == 0;
  }

  /** Between threshold `i` and the next larger one the compass sector is the one `Arrows[i]` names. */
  lemma SectorOfThreshold(direction: int, i: nat)
    requires i < |Arrows| && Arrows[i].0 < direction
    requires forall k :: 0 <= k < i ==> direction <= Arrows[k].0
    ensures 0 <= direction <= 360 ==> Arrows[i].1 == CompassArrow(direction)
  {
    if 0 <= direction <= 360 {
      var q := (direction + 22) / 45;
      if i == 0 {
        assert q == 8;
      } else {
        assert direction <= Arrows[i - 1].0;
        assert Arrows[i - 1].0 == Arrows[i].0 + 45;
        assert q == 8 - i;
      }
    }
  }

  /** The highlight of a number on the precipitation line. */
  datatype Tone = Text | Sunny | Rain

  /** What the report shows besides the rounded numbers. */
  datatype Report = Report(windIcon: string, minuteTone: Tone, hourTone: Tone, stamp: string, provider: string)

  /**
   * main() fed with the relay's response.  A WeatherParseError is reported with its
   * text and re-raised; any other failure escapes unreported; a Weather lacking one of
   * the values the report uses fails as round() or a comparison on None does.  The
   * minute rainfall is highlighted as rain when positive, the hourly rainfall as sunny
   * when below 0.1 mm.
   */
  method Run(response: JsonResponse) returns (outcome: Outcome, diagnostic: Option<Option<string>>, report: Option<Report>)
    ensures outcome.Pass? <==> report.Some?
    ensures diagnostic.Some? <==> outcome.Fail? && outcome.error.WeatherParseError?
    ensures diagnostic.Some? ==> diagnostic.value == outcome.error.text
    ensures response.JsonUnreachable? ==> outcome == Fail(ConnectionError)
    ensures response.JsonReply? && IsErrorStatus(response.status) ==> outcome == Fail(HttpError(response.status))
    ensures response.JsonReply? && !IsErrorStatus(response.status) && response.json.None? ==> outcome == Fail(ValueError)
    ensures response.JsonReply? && response.json.Some? && !IsErrorStatus(response.status) ==>
      var fetched := ParseNtusaData(response.json.value, NtusaName);
      (fetched.Failure? ==> outcome == Fail(fetched.error))
      && (fetched.Success? && InRange(fetched.value.date.value, TaipeiOffset) ==>
        report.Some? && report.value.provider == fetched.value.provider.value
        && report.value.stamp == IsoFormat(fetched.value.date.value, ' ', false)
        && (report.value.minuteTone == Rain <==> fetched.value.rainPerMinute.value > 0.0)
        && (report.value.hourTone == Sunny <==> fetched.value.rainPerHour.value < 0.1)
        && IconOfThresholds(fetched.value.windDirection.value, report.value.windIcon)
        && (0 <= fetched.value.windDirection.value <= 360 ==>
          report.value.windIcon == CompassArrow(fetched.value.windDirection.value)))
  {
    var provider := new NtusaProvider(None);
    var fetched := provider.Get(response);
    diagnostic := None;
    report := None;
    if fetched.Failure? {
      outcome := Fail(fetched.error);
      if fetched.error.WeatherParseError? {
        diagnostic := Some(fetched.error.text);
      }
      return;
    }
    var w := fetched.value;
    if !Complete(w) {
      outcome := Fail(TypeError);
      return;
    }
    if !InRange(w.date.value, TaipeiOffset) {
      outcome := Fail(OverflowError);
      return;
    }
    var icon := WindIcon(w.windDirection.value);
    var minuteTone := if w.rainPerMinute.value > 0.0 then Rain else Text;
    var hourTone := if w.rainPerHour.value < 0.1 then Sunny else Text;
    outcome := Pass;
    report := Some(Report(icon, minuteTone, hourTone, IsoFormat(w.date.value, ' ', false), w.provider.value));
  }
}
