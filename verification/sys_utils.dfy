/**
  Host readings of the rover server (server/utils/sysUtils.js). The shell command
  and the file read are not run here: their output, or their failure (`None`),
  is a parameter.
*/
module SysUtils {
  import opened Wrappers
  import opened JsText

  /** What `Math.min(Math.floor(x), 100)` gives: a whole percentage, or NaN. */
  datatype Load = Percent(pct: int) | NotANumber

  /** `vcgencmd measure_temp` prints `temp=48.3'C` and a newline. */
  const TEMP_PREFIX := "temp="
  const TEMP_SUFFIX := "'C\n"

  /** Remove the first `temp=` and then the first `'C` + newline from the command output. */
  function StripTemp(raw: string): (t: string)
    ensures |raw| - |TEMP_PREFIX| - |TEMP_SUFFIX| <= |t| <= |raw|
  {
    ReplaceFirst(ReplaceFirst(raw, TEMP_PREFIX, ""), TEMP_SUFFIX, "")
  }

  /** `getCpuTemp`: the stripped command output; a failing command gives `"-"`. */
  function GetCpuTemp(output: Option<string>): (t: string)
    ensures output.None? ==> t == "-"
    ensures output.Some? ==> |t| <= |output.value|
  {
    match output
    case None => "-"
    case Some(raw) => StripTemp(raw)
  }

  /** The prefix of a well-formed reading is the first `temp=`. */
  lemma StripTempPrefix(t: string)
    ensures ReplaceFirst(TEMP_PREFIX + t + TEMP_SUFFIX, TEMP_PREFIX, "") == t + TEMP_SUFFIX
  {
    var raw := TEMP_PREFIX + t + TEMP_SUFFIX;
    assert OccursAt(raw, TEMP_PREFIX, 0) by {
      assert raw[..|TEMP_PREFIX|] == TEMP_PREFIX;
    }
    ReplaceFirstAt(raw, TEMP_PREFIX, "", 0);
    assert raw[|TEMP_PREFIX|..] == t + TEMP_SUFFIX;
  }

  /** When the text has no character that starts `suf`, the first `suf` is the one at its end. */
  lemma StripTrailing(t: string, suf: string)
    requires |suf| > 0 && forall k :: 0 <= k < |t| ==> t[k] != suf[0]
    ensures ReplaceFirst(t + suf, suf, "") == t
  {
    var mid := t + suf;
    assert OccursAt(mid, suf, |t|) by {
      assert mid[|t|..|t| + |suf|] == suf;
    }
    forall j | 0 <= j < |t| ensures !OccursAt(mid, suf, j) {
      assert mid[j] == t[j];
    }
    ReplaceFirstAt(mid, suf, "", |t|);
    assert mid[..|t|] == t;
    assert mid[|t| + |suf|..] == [];
  }

  /** For a well-formed reading the stripped text is exactly the number printed. */
  lemma GetCpuTempStripsReading(t: string)
    requires forall k :: 0 <= k < |t| ==> t[k] != '\''
    ensures StripTemp(TEMP_PREFIX + t + TEMP_SUFFIX) == t
    ensures GetCpuTemp(Some(TEMP_PREFIX + t + TEMP_SUFFIX)) == t
  {
    StripTempPrefix(t);
    assert TEMP_SUFFIX[0] == '\'';
    StripTrailing(t, TEMP_SUFFIX);
  }

  /** A failing temperature command reads as `"-"`. */
  lemma GetCpuTempFailure()
    ensures GetCpuTemp(None) == "-"
  {
  }

  /** One-minute load average spread over 4 cores, in whole percent, capped at 100. */
  function CappedLoad(load1: real): (pct: int)
    ensures pct <= 100
    ensures pct == 100 <==> load1 >= 4.0
    ensures load1 >= 0.0 ==> pct >= 0
  {
    var scaled := (load1 / 4.0 * 100.0).Floor;
    if scaled < 100 then scaled else 100
  }

  /**
    `getCpuLoad`: the first space-separated token of `/proc/loadavg`, parsed and
    capped. It has no `try`: a failed read (`None`) is an exception for the caller,
    modelled here as `None`.
  */
  function GetCpuLoad(loadavg: Option<string>): (r: Option<Load>)
    ensures r.None? <==> loadavg.None?
    ensures r.Some? && r.value.Percent? ==> r.value.pct <= 100
  {
    match loadavg
    case None => None
    case Some(text) =>
      match ParseFloat(FirstToken(text))
      case None => Some(NotANumber)
      case Some(x) => Some(Percent(CappedLoad(x)))
  }

  /** Only the first token matters: the 5- and 15-minute averages are ignored. */
  lemma GetCpuLoadFirstTokenOnly(tok: string, rest1: string, rest2: string)
    requires forall k :: 0 <= k < |tok| ==> tok[k] != ' '
    ensures GetCpuLoad(Some(tok + " " + rest1)) == GetCpuLoad(Some(tok + " " + rest2))
  {
    FirstTokenIgnoresRest(tok, rest1);
    FirstTokenIgnoresRest(tok, rest2);
  }

  /** Linear estimate: 0.0583 percentage points per minute running, never below 0. */
  function GetBattery(elapsedMs: real): (pct: real)
    ensures pct >= 0.0
    ensures elapsedMs >= 0.0 ==> pct <= 100.0
  {
    var minutesRunning := elapsedMs / 60000.0;
    var drop := minutesRunning * 0.0583;
    if 100.0 - drop > 0.0 then 100.0 - drop else 0.0
  }

  /** A fresh start reads 100, and the estimate never rises as time passes. */
  lemma GetBatteryDrains(e1: real, e2: real)
    requires e1 <= e2
    ensures GetBattery(0.0) == 100.0
    ensures GetBattery(e2) <= GetBattery(e1)
  {
  }
}
