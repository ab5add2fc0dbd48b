/**
  The Wi-Fi strength indicator of the dashboard
  (dashboard/src/components/WifiSignal.jsx): signal level from dBm, bar colour,
  and which of the four bars are lit.
*/
module WifiSignal {
  /** The `dbm` prop: a number, or something every comparison is false for (`undefined`, NaN). */
  datatype Dbm = Num(value: real) | NonNumeric

  /** `val > t` as JavaScript evaluates it. */
  predicate Above(d: Dbm, t: real) {
    d.Num? && d.value > t
  }

  /** `getLevel`: strict thresholds at -55, -65, -75 and -85 dBm. */
  function Level(d: Dbm): (level: int)
    ensures 0 <= level <= 4
  {
    if Above(d, -55.0) then 4
    else if Above(d, -65.0) then 3
    else if Above(d, -75.0) then 2
    else if Above(d, -85.0) then 1
    else 0
  }

  /** A stronger signal never shows fewer bars. */
  lemma LevelMonotone(v1: real, v2: real)
    requires v1 <= v2
    ensures Level(Num(v1)) <= Level(Num(v2))
  {
  }

  /** The thresholds are exclusive, and a non-numeric reading shows nothing. */
  lemma LevelBoundaries()
    ensures Level(Num(-55.0)) == 3 && Level(Num(-54.9)) == 4
    ensures Level(Num(-65.0)) == 2 && Level(Num(-75.0)) == 1
    ensures Level(Num(-85.0)) == 0 && Level(Num(-84.9)) == 1
    ensures Level(NonNumeric) == 0
  {
  }

  /** The level counts how many of the four thresholds the reading is above. */
  lemma LevelCountsThresholds(d: Dbm)
    ensures Level(d) == (if Above(d, -55.0) then 1 else 0) + (if Above(d, -65.0) then 1 else 0)
                      + (if Above(d, -75.0) then 1 else 0) + (if Above(d, -85.0) then 1 else 0)
  {
  }

  const GREEN := "#4caf50"
  const YELLOW := "#ffeb3b"
  const ORANGE := "#ff9800"
  const RED := "#f44336"
  const UNLIT := "#333"

  /** `getColor`. */
  function Color(level: int): (c: string)
    ensures c == GREEN <==> level >= 3
    ensures c == RED <==> level <= 0
    ensures c != UNLIT
  {
    if level >= 3 then GREEN else if level == 2 then YELLOW else if level == 1 then ORANGE else RED
  }

  /** Background colours of bars 1 to 4: lit (`bar <= level`) in the level colour, else dark. */
  function Bars(level: int): (bars: seq<string>)
    ensures |bars| == 4
  {
    seq(4, i requires 0 <= i < 4 => if i + 1 <= level then Color(level) else UNLIT)
  }

  function CountLit(bars: seq<string>): nat
    decreases |bars|
  {
    if |bars| == 0 then 0 else (if bars[0] != UNLIT then 1 else 0) + CountLit(bars[1..])
  }

  /**
    For every reading exactly `level` bars are lit, the lit bars are the
    lowest ones, and they share one colour, green only for level 3 or 4.
  */
  lemma LitBars(d: Dbm)
    ensures CountLit(Bars(Level(d))) == Level(d)
    ensures forall i :: 0 <= i < 4 ==> (Bars(Level(d))[i] != UNLIT <==> i < Level(d))
    ensures Level(d) > 0 ==> Bars(Level(d))[0] == (if Level(d) >= 3 then GREEN else if Level(d) == 2 then YELLOW else ORANGE)
  {
    var level := Level(d);
    var b := Bars(level);
    assert Color(level) != UNLIT;
    assert forall i :: 0 <= i < 4 ==> b[i] == (if i + 1 <= level then Color(level) else UNLIT);
    assert b[1..][1..][1..][1..] == [];
    assert CountLit(b[1..][1..][1..]) == (if 4 <= level then 1 else 0);
    assert CountLit(b[1..][1..]) == (if 3 <= level then 1 else 0) + (if 4 <= level then 1 else 0);
  }
}
