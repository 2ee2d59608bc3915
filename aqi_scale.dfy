/**
 * The US Air Quality Index scale shared by every copy of the AQI classifier:
 * six severity bands with inclusive upper bounds 50, 100, 150, 200 and 300.
 *
 * `LevelOf` is a reference definition of the band of a value, independent of
 * the if/else chains of the classifiers: it counts how many of the upper
 * bounds the value exceeds.
 */
module AqiScale {

  datatype Level = Good | Moderate | SensitiveGroups | Unhealthy | VeryUnhealthy | Hazardous

  /** Position of a band on the scale, 0 for Good up to 5 for Hazardous. */
  function Rank(l: Level): nat {
    match l
    case Good => 0
    case Moderate => 1
    case SensitiveGroups => 2
    case Unhealthy => 3
    case VeryUnhealthy => 4
    case Hazardous => 5
  }

  /** The band at a given position; inverse of Rank. */
  function LevelAt(k: nat): (l: Level)
    requires k <= 5
    ensures Rank(l) == k
  {
    if k == 0 then Good
    else if k == 1 then Moderate
    else if k == 2 then SensitiveGroups
    else if k == 3 then Unhealthy
    else if k == 4 then VeryUnhealthy
    else Hazardous
  }

  /** The label every classifier copy shows for a band. */
  function Label(l: Level): string {
    match l
    case Good => "Good"
    case Moderate => "Moderate"
    case SensitiveGroups => "Unhealthy for Sensitive Groups"
    case Unhealthy => "Unhealthy"
    case VeryUnhealthy => "Very Unhealthy"
    case Hazardous => "Hazardous"
  }

  /** Inclusive upper bounds of the first five bands; the last band is open. */
  const UpperBounds: seq<int> := [50, 100, 150, 200, 300]

  ghost predicate Ascending(bounds: seq<int>) {
    forall i, j :: 0 <= i < j < |bounds| ==> bounds[i] < bounds[j]
  }

  /** How many of `bounds` the value `v` lies strictly above. */
  function Exceeded(v: int, bounds: seq<int>): (n: nat)
    ensures n <= |bounds|
  {
    if bounds == [] then 0
    else (if v > bounds[0] then 1 else 0) + Exceeded(v, bounds[1..])
  }

  /** The band of an AQI value: one step up for every upper bound it exceeds. */
  function LevelOf(v: int): Level {
    LevelAt(Exceeded(v, UpperBounds))
  }

  /**
   * On ascending bounds, Exceeded is the cut point: every bound before it
   * lies below `v`, every bound from it on lies at or above `v`.
   */
  lemma {:induction false} ExceededIsCut(v: int, bounds: seq<int>)
    requires Ascending(bounds)
    ensures forall i :: 0 <= i < Exceeded(v, bounds) ==> bounds[i] < v
    ensures forall i :: Exceeded(v, bounds) <= i < |bounds| ==> v <= bounds[i]
  {
    if bounds != [] {
      var tail := bounds[1..];
      assert Ascending(tail);
      ExceededIsCut(v, tail);
    }
  }

  /** A larger value exceeds at least as many bounds. */
  lemma {:induction false} ExceededMonotone(v1: int, v2: int, bounds: seq<int>)
    requires v1 <= v2
    ensures Exceeded(v1, bounds) <= Exceeded(v2, bounds)
  {
    if bounds != [] {
      ExceededMonotone(v1, v2, bounds[1..]);
    }
  }

  /**
   * The six bands with their inclusive upper bounds: exactly 50 is Good,
   * 51 Moderate, 300 Very Unhealthy and every value above 300 Hazardous.
   */
  lemma LevelOfBands(v: int)
    ensures LevelOf(v) == Good <==> v <= 50
    ensures LevelOf(v) == Moderate <==> 50 < v <= 100
    ensures LevelOf(v) == SensitiveGroups <==> 100 < v <= 150
    ensures LevelOf(v) == Unhealthy <==> 150 < v <= 200
    ensures LevelOf(v) == VeryUnhealthy <==> 200 < v <= 300
    ensures LevelOf(v) == Hazardous <==> 300 < v
  {
    assert Ascending(UpperBounds);
    ExceededIsCut(v, UpperBounds);
    var n := Exceeded(v, UpperBounds);
    if n > 0 {
      assert UpperBounds[n - 1] < v;
    }
    if n < 5 {
      assert v <= UpperBounds[n];
    }
    assert UpperBounds == [50, 100, 150, 200, 300];
  }

  /** The classification is monotone: a worse AQI never gets a milder band. */
  lemma LevelOfMonotone(v1: int, v2: int)
    requires v1 <= v2
    ensures Rank(LevelOf(v1)) <= Rank(LevelOf(v2))
  {
    ExceededMonotone(v1, v2, UpperBounds);
  }

  /** The description every classifier copy gives for the Good band. */
  const GoodText := "Air quality is considered satisfactory, and air pollution poses little or no risk."

  /**
   * What a classifier returns: the label, the Tailwind colour shade and the
   * description. Every copy writes its text colour class as `text-` and its
   * background class as `bg-` followed by the same shade, so the record keeps
   * the shade once and derives both classes from it.
   */
  datatype AqiStatus = AqiStatus(labelText: string, shade: string, description: string) {
    function Color(): string { "text-" + shade }
    function BgColor(): string { "bg-" + shade }
  }
}
