/**
 * The WeatherIcon component of resources/js/components/weather-icon.tsx:
 * getWeatherIcon picks a Lucide icon from the lower-cased weather condition,
 * getSizeClasses picks the Tailwind size classes.
 */
module WeatherIcon {
  import opened Wrappers

  datatype Icon = Sun | Cloud | CloudRain | CloudSnow | CloudLightning | CloudFog | Wind | Eye

  /** String.prototype.toLowerCase on one character, for the ASCII letters. */
  function LowerChar(c: char): char {
    if 'A' <= c <= 'Z' then (c as int + 32) as char else c
  }

  /** String.prototype.toLowerCase, character by character. */
  function Lower(s: string): (r: string)
    ensures |r| == |s|
    ensures forall i :: 0 <= i < |s| ==> r[i] == LowerChar(s[i])
  {
    if s == [] then [] else [LowerChar(s[0])] + Lower(s[1..])
  }

  /** Two strings that differ at most in the case of their letters. */
  predicate EqualIgnoringCase(a: string, b: string) {
    |a| == |b| && forall i :: 0 <= i < |a| ==> LowerChar(a[i]) == LowerChar(b[i])
  }

  /** `part` occurs in `s` starting at index `i`. */
  predicate OccursAt(s: string, part: string, i: int) {
    0 <= i && i + |part| <= |s| && s[i..i + |part|] == part
  }

  /** String.prototype.includes. */
  function Contains(s: string, part: string): (b: bool)
    ensures b <==> exists i :: OccursAt(s, part, i)
  {
    if |part| <= |s| && s[..|part|] == part then assert OccursAt(s, part, 0); true
    else if |s| <= |part| then false
    else
      var inTail := Contains(s[1..], part);
      assert inTail ==> exists i :: OccursAt(s, part, i) by {
        if inTail {
          var j :| OccursAt(s[1..], part, j);
          assert s[1..][j..j + |part|] == s[j + 1..j + 1 + |part|];
          assert OccursAt(s, part, j + 1);
        }
      }
      assert (exists i :: OccursAt(s, part, i)) ==> inTail by {
        if exists i :: OccursAt(s, part, i) {
          var i :| OccursAt(s, part, i);
          assert i != 0;
          assert s[1..][i - 1..i - 1 + |part|] == s[i..i + |part|];
          assert OccursAt(s[1..], part, i - 1);
        }
      }
      inTail
  }

  /** The lower-case conditions the switch in getWeatherIcon has a case for. */
  const SwitchCases: set<string> := {
    "clear", "clouds", "rain", "drizzle", "snow", "thunderstorm",
    "mist", "fog", "haze", "tornado", "squall"
  }

  /**
   * getWeatherIcon: the switch on the lower-cased main condition, with Eye as
   * the default. The description is lower-cased and consulted only for
   * "clouds", where both of its branches give Cloud.
   */
  function GetWeatherIcon(weatherMain: string, weatherDescription: Option<string>): (icon: Icon)
    ensures icon == Eye <==> Lower(weatherMain) !in SwitchCases
  {
    var main := Lower(weatherMain);
    var desc := if weatherDescription.Some? then Lower(weatherDescription.value) else "";
    if main == "clear" then Sun
    else if main == "clouds" then
      if Contains(desc, "scattered") || Contains(desc, "broken") then Cloud else Cloud
    else if main == "rain" || main == "drizzle" then CloudRain
    else if main == "snow" then CloudSnow
    else if main == "thunderstorm" then CloudLightning
    else if main == "mist" || main == "fog" || main == "haze" then CloudFog
    else if main == "tornado" || main == "squall" then Wind
    else Eye
  }

  /** Lower-casing twice is lower-casing once. */
  lemma LowerIdempotent(s: string)
    ensures Lower(Lower(s)) == Lower(s)
  {
    assert forall i :: 0 <= i < |s| ==> Lower(Lower(s))[i] == Lower(s)[i];
  }

  /** Strings equal up to letter case lower-case to the same string. */
  lemma {:induction false} LowerEqualIgnoringCase(a: string, b: string)
    requires EqualIgnoringCase(a, b)
    ensures Lower(a) == Lower(b)
  {
    if a != [] {
      assert EqualIgnoringCase(a[1..], b[1..]) by {
        forall i | 0 <= i < |a| - 1 ensures LowerChar(a[1..][i]) == LowerChar(b[1..][i]) {
          assert a[1..][i] == a[i + 1] && b[1..][i] == b[i + 1];
        }
      }
      LowerEqualIgnoringCase(a[1..], b[1..]);
    }
  }

  /**
   * getWeatherIcon is case-insensitive in the condition, and the description
   * never changes the icon.
   */
  lemma IconIgnoresCaseAndDescription(a: string, b: string, da: Option<string>, db: Option<string>)
    requires EqualIgnoringCase(a, b)
    ensures GetWeatherIcon(a, da) == GetWeatherIcon(b, db)
  {
    LowerEqualIgnoringCase(a, b);
  }

  /** A string without upper-case ASCII letters. */
  predicate NoUpperCase(s: string) {
    forall i :: 0 <= i < |s| ==> !('A' <= s[i] <= 'Z')
  }

  /** Lower-casing leaves a string without upper-case letters unchanged. */
  lemma LowerOfLowerCase(s: string)
    requires NoUpperCase(s)
    ensures Lower(s) == s
  {
    assert forall i :: 0 <= i < |s| ==> Lower(s)[i] == s[i];
  }

  /**
   * The icon of every case of the switch, whatever the letter case of the
   * condition: clear is Sun, clouds Cloud, rain and drizzle CloudRain, snow
   * CloudSnow, thunderstorm CloudLightning, mist, fog and haze CloudFog,
   * tornado and squall Wind.
   */
  lemma SwitchCaseIcons(main: string, desc: Option<string>)
    ensures Lower(main) == "clear" ==> GetWeatherIcon(main, desc) == Sun
    ensures Lower(main) == "clouds" ==> GetWeatherIcon(main, desc) == Cloud
    ensures Lower(main) in {"rain", "drizzle"} ==> GetWeatherIcon(main, desc) == CloudRain
    ensures Lower(main) == "snow" ==> GetWeatherIcon(main, desc) == CloudSnow
    ensures Lower(main) == "thunderstorm" ==> GetWeatherIcon(main, desc) == CloudLightning
    ensures Lower(main) in {"mist", "fog", "haze"} ==> GetWeatherIcon(main, desc) == CloudFog
    ensures Lower(main) in {"tornado", "squall"} ==> GetWeatherIcon(main, desc) == Wind
  {
  }

  /** Smoke, Dust, Sand and Ash have no case in the switch and show the Eye default. */
  lemma UnlistedConditionsShowEye(condition: string, desc: Option<string>)
    requires condition in {"Smoke", "Dust", "Sand", "Ash"}
    ensures GetWeatherIcon(condition, desc) == Eye
  {
  }

  /** getSizeClasses: the switch on the size name, falling back to medium. */
  function SizeClasses(size: string): (classes: string)
    ensures size !in {"sm", "lg", "xl"} ==> classes == "w-6 h-6"
  {
    match size
    case "sm" => "w-4 h-4"
    case "md" => "w-6 h-6"
    case "lg" => "w-8 h-8"
    case "xl" => "w-12 h-12"
    case _ => "w-6 h-6"
  }

  /** The component's size prop, which defaults to 'md' when not given and is passed on otherwise. */
  function IconSizeClasses(size: Option<string>): (classes: string)
    ensures size.None? ==> classes == SizeClasses("md")
    ensures size.Some? ==> classes == SizeClasses(size.value)
    ensures size == Some("xl") ==> classes == "w-12 h-12"
  {
    SizeClasses(size.GetOr("md"))
  }

  /** The four named sizes give four different sizes, each square. */
  lemma SizesAreDistinct()
    ensures SizeClasses("sm") == "w-4 h-4" && SizeClasses("md") == "w-6 h-6"
    ensures SizeClasses("lg") == "w-8 h-8" && SizeClasses("xl") == "w-12 h-12"
    ensures |{SizeClasses("sm"), SizeClasses("md"), SizeClasses("lg"), SizeClasses("xl")}| == 4
  {
  }
}
