/**
 * The weather helpers of app/Providers/AppServiceProvider.php. The file holds
 * two copies of each helper: one in the object registered as the
 * `weather.helpers` singleton (called "Helper" here) and one as methods of the
 * provider itself (called "Provider" here). Icons are Font Awesome glyphs with
 * a text colour; the HTML markup around them is not modelled.
 */
module ServiceProvider {
  import opened AqiScale

  datatype Glyph = FaSun | FaCloud | FaCloudRain | FaBolt | FaSnowflake | FaSmog | FaWind | FaFire | FaCloudSun

  datatype FaIcon = FaIcon(glyph: Glyph, tint: string)

  /** The icon used for any condition the table does not list. */
  const DefaultIcon: FaIcon := FaIcon(FaCloudSun, "text-gray-400")

  /** The fifteen condition names (OpenWeather `weather[0].main`) both tables list. */
  const ConditionNames: set<string> := {
    "Clear", "Clouds", "Rain", "Drizzle", "Thunderstorm", "Snow", "Mist", "Smoke",
    "Haze", "Dust", "Fog", "Sand", "Ash", "Squall", "Tornado"
  }

  /** The singleton's table. */
  const HelperIcons: map<string, FaIcon> := map[
    "Clear" := FaIcon(FaSun, "text-yellow-300"),
    "Clouds" := FaIcon(FaCloud, "text-gray-300"),
    "Rain" := FaIcon(FaCloudRain, "text-blue-400"),
    "Drizzle" := FaIcon(FaCloudRain, "text-blue-300"),
    "Thunderstorm" := FaIcon(FaBolt, "text-purple-500"),
    "Snow" := FaIcon(FaSnowflake, "text-blue-100"),
    "Mist" := FaIcon(FaSmog, "text-gray-400"),
    "Smoke" := FaIcon(FaSmog, "text-gray-500"),
    "Haze" := FaIcon(FaSmog, "text-gray-400"),
    "Dust" := FaIcon(FaWind, "text-yellow-300"),
    "Fog" := FaIcon(FaSmog, "text-gray-300"),
    "Sand" := FaIcon(FaWind, "text-yellow-200"),
    "Ash" := FaIcon(FaFire, "text-orange-300"),
    "Squall" := FaIcon(FaWind, "text-blue-300"),
    "Tornado" := FaIcon(FaWind, "text-red-500")
  ]

  /** The provider method's table. */
  const ProviderIcons: map<string, FaIcon> := map[
    "Clear" := FaIcon(FaSun, "text-yellow-300"),
    "Clouds" := FaIcon(FaCloud, "text-gray-300"),
    "Rain" := FaIcon(FaCloudRain, "text-blue-400"),
    "Drizzle" := FaIcon(FaCloudRain, "text-blue-300"),
    "Thunderstorm" := FaIcon(FaBolt, "text-purple-500"),
    "Snow" := FaIcon(FaSnowflake, "text-blue-100"),
    "Mist" := FaIcon(FaSmog, "text-gray-400"),
    "Smoke" := FaIcon(FaSmog, "text-gray-500"),
    "Haze" := FaIcon(FaSmog, "text-gray-400"),
    "Dust" := FaIcon(FaWind, "text-yellow-300"),
    "Fog" := FaIcon(FaSmog, "text-gray-300"),
    "Sand" := FaIcon(FaWind, "text-yellow-200"),
    "Ash" := FaIcon(FaSmog, "text-gray-500"),
    "Squall" := FaIcon(FaWind, "text-gray-400"),
    "Tornado" := FaIcon(FaWind, "text-red-500")
  ]

  /**
   * The singleton's getWeatherIcon: an exact, case-sensitive key lookup with
   * the partly-cloudy icon as the `??` fallback.
   */
  function HelperWeatherIcon(condition: string): (icon: FaIcon)
    ensures condition in ConditionNames ==> icon == HelperIcons[condition]
    ensures icon == DefaultIcon <==> condition !in ConditionNames
  {
    if condition in HelperIcons then HelperIcons[condition] else DefaultIcon
  }

  /** The provider's getWeatherIcon, the same lookup over its own table. */
  function ProviderWeatherIcon(condition: string): (icon: FaIcon)
    ensures condition in ConditionNames ==> icon == ProviderIcons[condition]
    ensures icon == DefaultIcon <==> condition !in ConditionNames
  {
    if condition in ProviderIcons then ProviderIcons[condition] else DefaultIcon
  }

  /**
   * The lookup is exact: a lower-case or empty condition is not a key, so it
   * gets the default icon rather than the one for "Clear".
   */
  lemma LookupIsExact()
    ensures HelperWeatherIcon("clear") == DefaultIcon && ProviderWeatherIcon("clear") == DefaultIcon
    ensures HelperWeatherIcon("") == DefaultIcon && ProviderWeatherIcon("") == DefaultIcon
    ensures HelperWeatherIcon("Clear") == ProviderWeatherIcon("Clear") == FaIcon(FaSun, "text-yellow-300")
  {
  }

  /** The two tables give the same icon for every condition except Ash and Squall. */
  lemma IconTablesAgreeExceptAshAndSquall(condition: string)
    ensures HelperWeatherIcon(condition) == ProviderWeatherIcon(condition)
            <==> condition != "Ash" && condition != "Squall"
  {
  }

  // Description texts of the two getAqiStatus copies (the Good text is shared
  // by every copy and lives in AqiScale).
  const HelperModerateText := "Air quality is acceptable; however, there may be a risk for some people, particularly those who are unusually sensitive to air pollution."
  const HelperSensitiveText := "Members of sensitive groups may experience health effects. The general public is less likely to be affected."
  const HelperUnhealthyText := "Some members of the general public may experience health effects; members of sensitive groups may experience more serious health effects."
  const HelperVeryUnhealthyText := "Health alert: The risk of health effects is increased for everyone."
  const HelperHazardousText := "Health warning of emergency conditions: everyone is more likely to be affected."
  const ProviderModerateText := "Air quality is acceptable; however, there may be a moderate health concern for a very small number of people."
  const ProviderSensitiveText := "Members of sensitive groups may experience health effects. The general public is not likely to be affected."
  const ProviderUnhealthyText := "Everyone may begin to experience health effects; members of sensitive groups may experience more serious health effects."
  const ProviderVeryUnhealthyText := "Health alert: everyone may experience more serious health effects."
  const ProviderHazardousText := "Health warnings of emergency conditions. The entire population is more likely to be affected."

  /** The singleton's getAqiStatus (its if/elseif chain). */
  function HelperAqiStatus(aqi: int): (s: AqiStatus)
    ensures s.labelText == Label(LevelOf(aqi))
  {
    LevelOfBands(aqi);
    if aqi <= 50 then
      AqiStatus("Good", "green-500", GoodText)
    else if aqi <= 100 then
      AqiStatus("Moderate", "yellow-500", HelperModerateText)
    else if aqi <= 150 then
      AqiStatus("Unhealthy for Sensitive Groups", "orange-500", HelperSensitiveText)
    else if aqi <= 200 then
      AqiStatus("Unhealthy", "red-500", HelperUnhealthyText)
    else if aqi <= 300 then
      AqiStatus("Very Unhealthy", "purple-500", HelperVeryUnhealthyText)
    else
      AqiStatus("Hazardous", "red-800", HelperHazardousText)
  }

  /** The provider's getAqiStatus (its if/elseif chain). */
  function ProviderAqiStatus(aqi: int): (s: AqiStatus)
    ensures s.labelText == Label(LevelOf(aqi))
  {
    LevelOfBands(aqi);
    if aqi <= 50 then
      AqiStatus("Good", "green-500", GoodText)
    else if aqi <= 100 then
      AqiStatus("Moderate", "yellow-500", ProviderModerateText)
    else if aqi <= 150 then
      AqiStatus("Unhealthy for Sensitive Groups", "orange-500", ProviderSensitiveText)
    else if aqi <= 200 then
      AqiStatus("Unhealthy", "red-500", ProviderUnhealthyText)
    else if aqi <= 300 then
      AqiStatus("Very Unhealthy", "purple-500", ProviderVeryUnhealthyText)
    else
      AqiStatus("Hazardous", "red-700", ProviderHazardousText)
  }

  /**
   * The two copies always agree on the label; their colours differ only in
   * the Hazardous band (red-800 against red-700), and their descriptions agree
   * only in the Good band.
   */
  lemma AqiCopiesAgreeOnLabel(aqi: int)
    ensures HelperAqiStatus(aqi).labelText == ProviderAqiStatus(aqi).labelText
    ensures HelperAqiStatus(aqi).shade == ProviderAqiStatus(aqi).shade <==> aqi <= 300
    ensures aqi > 300 ==> HelperAqiStatus(aqi).shade == "red-800" && ProviderAqiStatus(aqi).shade == "red-700"
    ensures HelperAqiStatus(aqi).description == ProviderAqiStatus(aqi).description <==> aqi <= 50
  {
  }
}
