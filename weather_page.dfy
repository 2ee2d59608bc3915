/**
 * The logic of the weather page, resources/js/pages/weather.tsx: its own AQI
 * classifier, the loading and error state its handlers drive, and the
 * add-favorite request.
 */
module WeatherPage {
  import opened Wrappers
  import opened AqiScale
  import ServiceProvider
  import opened Favorites

  const PageModerateText := "Air quality is acceptable; however, some pollutants may be a concern for a small number of people."
  const PageSensitiveText := "Members of sensitive groups may experience health effects."
  const PageUnhealthyText := "Everyone may begin to experience health effects."
  const PageVeryUnhealthyText := "Health warnings of emergency conditions."
  const PageHazardousText := "Health alert: everyone may experience more serious health effects."

  /** The page's getAQIStatus: the same six bands as the server, with its own descriptions. */
  function PageAqiStatus(aqi: int): (s: AqiStatus)
    ensures s.labelText == Label(LevelOf(aqi))
  {
    LevelOfBands(aqi);
    if aqi <= 50 then
      AqiStatus("Good", "green-500", GoodText)
    else if aqi <= 100 then
      AqiStatus("Moderate", "yellow-500", PageModerateText)
    else if aqi <= 150 then
      AqiStatus("Unhealthy for Sensitive Groups", "orange-500", PageSensitiveText)
    else if aqi <= 200 then
      AqiStatus("Unhealthy", "red-500", PageUnhealthyText)
    else if aqi <= 300 then
      AqiStatus("Very Unhealthy", "purple-500", PageVeryUnhealthyText)
    else
      AqiStatus("Hazardous", "red-700", PageHazardousText)
  }

  /**
   * The page and the provider's classifier agree on the label and the colours
   * for every value; their descriptions agree only in the Good band.
   */
  lemma PageAgreesWithProvider(aqi: int)
    ensures PageAqiStatus(aqi).labelText == ServiceProvider.ProviderAqiStatus(aqi).labelText
    ensures PageAqiStatus(aqi).Color() == ServiceProvider.ProviderAqiStatus(aqi).Color()
    ensures PageAqiStatus(aqi).BgColor() == ServiceProvider.ProviderAqiStatus(aqi).BgColor()
    ensures PageAqiStatus(aqi).description == ServiceProvider.ProviderAqiStatus(aqi).description <==> aqi <= 50
  {
  }

  /** Against the singleton's copy the page's colours differ in the Hazardous band only. */
  lemma PageAgreesWithHelper(aqi: int)
    ensures PageAqiStatus(aqi).labelText == ServiceProvider.HelperAqiStatus(aqi).labelText
    ensures PageAqiStatus(aqi).shade == ServiceProvider.HelperAqiStatus(aqi).shade <==> aqi <= 300
  {
  }

  /** The page's Hazardous text is the provider's Very Unhealthy text. */
  lemma PageHazardousIsProviderVeryUnhealthy(hazardous: int, veryUnhealthy: int)
    requires hazardous > 300 && 200 < veryUnhealthy <= 300
    ensures PageAqiStatus(hazardous).description == ServiceProvider.ProviderAqiStatus(veryUnhealthy).description
  {
  }

  // ---------------------------------------------------------------------------
  // Requests the handlers send
  // ---------------------------------------------------------------------------

  /** The body of the add-favorite POST: the country is always a string. */
  datatype FavoritePost = FavoritePost(city: string, country: string)

  /** What the page sends: the search form, a visit to a favorite's city, or a new favorite. */
  datatype Request = PostSearch(city: string) | VisitCity(city: string) | PostFavorite(post: FavoritePost)

  /** The weather props the page reads when adding a favorite: `name` and `sys.country`. */
  datatype ShownWeather = ShownWeather(name: string, country: Option<string>)

  /**
   * handleAddFavorite: nothing without weather; otherwise the city name and
   * the country, with a missing or empty country sent as "".
   */
  function AddFavoriteRequest(weather: Option<ShownWeather>): (request: Option<Request>)
    ensures request.None? <==> weather.None?
    ensures request.Some? ==> request.value.PostFavorite? && request.value.post.city == weather.value.name
    ensures request.Some? && weather.value.country.Some? ==> request.value.post.country == weather.value.country.value
    ensures request.Some? && weather.value.country.None? ==> request.value.post.country == ""
  {
    match weather
    case None => None
    case Some(w) => Some(PostFavorite(FavoritePost(w.name, w.country.GetOr(""))))
  }

  /**
   * Adding the shown city is accepted exactly when its name and country fit
   * the rules (a blank country always fits), and pressing the button twice
   * stores one row.
   */
  lemma AddFavoriteIsIdempotent(t: Table, weather: ShownWeather)
    ensures var post := AddFavoriteRequest(Some(weather)).value.post;
            var once := Save(t, post.city, Given(post.country));
            var country := weather.country.GetOr("");
            && (once.0.Saved? <==> !Blank(weather.name) && |weather.name| <= MaxCityLength
                                   && (Blank(country) || |country| <= MaxCountryLength))
            && Save(once.1, post.city, Given(post.country)) == once
  {
    var post := AddFavoriteRequest(Some(weather)).value.post;
    SaveTwiceIsSaveOnce(t, post.city, Given(post.country));
  }

  // ---------------------------------------------------------------------------
  // Loading and error state
  // ---------------------------------------------------------------------------

  const FallbackError := "An error occurred"
  const FavoriteNotFound := "City not found"

  /** `errors.city || 'An error occurred'`: an empty or missing city message falls back. */
  function SearchErrorText(errors: map<string, string>): (text: string)
    ensures text != ""
    ensures "city" in errors && errors["city"] != "" ==> text == errors["city"]
    ensures !("city" in errors && errors["city"] != "") ==> text == FallbackError
  {
    if "city" in errors && errors["city"] != "" then errors["city"] else FallbackError
  }

  /** The page component's `isLoading` and `error` state. */
  class PageState {
    var isLoading: bool
    var error: Option<string>

    /** A spinner never shows with an error, and a shown error is never empty. */
    ghost predicate Valid()
      reads this
    {
      (isLoading ==> error.None?) && (error.Some? ==> error.value != "")
    }

    constructor ()
      ensures Valid() && !isLoading && error.None?
    {
      isLoading := false;
      error := None;
    }

    /** handleSearch: start loading, clear the error, post the form. */
    method HandleSearch(city: string) returns (request: Request)
      modifies this
      ensures Valid() && isLoading && error.None?
      ensures request == PostSearch(city)
    {
      isLoading := true;
      error := None;
      request := PostSearch(city);
    }

    /** handleSearch's onSuccess: stop loading. */
    method OnSearchSuccess()
      requires Valid()
      modifies this
      ensures Valid() && !isLoading && error == old(error)
    {
      isLoading := false;
    }

    /** handleSearch's onError: show the city message or the fallback, stop loading. */
    method OnSearchError(errors: map<string, string>)
      modifies this
      ensures Valid() && !isLoading && error == Some(SearchErrorText(errors))
    {
      error := Some(SearchErrorText(errors));
      isLoading := false;
    }

    /** handleFavoriteClick: start loading, clear the error, visit the page for that city. */
    method HandleFavoriteClick(city: string) returns (request: Request)
      modifies this
      ensures Valid() && isLoading && error.None?
      ensures request == VisitCity(city)
    {
      isLoading := true;
      error := None;
      request := VisitCity(city);
    }

    /** handleFavoriteClick's onSuccess: stop loading. */
    method OnFavoriteSuccess()
      requires Valid()
      modifies this
      ensures Valid() && !isLoading && error == old(error)
    {
      isLoading := false;
    }

    /** handleFavoriteClick's onError: "City not found", whatever the errors say. */
    method OnFavoriteError()
      modifies this
      ensures Valid() && !isLoading && error == Some(FavoriteNotFound)
    {
      error := Some(FavoriteNotFound);
      isLoading := false;
    }
  }
}
