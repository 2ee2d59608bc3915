# weatherApp core in Dafny

This is a model of the core logic of weatherApp. The app is a Laravel and React dashboard. It looks up a city's current weather from OpenWeatherMap and the nearby air quality from AirVisual, and keeps a list of favorite cities.

The model covers four parts:

- **Server helpers** (`app/Providers/AppServiceProvider.php`):
  - two copies of the condition-to-icon table;
  - two copies of the AQI classifier.
- **Request handlers** (`app/Http/Controllers/WeatherController.php`):
  - the page load (`index`);
  - the search form (`search`);
  - the JSON endpoint (`apiCombined`);
  - saving and removing favorites;
  - the favorites listing ordered by city.
- **Page logic** (`resources/js/pages/weather.tsx`):
  - the page's own AQI classifier;
  - the `isLoading`/`error` state its handlers drive;
  - the add-favorite request.
- **Icon component** (`resources/js/components/weather-icon.tsx`):
  - the choice of icon;
  - the size classes.

Files:

| file | models |
|---|---|
| `wrappers.dfy` | `Option` |
| `aqi_scale.dfy` | the six AQI bands (inclusive upper bounds 50/100/150/200/300) as a reference definition `LevelOf`, independent of every if/else chain |
| `service_provider.dfy` | AppServiceProvider.php |
| `weather_icon.dfy` | weather-icon.tsx |
| `favorites.dfy` | the favorites table behind WeatherController.php: validation, `firstOrCreate`, delete by id, `orderBy('city')`, and the class `FavoriteStore` that holds the rows and the id counter |
| `weather_controller.dfy` | index, search and apiCombined |
| `weather_page.dfy` | weather.tsx |

How the handlers are modelled:

- Each handler is a function of:
  - the two environment keys;
  - the favorites rows;
  - the replies the weather and air-quality services would give.
- It returns the response together with the outgoing requests, in order.
- A reply is either a status with an optional decoded JSON body, or a connection failure.
- The HTTP client throws on a connection failure, so the request ends in a server error.

## Model

| member | source | states |
|---|---|---|
| AqiScale.LevelOfBands | app/Providers/AppServiceProvider.php:136-181 | the band of a value is Good exactly up to 50, Moderate on 51..100, Sensitive Groups on 101..150, Unhealthy on 151..200, Very Unhealthy on 201..300, Hazardous above 300 (each bound inclusive) |
| AqiScale.LevelOfMonotone | app/Providers/AppServiceProvider.php:136-181 | a higher AQI never gets a milder band |
| AqiScale.ExceededIsCut | app/Providers/AppServiceProvider.php:138-173 | for ascending bounds, the number of bounds a value exceeds is the cut point: every bound before it lies below the value, every bound after it at or above it |
| ServiceProvider.HelperWeatherIcon | app/Providers/AppServiceProvider.php:18-39 | the singleton's icon for a condition is its table entry for the 15 listed conditions, and the cloud-sun default exactly for every other string |
| ServiceProvider.ProviderWeatherIcon | app/Providers/AppServiceProvider.php:110-131 | the provider's icon is its table entry for the 15 listed conditions, and the default exactly for every other string |
| ServiceProvider.LookupIsExact | app/Providers/AppServiceProvider.php:38 | the lookup is case-sensitive: "clear" and "" get the default, "Clear" gets the yellow sun |
| ServiceProvider.IconTablesAgreeExceptAshAndSquall | app/Providers/AppServiceProvider.php:20-36 | the two icon tables give the same icon for every condition except Ash and Squall |
| ServiceProvider.HelperAqiStatus | app/Providers/AppServiceProvider.php:41-86 | the singleton's classifier labels every value with the label of its band |
| ServiceProvider.ProviderAqiStatus | app/Providers/AppServiceProvider.php:136-181 | the provider's classifier labels every value with the label of its band, the final branch covering everything above 300 |
| ServiceProvider.AqiCopiesAgreeOnLabel | app/Providers/AppServiceProvider.php:43-85 | the two server copies agree on the label for every value; their colours agree exactly up to 300 (red-800 against red-700 above); their descriptions agree exactly up to 50 |
| WeatherIcon.Lower | resources/js/components/weather-icon.tsx:21 | lower-casing keeps the length and maps every character through the ASCII lower-case mapping |
| WeatherIcon.Contains | resources/js/components/weather-icon.tsx:28 | `includes` holds exactly when the part occurs at some position |
| WeatherIcon.GetWeatherIcon | resources/js/components/weather-icon.tsx:20-49 | the Eye default is returned exactly when the lower-cased condition has no case in the switch |
| WeatherIcon.SwitchCaseIcons | resources/js/components/weather-icon.tsx:24-45 | each case's icon: clear Sun, clouds Cloud, rain/drizzle CloudRain, snow CloudSnow, thunderstorm CloudLightning, mist/fog/haze CloudFog, tornado/squall Wind |
| WeatherIcon.IconIgnoresCaseAndDescription | resources/js/components/weather-icon.tsx:21-31 | conditions equal up to letter case get the same icon, whatever the two descriptions |
| WeatherIcon.LowerIdempotent | resources/js/components/weather-icon.tsx:21 | lower-casing twice is lower-casing once |
| WeatherIcon.LowerEqualIgnoringCase | resources/js/components/weather-icon.tsx:21 | strings equal up to letter case lower-case to the same string |
| WeatherIcon.LowerOfLowerCase | resources/js/components/weather-icon.tsx:21 | a string without upper-case letters is its own lower case |
| WeatherIcon.UnlistedConditionsShowEye | resources/js/components/weather-icon.tsx:46-47 | Smoke, Dust, Sand and Ash, which the server tables list, show the Eye default on the page |
| WeatherIcon.SizeClasses | resources/js/components/weather-icon.tsx:51-64 | any size other than sm, lg and xl gets the medium classes |
| WeatherIcon.IconSizeClasses | resources/js/components/weather-icon.tsx:66-73 | a missing size prop renders as 'md', and a given size is passed to getSizeClasses (the page's 'xl' gives w-12 h-12) |
| WeatherIcon.SizesAreDistinct | resources/js/components/weather-icon.tsx:52-60 | the four named sizes give four different class strings |
| Favorites.CityErrors | app/Http/Controllers/WeatherController.php:63-65 | a city passes required and max:100 exactly when it is not blank (empty or only trimmed whitespace) and has at most 100 characters; a blank city reports only that it is required, a longer one only that it is too long |
| Favorites.CountryErrors | app/Http/Controllers/WeatherController.php:113 | a country passes nullable and max:5 exactly when it is absent, null, blank or at most 5 characters; too long is reported exactly for a non-blank string of more than 5 |
| Favorites.Blank | app/Http/Controllers/WeatherController.php:64 | a string the validator treats as empty: every character is one PHP's trim strips (space, tab, newline, carriage return, NUL, vertical tab), so the empty string is blank |
| Favorites.ValidCity | app/Http/Controllers/WeatherController.php:112 | a city that passes required, string and max:100: not blank and at most 100 characters |
| Favorites.SaveErrors | app/Http/Controllers/WeatherController.php:111-114 | no errors exactly when both fields are valid; each error appears exactly when its rule is broken |
| Favorites.StoredCountry | app/Http/Controllers/WeatherController.php:117 | a created row's country is the given string, and null when the request had no country or a null one |
| Favorites.Matches | app/Http/Controllers/WeatherController.php:117 | the where-clause firstOrCreate builds from the validated data: the city always, the country only when the request carried the field, a null country matching a null column |
| Favorites.FirstWithKey | app/Http/Controllers/WeatherController.php:117 | finds the first row the where-clause matches (the city, and the country only when the request carried the field), or reports that none does |
| Favorites.Save | app/Http/Controllers/WeatherController.php:109-120 | invalid input is rejected with its errors and leaves the table alone; valid input returns the first matching row when there is one; the table changes exactly when the input is valid and no row matches, by appending one row with the next id |
| Favorites.CityOnlyRequestReusesAnyCountry | app/Http/Controllers/WeatherController.php:111-117 | a request without a country field reuses an existing row of that city whatever its country (a string or null), and adds nothing |
| Favorites.SaveKeepsWellFormed | app/Http/Controllers/WeatherController.php:117 | saving keeps every row valid, ids ascending and below the counter, and keys distinct |
| Favorites.SaveTwiceIsSaveOnce | app/Http/Controllers/WeatherController.php:116-117 | saving the same city and country twice gives the same result and table as saving once |
| Favorites.SavedKeyIsUnique | app/Http/Controllers/WeatherController.php:116-117 | after a valid save some row matches the request, and when the request names a country (a string or null) exactly one row holds that city and country |
| Favorites.RemoveById | app/Http/Controllers/WeatherController.php:125 | the rows left are exactly the old rows without that id, and an unknown id changes nothing |
| Favorites.RemoveKeepsOrder | app/Http/Controllers/WeatherController.php:125 | deleting keeps ids ascending and keys distinct |
| Favorites.RemoveDropsOne | app/Http/Controllers/WeatherController.php:125 | deleting an id that is present removes exactly one row |
| Favorites.Remove | app/Http/Controllers/WeatherController.php:123-127 | removing leaves the id counter alone and keeps exactly the rows with another id |
| Favorites.RemoveKeepsWellFormed | app/Http/Controllers/WeatherController.php:125 | deleting keeps the table well formed |
| Favorites.CityLeTotal | app/Http/Controllers/WeatherController.php:15 | any two city names are ordered one way or the other |
| Favorites.CityLeTransitive | app/Http/Controllers/WeatherController.php:15 | the city order is transitive |
| Favorites.InsertByCity | app/Http/Controllers/WeatherController.php:15 | inserting into a sorted list gives a sorted list with the same rows plus the new one |
| Favorites.SortByCity | app/Http/Controllers/WeatherController.php:15 | the listing is sorted by city and is a permutation of the rows |
| Favorites.SaveFlash | app/Http/Controllers/WeatherController.php:119 | the success flash comes exactly with a save that passed validation |
| Favorites.FavoriteStore.SaveFavorite | app/Http/Controllers/WeatherController.php:109-120 | the store's new rows and counter are what `Save` gives on the old ones, the flash is the success message or the errors, and the table stays well formed |
| Favorites.FavoriteStore.RemoveFavorite | app/Http/Controllers/WeatherController.php:123-127 | the store's new rows are what `Remove` gives, the flash is "Favorite removed." for any id, and the table stays well formed |
| Favorites.FavoriteStore.ListByCity | app/Http/Controllers/WeatherController.php:67 | returns every stored row, sorted by city |
| WeatherController.IsSet | app/Http/Controllers/WeatherController.php:24 | PHP truthiness of an environment key as index, apiCombined and the AQI lookup test it: unset, "" and "0" are false |
| WeatherController.Ok | app/Http/Controllers/WeatherController.php:31 | the client's ok(): the reply arrived with status exactly 200 |
| WeatherController.Failed | app/Http/Controllers/WeatherController.php:78 | the client's failed(): the reply arrived with a client or server error status, 400 to 599 |
| WeatherController.WeatherRejected | app/Http/Controllers/WeatherController.php:143 | the guard of search and apiCombined: the reply failed or its body's cod, 0 when missing, is not 200 |
| WeatherController.Cod | app/Http/Controllers/WeatherController.php:78 | the code is 200 exactly when the body is present and its cod is 200; a missing body or cod counts as 0 |
| WeatherController.AqiLookup | app/Http/Controllers/WeatherController.php:85-95 | the AQI request is made exactly when the key is set and the weather has coordinates, and it is the one request carrying the weather's latitude, longitude and the AQI key; a connection failure crashes the request; the AQI is kept exactly when the reply is 200 with a body |
| WeatherController.RenderAfter | app/Http/Controllers/WeatherController.php:82-105 | after the weather call come the AQI calls; the result is a render or a server error, the server error exactly when the AQI lookup crashes; a render shows the accepted weather, the looked-up AQI and the favorites sorted by city |
| WeatherController.Index | app/Http/Controllers/WeatherController.php:13-58 | with no key nothing is fetched and the page renders empty; otherwise the query city (default Manila) is fetched first, followed by exactly the AQI lookup's request when the reply is 200 and by nothing otherwise; weather is shown exactly when the reply is 200 with a body, whatever its cod; the AQI is shown exactly when its call was made and answered 200 with a body, and is that body; server error exactly when a made call cannot connect; favorites sorted by city |
| WeatherController.Search | app/Http/Controllers/WeatherController.php:61-106 | an invalid (blank or over-long) city is rejected before any call; the weather call is made even without a key, followed by exactly the AQI lookup's request when the reply is accepted and by nothing otherwise; "City not found." exactly when the reply fails or its cod is not 200; rendered weather always has cod 200; the AQI is shown exactly when its call was made and answered 200 with a body, and is that body |
| WeatherController.ApiCombined | app/Http/Controllers/WeatherController.php:130-166 | with the key set the weather call comes first, followed by exactly the AQI lookup's request when the reply is accepted and by nothing otherwise; an error answer exactly when the key is unset or the reply fails or its cod is not 200: 500 "Missing OPENWEATHER_API_KEY" for the first, 404 "City not found" for the second; data only with cod 200, its AQI part present exactly when the AQI call was made and answered 200 with a body |
| WeatherController.SearchAgreesWithApiCombined | app/Http/Controllers/WeatherController.php:72-95 | with the key set and a valid city, search and the JSON endpoint make the same calls and reach the same verdict with the same bodies |
| WeatherController.AqiNeverAffectsWeather | app/Http/Controllers/WeatherController.php:85-95 | unless the AQI service cannot be reached, its reply never changes the weather outcome of search or index |
| WeatherController.IndexShowsWhatSearchRejects | app/Http/Controllers/WeatherController.php:31-32 | a 200 reply whose body has an error cod is shown by index and rejected by search |
| WeatherController.SearchShowsWhatIndexDrops | app/Http/Controllers/WeatherController.php:78 | a reply with a status that is neither 200 nor an error, and whose cod is 200, is rendered by search but dropped by index |
| WeatherController.UnreachableAqiIsServerError | app/Http/Controllers/WeatherController.php:86-94 | an unreachable AQI service turns an accepted weather lookup into a server error in all three handlers |
| WeatherController.ApiCombinedErrorStatuses | app/Http/Controllers/WeatherController.php:133-145 | a 404 reply gives the 404 error, and a missing key gives the 500 error |
| WeatherPage.PageAqiStatus | resources/js/pages/weather.tsx:76-120 | the page's classifier labels every value with the label of its band, the final else covering everything above 300 |
| WeatherPage.PageAgreesWithProvider | resources/js/pages/weather.tsx:76-120 | the page and the provider agree on label, text colour and background colour for every value, and on the description exactly up to 50 |
| WeatherPage.PageAgreesWithHelper | resources/js/pages/weather.tsx:112-118 | the page and the singleton agree on every label, and on the colour exactly up to 300 |
| WeatherPage.PageHazardousIsProviderVeryUnhealthy | resources/js/pages/weather.tsx:117 | the page's Hazardous description is the provider's Very Unhealthy one |
| WeatherPage.AddFavoriteRequest | resources/js/pages/weather.tsx:162-169 | no request without weather; otherwise a favorite post with the city name and the country, "" when the country is missing |
| WeatherPage.AddFavoriteIsIdempotent | resources/js/pages/weather.tsx:165-168 | the posted favorite is saved exactly when the name is not blank and has at most 100 characters and the country is blank or at most 5 characters, and posting it twice stores it once |
| WeatherPage.SearchErrorText | resources/js/pages/weather.tsx:140 | the shown error is never empty: the city message when it is non-empty, otherwise "An error occurred" |
| WeatherPage.PageState.HandleSearch | resources/js/pages/weather.tsx:130-135 | starts loading, clears the error, posts the form |
| WeatherPage.PageState.OnSearchSuccess | resources/js/pages/weather.tsx:136-138 | stops loading and keeps the error |
| WeatherPage.PageState.OnSearchError | resources/js/pages/weather.tsx:139-142 | stops loading and shows the city message or the fallback |
| WeatherPage.PageState.HandleFavoriteClick | resources/js/pages/weather.tsx:146-151 | starts loading, clears the error, visits the city |
| WeatherPage.PageState.OnFavoriteSuccess | resources/js/pages/weather.tsx:152-154 | stops loading and keeps the error |
| WeatherPage.PageState.OnFavoriteError | resources/js/pages/weather.tsx:155-158 | stops loading and shows "City not found" |

Every `PageState` method keeps `Valid()`: the loading state never shows together with an error, and a shown error is never empty.

## Left out

- HTTP calls and `env()` lookups are parameters: each service reply and each key is an input. The query string of a call is recorded, except the constant URLs.
- A non-200 AQI reply is a soft failure that leaves the AQI empty, but an AQI service that cannot be reached throws from the HTTP client and ends the request in a server error (`WeatherController.UnreachableAqiIsServerError`).
- WeatherController.IsSet: only PHP string truthiness is modelled (null, "" and "0" are unset). Laravel's `env()` conversions of "true", "false", "null" and "empty" are not modelled.
- WeatherController.Cod: a numeric string `cod` is given as its number, and a non-numeric one as absent. PHP's loose `!=` gives the same verdict for both, so the distinction is dropped.
- WeatherController.Index: the query value is used as given. Laravel's trimming and empty-string-to-null middleware are not modelled. Neither is whether the query parameter can be present but empty.
- Favorites.SaveErrors: the same middleware is not modelled. A blank string is not trimmed or turned into null, so an empty country passes validation and is stored and matched as `""`, a key different from null. The validation rules themselves do treat a blank string as empty, as Laravel's validator does.
- WeatherController.Search: a request without a `city` field is given as the blank city `""`; both fail `required` the same way.
- Favorites.Matches: strings are compared exactly. A case- or trailing-space-insensitive database collation, under which "paris" would match "Paris", is not modelled.
- Favorites.SortByCity: the order is lexicographic by code point. The database collation and the order of rows with equal cities are not modelled.
- The database layer is not modelled: timestamps, the migration, transactions, and concurrent `firstOrCreate` races. The table is a sequence of rows with an auto-increment counter.
- Inertia rendering, session flash plumbing and `back()` are not modelled. A response names its view data and flash message only.
- Laravel's validation message texts are not modelled. Validation errors are an enumeration.
- Registration of the Blade directive and the view composer (AppServiceProvider.php:94-105) is not modelled. It only wires the helpers into views.
- ServiceProvider.HelperWeatherIcon: the returned HTML strings are modelled as a glyph and a colour class, not as markup.
- WeatherIcon.Lower: `toLowerCase` is modelled on ASCII letters only. The one non-ASCII character that lower-cases to an ASCII letter (the Kelvin sign, to 'k') cannot form a switch case, since no case contains 'k'.
- WeatherIcon.GetWeatherIcon: icons are an enumeration of the lucide components, not the components themselves. The optional `className` merge is not modelled.
- AqiScale.AqiStatus keeps one colour shade per status and derives both the `text-` and the `bg-` class from it. Every copy writes the two classes with the same shade.
- The floating-point display maths is not modelled: temperature rounding, wind conversion and the AQI bar width. AQI values are integers.
- JSX markup, `handleRemoveFavorite` with its `confirm()` dialog, and the components error-boundary.tsx, weather-welcome.tsx and weather-skeleton.tsx are not modelled. They are presentation only.
- WeatherPage.PageState.HandleFavoriteClick: the visited URL is given as the city. `encodeURIComponent` is not modelled.
- routes/web.php and HelloController.php are not modelled. Route names and the greeting controller carry no logic of the core.
