/**
 * The favorites table behind saveFavorite, removeFavorite and the
 * `Favorite::orderBy('city')` listings of app/Http/Controllers/WeatherController.php.
 *
 * The table is a sequence of rows in insertion order with an auto-increment
 * counter. Pure functions state what each operation does to a `Table` value;
 * the class `FavoriteStore` holds the same state in fields and its methods are
 * proved to follow those functions.
 */
module Favorites {
  import opened Wrappers

  /** A row of the favorites table (its timestamps are not modelled). */
  datatype Favorite = Favorite(id: nat, city: string, country: Option<string>)

  /**
   * The `country` field of a save request: left out of the request, sent as
   * null, or sent as a string. The validated data holds only the fields the
   * request carried, so an absent country is not a null one.
   */
  datatype CountryField = Absent | Null | Given(text: string)

  /** The validation failures the request rules can report. */
  datatype FieldError = CityRequired | CityTooLong | CountryTooLong

  const MaxCityLength: nat := 100
  const MaxCountryLength: nat := 5

  const AddedMessage := "City added to favorites."
  const RemovedMessage := "Favorite removed."

  // ---------------------------------------------------------------------------
  // Validation
  // ---------------------------------------------------------------------------

  /** The characters PHP's `trim` strips: space, tab, newline, carriage return, NUL and vertical tab. */
  predicate TrimmedChar(c: char) {
    c == ' ' || c == '\t' || c == '\n' || c == '\r' || c == '\0' || c == '\U{000B}'
  }

  /**
   * A string the validator treats as empty: nothing is left once trimmed.
   * `required` fails on it, and the other rules of a field are skipped on it.
   */
  predicate Blank(s: string)
    ensures s == [] ==> Blank(s)
    ensures Blank(s) ==> forall i :: 0 <= i < |s| ==> s[i] <= ' '
  {
    forall i :: 0 <= i < |s| ==> TrimmedChar(s[i])
  }

  /** A city that passes 'required|string|max:100'. */
  predicate ValidCity(city: string)
    ensures ValidCity(city) ==> 0 < |city| <= MaxCityLength
  {
    !Blank(city) && |city| <= MaxCityLength
  }

  /** A country that passes 'nullable|string|max:5': absent, null and blank all pass. */
  predicate CountryFits(country: CountryField) {
    country.Given? ==> Blank(country.text) || |country.text| <= MaxCountryLength
  }

  predicate ValidInput(city: string, country: CountryField) {
    ValidCity(city) && CountryFits(country)
  }

  /**
   * The rule 'required|string|max:100' on a city, as saveFavorite and search
   * both apply it. A blank city fails `required`, which stops the field's
   * other rules; a longer city fails `max`.
   */
  function CityErrors(city: string): (errors: seq<FieldError>)
    ensures errors == [] <==> ValidCity(city)
    ensures CityRequired in errors <==> Blank(city)
    ensures CityTooLong in errors <==> !Blank(city) && |city| > MaxCityLength
    ensures |errors| <= 1
  {
    if Blank(city) then [CityRequired]
    else if |city| > MaxCityLength then [CityTooLong]
    else []
  }

  /** The rule 'nullable|string|max:5' on a country: only a non-blank string longer than 5 fails. */
  function CountryErrors(country: CountryField): (errors: seq<FieldError>)
    ensures errors == [] <==> CountryFits(country)
    ensures CountryTooLong in errors <==> country.Given? && !Blank(country.text) && |country.text| > MaxCountryLength
  {
    match country
    case Given(c) => if !Blank(c) && |c| > MaxCountryLength then [CountryTooLong] else []
    case _ => []
  }

  /** Every failure of saveFavorite's validation, city first. */
  function SaveErrors(city: string, country: CountryField): (errors: seq<FieldError>)
    ensures errors == [] <==> ValidInput(city, country)
    ensures CityRequired in errors <==> Blank(city)
    ensures CityTooLong in errors <==> !Blank(city) && |city| > MaxCityLength
    ensures CountryTooLong in errors <==> country.Given? && !Blank(country.text) && |country.text| > MaxCountryLength
  {
    CityErrors(city) + CountryErrors(country)
  }

  // ---------------------------------------------------------------------------
  // The table and firstOrCreate
  // ---------------------------------------------------------------------------

  /** The rows in insertion order and the next auto-increment id. */
  datatype Table = Table(records: seq<Favorite>, nextId: nat)

  const EmptyTable := Table([], 1)

  /** The country column of a row created from the request: absent and null both leave it null. */
  function StoredCountry(country: CountryField): (stored: Option<string>)
    ensures stored.Some? <==> country.Given?
    ensures country.Given? ==> stored == Some(country.text)
  {
    match country
    case Given(c) => Some(c)
    case _ => None
  }

  /** A row's country as the field that would search for it. */
  function AsField(country: Option<string>): (field: CountryField)
    ensures field != Absent && StoredCountry(field) == country
  {
    match country
    case None => Null
    case Some(c) => Given(c)
  }

  /**
   * The row matches the where-clause firstOrCreate builds from the validated
   * data: the city, and the country only when the request carried one (a null
   * country matches a null column).
   */
  predicate Matches(f: Favorite, city: string, country: CountryField)
    ensures Matches(f, city, country) ==> f.city == city
    ensures country.Given? ==> (Matches(f, city, country) <==> f.city == city && f.country == Some(country.text))
    ensures country.Null? ==> (Matches(f, city, country) <==> f.city == city && f.country.None?)
    ensures country.Absent? ==> (Matches(f, city, country) <==> f.city == city)
  {
    f.city == city && (country.Absent? || f.country == StoredCountry(country))
  }

  /** Two rows hold the same (city, country) pair. */
  predicate SameKey(a: Favorite, b: Favorite) {
    Matches(a, b.city, AsField(b.country))
  }

  ghost predicate IdsAscending(s: seq<Favorite>) {
    forall i, j :: 0 <= i < j < |s| ==> s[i].id < s[j].id
  }

  ghost predicate KeysDistinct(s: seq<Favorite>) {
    forall i, j :: 0 <= i < j < |s| ==> !SameKey(s[i], s[j])
  }

  /**
   * What the operations keep true of the table: every row passed validation,
   * ids grow with insertion and stay below the counter, and no two rows share
   * a (city, country) pair.
   */
  ghost predicate WellFormed(t: Table) {
    && 1 <= t.nextId
    && (forall i :: 0 <= i < |t.records| ==> 1 <= t.records[i].id < t.nextId)
    && (forall i :: 0 <= i < |t.records| ==> ValidInput(t.records[i].city, AsField(t.records[i].country)))
    && IdsAscending(t.records)
    && KeysDistinct(t.records)
  }

  /** Position of the first row the where-clause matches: firstOrCreate's query. */
  function FirstWithKey(records: seq<Favorite>, city: string, country: CountryField): (r: Option<nat>)
    ensures r.Some? ==> r.value < |records| && Matches(records[r.value], city, country)
    ensures r.Some? ==> forall j :: 0 <= j < r.value ==> !Matches(records[j], city, country)
    ensures r.None? <==> forall j :: 0 <= j < |records| ==> !Matches(records[j], city, country)
  {
    if records == [] then None
    else if Matches(records[0], city, country) then Some(0)
    else match FirstWithKey(records[1..], city, country)
      case None => None
      case Some(i) => Some(i + 1)
  }

  datatype SaveResult = Rejected(errors: seq<FieldError>) | Saved(favorite: Favorite)

  /**
   * saveFavorite on a table: validate, then `firstOrCreate` the validated
   * attributes. The result says what happened and the table after it.
   */
  function Save(t: Table, city: string, country: CountryField): (r: (SaveResult, Table))
    ensures r.0.Rejected? <==> !ValidInput(city, country)
    ensures r.0.Rejected? ==> r.0.errors == SaveErrors(city, country) && r.1 == t
    ensures r.0.Saved? ==> Matches(r.0.favorite, city, country) && r.0.favorite in r.1.records
    ensures ValidInput(city, country) && FirstWithKey(t.records, city, country).Some? ==>
              r == (Saved(t.records[FirstWithKey(t.records, city, country).value]), t)
    ensures r.1 != t <==> ValidInput(city, country) && forall f :: f in t.records ==> !Matches(f, city, country)
    ensures r.1 != t ==> r.0 == Saved(Favorite(t.nextId, city, StoredCountry(country)))
                         && r.1 == Table(t.records + [r.0.favorite], t.nextId + 1)
  {
    var errors := SaveErrors(city, country);
    if errors != [] then (Rejected(errors), t)
    else match FirstWithKey(t.records, city, country)
      case Some(i) => (Saved(t.records[i]), t)
      case None =>
        var f := Favorite(t.nextId, city, StoredCountry(country));
        (Saved(f), Table(t.records + [f], t.nextId + 1))
  }

  /**
   * A request without a country reuses any row of that city, whatever its
   * country, and adds nothing.
   */
  lemma CityOnlyRequestReusesAnyCountry(t: Table, city: string)
    requires ValidCity(city)
    requires exists f :: f in t.records && f.city == city
    ensures Save(t, city, Absent).1 == t
    ensures Save(t, city, Absent).0.Saved? && Save(t, city, Absent).0.favorite.city == city
    ensures Save(t, city, Absent).0.favorite in t.records
  {
    var f :| f in t.records && f.city == city;
    assert Matches(f, city, Absent);
  }

  /** A row that holds the stored key of a request is matched by that request. */
  lemma MatchesStoredKey(g: Favorite, city: string, country: CountryField)
    requires Matches(g, city, AsField(StoredCountry(country)))
    ensures Matches(g, city, country)
  {
  }

  /** The row a save creates lies above every id and shares no key with any row. */
  lemma CreatedRowIsNew(t: Table, city: string, country: CountryField)
    requires WellFormed(t)
    requires forall g :: g in t.records ==> !Matches(g, city, country)
    ensures forall g :: g in t.records ==> g.id < t.nextId && !SameKey(g, Favorite(t.nextId, city, StoredCountry(country)))
  {
    var f := Favorite(t.nextId, city, StoredCountry(country));
    forall g | g in t.records ensures g.id < t.nextId && !SameKey(g, f) {
      var m :| 0 <= m < |t.records| && t.records[m] == g;
      if SameKey(g, f) {
        MatchesStoredKey(g, city, country);
      }
    }
  }

  /** Appending a valid row above every id, with a key no row holds, keeps the table well formed. */
  lemma AppendKeepsWellFormed(t: Table, f: Favorite)
    requires WellFormed(t)
    requires f.id == t.nextId && ValidInput(f.city, AsField(f.country))
    requires forall g :: g in t.records ==> g.id < f.id && !SameKey(g, f)
    ensures WellFormed(Table(t.records + [f], t.nextId + 1))
  {
    AppendKeepsOrder(t.records, f);
    var s := t.records + [f];
    forall i | 0 <= i < |s| ensures 1 <= s[i].id < t.nextId + 1 && ValidInput(s[i].city, AsField(s[i].country)) {
      if i < |t.records| {
        assert s[i] == t.records[i];
      }
    }
  }

  /** Saving keeps the table well formed; a created row gets an id above every existing one. */
  lemma SaveKeepsWellFormed(t: Table, city: string, country: CountryField)
    requires WellFormed(t)
    ensures WellFormed(Save(t, city, country).1)
  {
    var (res, t') := Save(t, city, country);
    if t' != t {
      var f := Favorite(t.nextId, city, StoredCountry(country));
      assert ValidInput(f.city, AsField(f.country));
      CreatedRowIsNew(t, city, country);
      AppendKeepsWellFormed(t, f);
    }
  }

  /** Appending a row whose id is above every id and whose key is new keeps the order facts. */
  lemma AppendKeepsOrder(s: seq<Favorite>, f: Favorite)
    requires IdsAscending(s) && KeysDistinct(s)
    requires forall g :: g in s ==> g.id < f.id && !SameKey(g, f)
    ensures IdsAscending(s + [f]) && KeysDistinct(s + [f])
  {
    var s' := s + [f];
    forall i, j | 0 <= i < j < |s'| ensures s'[i].id < s'[j].id && !SameKey(s'[i], s'[j]) {
      assert s'[i] == s[i];
      if j == |s| {
        assert s[i] in s;
      } else {
        assert s'[j] == s[j];
      }
    }
  }

  /** A row appended behind rows the request does not match is the first it matches. */
  lemma FirstWithKeyAppended(records: seq<Favorite>, f: Favorite, city: string, country: CountryField)
    requires Matches(f, city, country)
    requires forall g :: g in records ==> !Matches(g, city, country)
    ensures FirstWithKey(records + [f], city, country) == Some(|records|)
  {
    var s := records + [f];
    forall j | 0 <= j < |records| ensures !Matches(s[j], city, country) {
      assert s[j] == records[j] && records[j] in records;
    }
    assert Matches(s[|records|], city, country);
  }

  /**
   * Saving the same request twice is saving it once: the second call finds
   * the row the first returned and changes nothing.
   */
  lemma SaveTwiceIsSaveOnce(t: Table, city: string, country: CountryField)
    ensures Save(Save(t, city, country).1, city, country) == Save(t, city, country)
  {
    var (res, t') := Save(t, city, country);
    if t' != t {
      FirstWithKeyAppended(t.records, res.favorite, city, country);
    }
  }

  /**
   * After a successful save some row matches the request, and when the
   * request names a country (a string or null) exactly one row holds that
   * (city, country) pair.
   */
  lemma SavedKeyIsUnique(t: Table, city: string, country: CountryField)
    requires WellFormed(t) && ValidInput(city, country)
    ensures var t' := Save(t, city, country).1;
            && (exists i :: 0 <= i < |t'.records| && Matches(t'.records[i], city, country))
            && (!country.Absent? ==> forall i, j :: 0 <= i < j < |t'.records| ==>
                 !(Matches(t'.records[i], city, country) && Matches(t'.records[j], city, country)))
  {
    SaveKeepsWellFormed(t, city, country);
    var (res, t') := Save(t, city, country);
    var k :| 0 <= k < |t'.records| && t'.records[k] == res.favorite;
    assert Matches(t'.records[k], city, country);
    if !country.Absent? {
      forall i, j | 0 <= i < j < |t'.records|
        ensures !(Matches(t'.records[i], city, country) && Matches(t'.records[j], city, country))
      {
        assert !SameKey(t'.records[i], t'.records[j]);
      }
    }
  }

  // ---------------------------------------------------------------------------
  // Delete by id
  // ---------------------------------------------------------------------------

  /**
   * `Favorite::where('id', $id)->delete()`: drop every row with that id and
   * keep the others in order. An unknown id deletes nothing.
   */
  function RemoveById(records: seq<Favorite>, id: int): (r: seq<Favorite>)
    ensures forall f :: f in r <==> f in records && f.id != id
    ensures |r| <= |records|
    ensures (forall f :: f in records ==> f.id != id) ==> r == records
  {
    if records == [] then []
    else if records[0].id == id then RemoveById(records[1..], id)
    else [records[0]] + RemoveById(records[1..], id)
  }

  /** In an ordered table the first row precedes every later one in id and differs from it in key. */
  lemma HeadPrecedesTail(s: seq<Favorite>)
    requires s != [] && IdsAscending(s) && KeysDistinct(s)
    ensures IdsAscending(s[1..]) && KeysDistinct(s[1..])
    ensures forall g :: g in s[1..] ==> s[0].id < g.id && !SameKey(s[0], g)
  {
    forall g | g in s[1..] ensures s[0].id < g.id && !SameKey(s[0], g) {
      var m :| 0 <= m < |s[1..]| && s[1..][m] == g;
      assert s[m + 1] == g;
    }
    forall i, j | 0 <= i < j < |s[1..]| ensures s[1..][i].id < s[1..][j].id && !SameKey(s[1..][i], s[1..][j]) {
      assert s[1..][i] == s[i + 1] && s[1..][j] == s[j + 1];
    }
  }

  /** A row that precedes every row of an ordered list can go in front of it. */
  lemma PrependKeepsOrder(f: Favorite, s: seq<Favorite>)
    requires IdsAscending(s) && KeysDistinct(s)
    requires forall g :: g in s ==> f.id < g.id && !SameKey(f, g)
    ensures IdsAscending([f] + s) && KeysDistinct([f] + s)
  {
    var s' := [f] + s;
    forall i, j | 0 <= i < j < |s'| ensures s'[i].id < s'[j].id && !SameKey(s'[i], s'[j]) {
      assert s'[j] == s[j - 1];
      if i == 0 {
        assert s[j - 1] in s;
      } else {
        assert s'[i] == s[i - 1];
      }
    }
  }

  /** Deleting keeps the surviving rows in their order, so their ids still ascend and their keys stay distinct. */
  lemma {:induction false} RemoveKeepsOrder(records: seq<Favorite>, id: int)
    requires IdsAscending(records) && KeysDistinct(records)
    ensures IdsAscending(RemoveById(records, id)) && KeysDistinct(RemoveById(records, id))
  {
    if records != [] {
      var tail := records[1..];
      HeadPrecedesTail(records);
      RemoveKeepsOrder(tail, id);
      if records[0].id != id {
        var rest := RemoveById(tail, id);
        assert forall g :: g in rest ==> g in tail;
        PrependKeepsOrder(records[0], rest);
      }
    }
  }

  /** With ids unique, deleting a present id removes exactly one row. */
  lemma {:induction false} RemoveDropsOne(records: seq<Favorite>, id: int)
    requires IdsAscending(records)
    requires exists f :: f in records && f.id == id
    ensures |RemoveById(records, id)| == |records| - 1
  {
    if records[0].id == id {
      forall f | f in records[1..] ensures f.id != id {
        var m :| 0 <= m < |records[1..]| && records[1..][m] == f;
        assert records[m + 1] == f;
      }
    } else {
      var f :| f in records && f.id == id;
      assert f in records[1..];
      assert IdsAscending(records[1..]) by {
        forall i, j | 0 <= i < j < |records[1..]| ensures records[1..][i].id < records[1..][j].id {
          assert records[1..][i] == records[i + 1] && records[1..][j] == records[j + 1];
        }
      }
      RemoveDropsOne(records[1..], id);
    }
  }

  /** removeFavorite on a table: the counter is untouched, so a deleted id is never handed out again. */
  function Remove(t: Table, id: int): (t': Table)
    ensures t'.nextId == t.nextId
    ensures forall f :: f in t'.records <==> f in t.records && f.id != id
    ensures (forall f :: f in t.records ==> f.id != id) ==> t' == t
  {
    Table(RemoveById(t.records, id), t.nextId)
  }

  /** Deleting keeps the table well formed. */
  lemma RemoveKeepsWellFormed(t: Table, id: int)
    requires WellFormed(t)
    ensures WellFormed(Remove(t, id))
  {
    RemoveKeepsOrder(t.records, id);
    var r := Remove(t, id).records;
    forall i | 0 <= i < |r| ensures 1 <= r[i].id < t.nextId && ValidInput(r[i].city, AsField(r[i].country)) {
      assert r[i] in r;
      var m :| 0 <= m < |t.records| && t.records[m] == r[i];
    }
  }

  // ---------------------------------------------------------------------------
  // orderBy('city')
  // ---------------------------------------------------------------------------

  /** Lexicographic order on code points (the ordering of a binary collation). */
  predicate CityLe(a: string, b: string) {
    a == [] || (b != [] && (a[0] < b[0] || (a[0] == b[0] && CityLe(a[1..], b[1..]))))
  }

  lemma {:induction false} CityLeTotal(a: string, b: string)
    ensures CityLe(a, b) || CityLe(b, a)
  {
    if a != [] && b != [] && a[0] == b[0] {
      CityLeTotal(a[1..], b[1..]);
    }
  }

  lemma {:induction false} CityLeTransitive(a: string, b: string, c: string)
    requires CityLe(a, b) && CityLe(b, c)
    ensures CityLe(a, c)
  {
    if a != [] && b != [] && c != [] && a[0] == b[0] == c[0] {
      CityLeTransitive(a[1..], b[1..], c[1..]);
    }
  }

  ghost predicate SortedByCity(s: seq<Favorite>) {
    forall i, j :: 0 <= i < j < |s| ==> CityLe(s[i].city, s[j].city)
  }

  /** A row whose city comes no later than every row of a sorted list can go in front of it. */
  lemma PrependSorted(f: Favorite, s: seq<Favorite>)
    requires SortedByCity(s)
    requires forall g :: g in s ==> CityLe(f.city, g.city)
    ensures SortedByCity([f] + s)
  {
    var s' := [f] + s;
    forall i, j | 0 <= i < j < |s'| ensures CityLe(s'[i].city, s'[j].city) {
      assert s'[j] == s[j - 1];
      if i == 0 {
        assert s[j - 1] in s;
      } else {
        assert s'[i] == s[i - 1];
      }
    }
  }

  /** A city no later than the head of a sorted list is no later than any of its rows. */
  lemma BeforeHeadBeforeAll(f: Favorite, s: seq<Favorite>)
    requires s != [] && SortedByCity(s) && CityLe(f.city, s[0].city)
    ensures forall g :: g in s ==> CityLe(f.city, g.city)
  {
    forall g | g in s ensures CityLe(f.city, g.city) {
      var j :| 0 <= j < |s| && s[j] == g;
      if j > 0 {
        CityLeTransitive(f.city, s[0].city, g.city);
      }
    }
  }

  /** The head of a sorted list comes no later than its other rows, nor than a row that does not precede it. */
  lemma HeadBeforeInserted(f: Favorite, s: seq<Favorite>, rest: seq<Favorite>)
    requires s != [] && SortedByCity(s) && !CityLe(f.city, s[0].city)
    requires forall g :: g in rest ==> g == f || g in s[1..]
    ensures forall g :: g in rest ==> CityLe(s[0].city, g.city)
  {
    forall g | g in rest ensures CityLe(s[0].city, g.city) {
      if g == f {
        CityLeTotal(f.city, s[0].city);
      } else {
        var j :| 0 <= j < |s[1..]| && s[1..][j] == g;
        assert s[j + 1] == g;
      }
    }
  }

  /** The rows after the first of a sorted list are sorted. */
  lemma TailSorted(s: seq<Favorite>)
    requires s != [] && SortedByCity(s)
    ensures SortedByCity(s[1..])
  {
    var tail := s[1..];
    forall i, j | 0 <= i < j < |tail| ensures CityLe(tail[i].city, tail[j].city) {
      assert tail[i] == s[i + 1] && tail[j] == s[j + 1];
    }
  }

  /** A row whose city is no later than the head goes in front. */
  lemma InsertInFront(f: Favorite, s: seq<Favorite>)
    requires s != [] && SortedByCity(s) && CityLe(f.city, s[0].city)
    ensures SortedByCity([f] + s)
    ensures multiset([f] + s) == multiset(s) + multiset{f}
  {
    BeforeHeadBeforeAll(f, s);
    PrependSorted(f, s);
  }

  /** A row whose city is later than the head goes into the rest, behind the head. */
  lemma InsertBehindHead(f: Favorite, s: seq<Favorite>, rest: seq<Favorite>)
    requires s != [] && SortedByCity(s) && !CityLe(f.city, s[0].city)
    requires SortedByCity(rest) && multiset(rest) == multiset(s[1..]) + multiset{f}
    ensures SortedByCity([s[0]] + rest)
    ensures multiset([s[0]] + rest) == multiset(s) + multiset{f}
  {
    assert forall g :: g in rest ==> g == f || g in s[1..] by {
      forall g | g in rest ensures g == f || g in s[1..] {
        assert g in multiset(rest);
      }
    }
    HeadBeforeInserted(f, s, rest);
    PrependSorted(s[0], rest);
    assert s == [s[0]] + s[1..];
  }

  /** Insert a row into a list sorted by city, before the first row it does not follow. */
  function InsertByCity(f: Favorite, s: seq<Favorite>): (r: seq<Favorite>)
    requires SortedByCity(s)
    ensures SortedByCity(r)
    ensures multiset(r) == multiset(s) + multiset{f}
  {
    if s == [] then [f]
    else if CityLe(f.city, s[0].city) then
      InsertInFront(f, s);
      [f] + s
    else
      TailSorted(s);
      var rest := InsertByCity(f, s[1..]);
      InsertBehindHead(f, s, rest);
      [s[0]] + rest
  }

  /** The rows sorted by city: what `Favorite::orderBy('city')->get()` returns. */
  function SortByCity(s: seq<Favorite>): (r: seq<Favorite>)
    ensures SortedByCity(r)
    ensures multiset(r) == multiset(s)
  {
    if s == [] then []
    else
      assert s == [s[0]] + s[1..];
      InsertByCity(s[0], SortByCity(s[1..]))
  }

  // ---------------------------------------------------------------------------
  // The store, updated in place
  // ---------------------------------------------------------------------------

  /** The session flash a favorites request redirects back with. */
  datatype Flash = Success(message: string) | ValidationFailed(errors: seq<FieldError>)

  function SaveFlash(r: SaveResult): (flash: Flash)
    ensures flash.Success? <==> r.Saved?
  {
    match r
    case Rejected(errors) => ValidationFailed(errors)
    case Saved(_) => Success(AddedMessage)
  }

  class FavoriteStore {
    var records: seq<Favorite>
    var nextId: nat

    function Contents(): Table
      reads this
    {
      Table(records, nextId)
    }

    ghost predicate Valid()
      reads this
    {
      WellFormed(Contents())
    }

    /** A fresh, empty table whose first id will be 1. */
    constructor ()
      ensures Valid() && Contents() == EmptyTable
    {
      records := [];
      nextId := 1;
    }

    /** saveFavorite: validate, find a matching row or append a new one, flash the outcome. */
    method SaveFavorite(city: string, country: CountryField) returns (flash: Flash)
      requires Valid()
      modifies this
      ensures Valid()
      ensures Contents() == Save(old(Contents()), city, country).1
      ensures flash == SaveFlash(Save(old(Contents()), city, country).0)
    {
      SaveKeepsWellFormed(Contents(), city, country);
      var errors := SaveErrors(city, country);
      if errors != [] {
        flash := ValidationFailed(errors);
        return;
      }
      var found := FirstWithKey(records, city, country);
      if found.None? {
        records := records + [Favorite(nextId, city, StoredCountry(country))];
        nextId := nextId + 1;
      }
      flash := Success(AddedMessage);
    }

    /** removeFavorite: delete the rows with that id, if any, and flash success either way. */
    method RemoveFavorite(id: int) returns (flash: Flash)
      requires Valid()
      modifies this
      ensures Valid()
      ensures Contents() == Remove(old(Contents()), id)
      ensures flash == Success(RemovedMessage)
    {
      RemoveKeepsWellFormed(Contents(), id);
      records := RemoveById(records, id);
      flash := Success(RemovedMessage);
    }

    /** The listing index and search render: every row, sorted by city. */
    method ListByCity() returns (favorites: seq<Favorite>)
      ensures SortedByCity(favorites)
      ensures multiset(favorites) == multiset(records)
    {
      favorites := SortByCity(records);
    }
  }
}
