/** The field normalisers: each decoded record becomes exactly one typed
    record, in input order. Coordinates are strict for cities and countries
    (one unparsable value fails the whole transform) and lenient for states
    (an unparsable value becomes 0); a state `type` must be null or a string. */
module Normalize {
  import opened Wrappers
  import opened Records
  import Timezones

  /** Normalises `xs[from..]` one record at a time, in order, stopping at the
      first record `f` rejects; `f` sees each record with its index. */
  function NormalizeAll<A, B>(xs: seq<A>, from: nat, f: (A, nat) -> Result<B, Error>): (r: Result<seq<B>, Error>)
    requires from <= |xs|
    ensures r.Success? <==> forall k | from <= k < |xs| :: f(xs[k], k).Success?
    ensures r.Success? ==> |r.value| == |xs| - from
    ensures r.Success? ==> forall k | from <= k < |xs| :: f(xs[k], k) == Success(r.value[k - from])
    ensures r.Failure? ==> exists j | from <= j < |xs| ::
      && f(xs[j], j) == Failure(r.error)
      && forall k | from <= k < j :: f(xs[k], k).Success?
    decreases |xs| - from
  {
    if from == |xs| then Success([])
    else
      var b :- f(xs[from], from);
      var rest :- NormalizeAll(xs, from + 1, f);
      Success([b] + rest)
  }

  /** The coordinate reported when a strict parse fails: latitude is parsed first. */
  function FailingAxis(parse: Parser, latitude: string): Axis
  {
    if parse(latitude).None? then Latitude else Longitude
  }

  /** A strict coordinate: a parse failure is an error for the whole run. */
  function StrictCoordinate(parse: Parser, s: string, table: Table, index: nat, axis: Axis): (r: Result<Coord, Error>)
    ensures r.Success? <==> parse(s).Some?
    ensures r.Success? ==> Some(r.value) == parse(s)
    ensures r.Failure? ==> r.error == UnparsableCoordinate(table, index, axis)
  {
    match parse(s)
    case Some(c) => Success(c)
    case None => Failure(UnparsableCoordinate(table, index, axis))
  }

  // ----- cities -----

  predicate CityParses(c: RawCity, parse: Parser)
  {
    parse(c.latitude).Some? && parse(c.longitude).Some?
  }

  /** What a stored city keeps of its source record. */
  predicate CityFrom(c: RawCity, city: City, parse: Parser, stamp: Stamp)
  {
    && city.id == ToUint32(c.id)
    && city.name == c.name
    && city.stateId == ToUint32(c.stateId)
    && city.stateCode == c.stateCode
    && city.countryId == ToUint32(c.countryId)
    && city.countryCode == c.countryCode
    && Some(city.latitude) == parse(c.latitude)
    && Some(city.longitude) == parse(c.longitude)
    && city.createdAt == stamp.created
    && city.updatedAt == stamp.updated
    && city.wikiDataId == c.wikiDataId
  }

  function NormalizeCity(c: RawCity, index: nat, parse: Parser, stamp: Stamp): (r: Result<City, Error>)
    ensures r.Success? <==> CityParses(c, parse)
    ensures r.Success? ==> CityFrom(c, r.value, parse, stamp)
    ensures r.Failure? ==> r.error == UnparsableCoordinate(Cities, index, FailingAxis(parse, c.latitude))
  {
    var lat :- StrictCoordinate(parse, c.latitude, Cities, index, Latitude);
    var lon :- StrictCoordinate(parse, c.longitude, Cities, index, Longitude);
    Success(City(
      ToUint32(c.id), c.name, ToUint32(c.stateId), c.stateCode, ToUint32(c.countryId), c.countryCode,
      lat, lon, stamp.created, stamp.updated, c.wikiDataId))
  }

  /** The cities transform; `clock(k)` is the stamp read for the k-th city. */
  function TransformCities(raw: seq<RawCity>, parse: Parser, clock: nat -> Stamp): (r: Result<seq<City>, Error>)
    ensures r.Success? <==> forall k | 0 <= k < |raw| :: CityParses(raw[k], parse)
    ensures r.Success? ==> |r.value| == |raw|
    ensures r.Success? ==> forall k | 0 <= k < |raw| :: CityFrom(raw[k], r.value[k], parse, clock(k))
    ensures r.Failure? ==> exists j | 0 <= j < |raw| ::
      && !CityParses(raw[j], parse)
      && (forall k | 0 <= k < j :: CityParses(raw[k], parse))
      && r.error == UnparsableCoordinate(Cities, j, FailingAxis(parse, raw[j].latitude))
  {
    var f := (c: RawCity, i: nat) => NormalizeCity(c, i, parse, clock(i));
    assert forall k | 0 <= k < |raw| :: f(raw[k], k) == NormalizeCity(raw[k], k, parse, clock(k));
    NormalizeAll(raw, 0, f)
  }

  // ----- countries -----

  predicate CountryConvertible(c: RawCountry, marshal: Marshaller, parse: Parser)
  {
    marshal(c.translations).Some? && parse(c.latitude).Some? && parse(c.longitude).Some?
  }

  /** The error a country that is not convertible stops the run with: the
      translations are encoded before the coordinates are parsed. */
  function CountryRejection(c: RawCountry, index: nat, marshal: Marshaller, parse: Parser): Error
  {
    if marshal(c.translations).None? then UnencodableTranslations(index)
    else UnparsableCoordinate(Countries, index, FailingAxis(parse, c.latitude))
  }

  /** What a stored country keeps of its source record; `ids` are the keys
      given to its embedded timezones. */
  predicate CountryFrom(c: RawCountry, country: Country, ids: seq<uint32>, marshal: Marshaller, parse: Parser, stamp: Stamp)
  {
    && country.id == ToUint32(c.id)
    && country.name == c.name
    && country.iso3 == c.iso3
    && country.numericCode == c.numericCode
    && country.iso2 == c.iso2
    && country.phoneCode == c.phoneCode
    && country.capital == c.capital
    && country.currency == c.currency
    && country.currencyName == c.currencyName
    && country.currencySymbol == c.currencySymbol
    && country.tld == c.tld
    && country.native == c.native
    && country.region == c.region
    && country.subregion == c.subregion
    && country.timezoneIds == ids
    && Some(country.translations) == marshal(c.translations)
    && Some(country.latitude) == parse(c.latitude)
    && Some(country.longitude) == parse(c.longitude)
    && country.emoji == c.emoji
    && country.emojiU == c.emojiU
    && country.createdAt == stamp.created
    && country.updatedAt == stamp.updated
  }

  function NormalizeCountry(c: RawCountry, index: nat, ids: seq<uint32>, marshal: Marshaller, parse: Parser, stamp: Stamp)
    : (r: Result<Country, Error>)
    ensures r.Success? <==> CountryConvertible(c, marshal, parse)
    ensures r.Success? ==> CountryFrom(c, r.value, ids, marshal, parse, stamp)
    ensures r.Failure? ==> r.error == CountryRejection(c, index, marshal, parse)
  {
    var translations :- match marshal(c.translations) {
      case Some(text) => Success(text)
      case None => Failure(UnencodableTranslations(index))
    };
    var lat :- StrictCoordinate(parse, c.latitude, Countries, index, Latitude);
    var lon :- StrictCoordinate(parse, c.longitude, Countries, index, Longitude);
    Success(Country(
      ToUint32(c.id), c.name, c.iso3, c.numericCode, c.iso2, c.phoneCode, c.capital, c.currency,
      c.currencyName, c.currencySymbol, c.tld, c.native, c.region, c.subregion, ids, translations,
      lat, lon, c.emoji, c.emojiU, stamp.created, stamp.updated))
  }

  /** The countries' embedded timezone lists, in country order. */
  function ZoneLists(raw: seq<RawCountry>): seq<seq<Timezone>>
  {
    seq(|raw|, k requires 0 <= k < |raw| => raw[k].timezones)
  }

  /** The countries loop from `raw[from]` on, with `emitted` the timezones
      extracted from the countries before it. What its output holds is stated
      by `CountriesFromRecords` and `CountriesFromFailure`. */
  function CountriesFrom(raw: seq<RawCountry>, from: nat, emitted: seq<Timezone>,
                         marshal: Marshaller, parse: Parser, clock: nat -> Stamp)
    : (r: Result<(seq<Country>, seq<Timezone>), Error>)
    requires from <= |raw|
    ensures r.Success? <==> forall k | from <= k < |raw| :: CountryConvertible(raw[k], marshal, parse)
    ensures r.Success? ==> |r.value.0| == |raw| - from
    decreases |raw| - from
  {
    if from == |raw| then Success(([], emitted))
    else
      var own := Timezones.AppendZones(emitted, raw[from].timezones);
      var country :- NormalizeCountry(raw[from], from, own.1, marshal, parse, clock(from));
      var rest :- CountriesFrom(raw, from + 1, own.0, marshal, parse, clock);
      Success(([country] + rest.0, rest.1))
  }

  lemma ConsAt<T>(x: T, s: seq<T>, k: nat)
    requires 0 < k <= |s|
    ensures ([x] + s)[k] == s[k - 1]
  {
  }

  /** The extractor over the countries from `raw[from]` on takes the first
      country's timezones, then runs over the rest. */
  lemma ExtractFromStep(raw: seq<RawCountry>, from: nat, emitted: seq<Timezone>)
    requires from < |raw|
    ensures var own := Timezones.AppendZones(emitted, raw[from].timezones);
      var tail := Timezones.ExtractFrom(own.0, ZoneLists(raw[from + 1..]));
      Timezones.ExtractFrom(emitted, ZoneLists(raw[from..])) == (tail.0, [own.1] + tail.1)
  {
    assert ZoneLists(raw[from..])[0] == raw[from].timezones;
    assert ZoneLists(raw[from..])[1..] == ZoneLists(raw[from + 1..]);
  }

  /** A successful countries loop emits the extractor's timezone list, and
      the record it holds for country j is that country normalised with the
      extractor's key list for it. */
  lemma {:induction false} CountriesFromRecords(raw: seq<RawCountry>, from: nat, emitted: seq<Timezone>,
                                                marshal: Marshaller, parse: Parser, clock: nat -> Stamp)
    requires from <= |raw|
    ensures var r := CountriesFrom(raw, from, emitted, marshal, parse, clock);
      var extracted := Timezones.ExtractFrom(emitted, ZoneLists(raw[from..]));
      r.Success? ==>
        && r.value.1 == extracted.0
        && forall j | from <= j < |raw| ::
             NormalizeCountry(raw[j], j, extracted.1[j - from], marshal, parse, clock(j)) == Success(r.value.0[j - from])
    decreases |raw| - from
  {
    var r := CountriesFrom(raw, from, emitted, marshal, parse, clock);
    var extracted := Timezones.ExtractFrom(emitted, ZoneLists(raw[from..]));
    if r.Success? && from == |raw| {
      assert ZoneLists(raw[from..]) == [];
    } else if r.Success? {
      var own := Timezones.AppendZones(emitted, raw[from].timezones);
      var country := NormalizeCountry(raw[from], from, own.1, marshal, parse, clock(from));
      var rest := CountriesFrom(raw, from + 1, own.0, marshal, parse, clock);
      assert country.Success? && rest.Success?;
      assert r.value == ([country.value] + rest.value.0, rest.value.1);
      CountriesFromRecords(raw, from + 1, own.0, marshal, parse, clock);
      var tail := Timezones.ExtractFrom(own.0, ZoneLists(raw[from + 1..]));
      ExtractFromStep(raw, from, emitted);
      var records, keys := r.value.0, extracted.1;
      assert records == [country.value] + rest.value.0;
      assert keys == [own.1] + tail.1;
      forall j | from <= j < |raw|
        ensures NormalizeCountry(raw[j], j, keys[j - from], marshal, parse, clock(j)) == Success(records[j - from])
      {
        if j == from {
          assert records[0] == country.value && keys[0] == own.1;
        } else {
          var i := j - (from + 1);
          ConsAt(country.value, rest.value.0, j - from);
          ConsAt(own.1, tail.1, j - from);
          assert NormalizeCountry(raw[j], j, tail.1[i], marshal, parse, clock(j)) == Success(rest.value.0[i]);
        }
      }
    }
  }

  /** A failed countries loop reports the first remaining country that does
      not convert. */
  lemma {:induction false} CountriesFromFailure(raw: seq<RawCountry>, from: nat, emitted: seq<Timezone>,
                                                marshal: Marshaller, parse: Parser, clock: nat -> Stamp)
    requires from <= |raw|
    ensures var r := CountriesFrom(raw, from, emitted, marshal, parse, clock);
      r.Failure? ==> exists j | from <= j < |raw| ::
        && !CountryConvertible(raw[j], marshal, parse)
        && (forall k | from <= k < j :: CountryConvertible(raw[k], marshal, parse))
        && r.error == CountryRejection(raw[j], j, marshal, parse)
    decreases |raw| - from
  {
    var r := CountriesFrom(raw, from, emitted, marshal, parse, clock);
    if r.Failure? {
      var own := Timezones.AppendZones(emitted, raw[from].timezones);
      var country := NormalizeCountry(raw[from], from, own.1, marshal, parse, clock(from));
      if country.Failure? {
        assert r.error == CountryRejection(raw[from], from, marshal, parse);
      } else {
        CountriesFromFailure(raw, from + 1, own.0, marshal, parse, clock);
        var rest := CountriesFrom(raw, from + 1, own.0, marshal, parse, clock);
        assert r.error == rest.error;
        var j :| from + 1 <= j < |raw|
          && !CountryConvertible(raw[j], marshal, parse)
          && (forall k | from + 1 <= k < j :: CountryConvertible(raw[k], marshal, parse))
          && rest.error == CountryRejection(raw[j], j, marshal, parse);
      }
    }
  }

  /** The countries transform, which also extracts the global timezone list;
      `clock(k)` is the stamp read for the k-th country. */
  function TransformCountries(raw: seq<RawCountry>, marshal: Marshaller, parse: Parser, clock: nat -> Stamp)
    : (r: Result<(seq<Country>, seq<Timezone>), Error>)
    ensures r.Success? <==> forall k | 0 <= k < |raw| :: CountryConvertible(raw[k], marshal, parse)
    ensures r.Success? ==>
      && |r.value.0| == |raw|
      && r.value.1 == Timezones.Extract(ZoneLists(raw)).0
      && forall k | 0 <= k < |raw| ::
           CountryFrom(raw[k], r.value.0[k], Timezones.Extract(ZoneLists(raw)).1[k], marshal, parse, clock(k))
    ensures r.Failure? ==> exists j | 0 <= j < |raw| ::
      && !CountryConvertible(raw[j], marshal, parse)
      && (forall k | 0 <= k < j :: CountryConvertible(raw[k], marshal, parse))
      && r.error == CountryRejection(raw[j], j, marshal, parse)
  {
    assert raw[0..] == raw;
    CountriesFromRecords(raw, 0, [], marshal, parse, clock);
    CountriesFromFailure(raw, 0, [], marshal, parse, clock);
    CountriesFrom(raw, 0, [], marshal, parse, clock)
  }

  /** After a successful countries transform, the timezone table holds one row
      per embedded timezone keyed 1..N in country then list order, and the
      j-th key of country i names that country's j-th timezone. */
  lemma CountryTimezoneKeys(raw: seq<RawCountry>, marshal: Marshaller, parse: Parser, clock: nat -> Stamp, i: nat, j: nat)
    requires TransformCountries(raw, marshal, parse, clock).Success?
    requires i < |raw| && j < |raw[i].timezones|
    ensures var (countries, zones) := TransformCountries(raw, marshal, parse, clock).value;
      var offset := Timezones.Count(ZoneLists(raw)[..i]);
      && |zones| == Timezones.Count(ZoneLists(raw))
      && offset + j < |zones|
      && zones[offset + j] == raw[i].timezones[j].(id := offset + j + 1)
      && j < |countries[i].timezoneIds|
      && countries[i].timezoneIds[j] == ToUint32(offset + j + 1)
  {
    Timezones.ExtractZones(ZoneLists(raw));
    Timezones.ExtractCountryKeys(ZoneLists(raw), i, j);
  }

  // ----- states -----

  /** A state's `type`: null becomes "", a string is kept, anything else is
      rejected (the source's type assertion panics). */
  function StateTypeText(v: JsonValue): (r: Option<string>)
    ensures r.None? <==> v.Other?
    ensures v.Null? ==> r == Some("")
    ensures v.Str? ==> r == Some(v.s)
  {
    match v
    case Null => Some("")
    case Str(s) => Some(s)
    case Other => None
  }

  /** A lenient coordinate: the parsed value, or 0 when it does not parse. */
  function CoordinateOrZero(parse: Parser, s: string): (r: Coord)
    ensures parse(s).Some? ==> r == parse(s).value
    ensures parse(s).None? ==> r == Zero
  {
    match parse(s)
    case Some(c) => c
    case None => Zero
  }

  /** What a stored state keeps of its source record. */
  predicate StateFrom(s: RawState, state: StateRecord, parse: Parser, stamp: Stamp)
  {
    && state.id == ToUint32(s.id)
    && state.name == s.name
    && state.countryId == ToUint32(s.countryId)
    && state.countryCode == s.countryCode
    && Some(state.stateType) == StateTypeText(s.stateType)
    && state.latitude == CoordinateOrZero(parse, s.latitude)
    && state.longitude == CoordinateOrZero(parse, s.longitude)
    && state.createdAt == stamp.created
    && state.updatedAt == stamp.updated
  }

  function NormalizeState(s: RawState, index: nat, parse: Parser, stamp: Stamp): (r: Result<StateRecord, Error>)
    ensures r.Success? <==> !s.stateType.Other?
    ensures r.Success? ==> StateFrom(s, r.value, parse, stamp)
    ensures r.Failure? ==> r.error == StateTypeNotString(index)
  {
    match StateTypeText(s.stateType)
    case None => Failure(StateTypeNotString(index))
    case Some(kind) =>
      Success(StateRecord(
        ToUint32(s.id), s.name, ToUint32(s.countryId), s.countryCode, kind,
        CoordinateOrZero(parse, s.latitude), CoordinateOrZero(parse, s.longitude),
        stamp.created, stamp.updated))
  }

  /** The states transform; whether it succeeds does not depend on the
      coordinates at all. */
  function TransformStates(raw: seq<RawState>, parse: Parser, clock: nat -> Stamp): (r: Result<seq<StateRecord>, Error>)
    ensures r.Success? <==> forall k | 0 <= k < |raw| :: !raw[k].stateType.Other?
    ensures r.Success? ==> |r.value| == |raw|
    ensures r.Success? ==> forall k | 0 <= k < |raw| :: StateFrom(raw[k], r.value[k], parse, clock(k))
    ensures r.Failure? ==> exists j | 0 <= j < |raw| ::
      && raw[j].stateType.Other?
      && (forall k | 0 <= k < j :: !raw[k].stateType.Other?)
      && r.error == StateTypeNotString(j)
  {
    var f := (s: RawState, i: nat) => NormalizeState(s, i, parse, clock(i));
    assert forall k | 0 <= k < |raw| :: f(raw[k], k) == NormalizeState(raw[k], k, parse, clock(k));
    NormalizeAll(raw, 0, f)
  }
}
