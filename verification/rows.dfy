/** The row builders of the four bulk loads: each record becomes one
    positional row whose k-th value is the record's value for the k-th name
    of the table's fixed column list. */
module Rows {
  import opened Wrappers
  import opened Records

  /** A value handed to the bulk copy. */
  datatype Value =
    | Uint32(u: uint32)
    | Integer(i: int)
    | Text(s: string)
    | Float(c: Coord)
    | Timestamp(t: Time)
    | Uint32Array(a: seq<uint32>)

  type Row = seq<Value>

  const StateColumns: seq<string> :=
    ["id", "name", "country_id", "country_code", "type", "latitude", "longitude", "created_at", "updated_at"]

  const TimezoneColumns: seq<string> :=
    ["zone_name", "gmt_offset", "gmt_offset_name", "abbreviation", "tz_name"]

  /** The countries column list, written in two runs so that its names can be
      shown distinct run by run. */
  const CountryColumns: seq<string> := CountryColumnsHead + CountryColumnsTail

  const CountryColumnsHead: seq<string> :=
    ["name", "iso3", "numeric_code", "iso2", "phonecode", "capital", "currency", "currency_name",
     "currency_symbol", "tld"]

  const CountryColumnsTail: seq<string> :=
    ["native", "region", "subregion", "timezone_id", "translations",
     "latitude", "longitude", "emoji", "emojiu", "created_at", "updated_at"]

  const CityColumns: seq<string> :=
    ["name", "state_id", "state_code", "country_id", "country_code", "latitude", "longitude",
     "created_at", "updated_at", "wiki_data_id"]

  predicate Distinct(names: seq<string>)
  {
    forall i, j | 0 <= i < j < |names| :: names[i] != names[j]
  }

  /** No name of `a` is a name of `b`. */
  predicate Apart(a: seq<string>, b: seq<string>)
  {
    forall i, j | 0 <= i < |a| && 0 <= j < |b| :: a[i] != b[j]
  }

  lemma DistinctJoin(a: seq<string>, b: seq<string>)
    requires Distinct(a) && Distinct(b) && Apart(a, b)
    ensures Distinct(a + b)
  {
    forall i, j | 0 <= i < j < |a + b|
      ensures (a + b)[i] != (a + b)[j]
    {
      if i < |a| <= j {
        assert (a + b)[i] == a[i] && (a + b)[j] == b[j - |a|];
      }
    }
  }

  /** The column list each bulk load names. Only the states load supplies
      `id`; the other three tables number their rows themselves. */
  function Columns(t: Table): (cols: seq<string>)
    ensures Distinct(cols)
    ensures "id" in cols <==> t == States
    ensures t == States ==> |cols| == 9
    ensures t == Timezones ==> |cols| == 5
    ensures t == Countries ==> |cols| == 21
    ensures t == Cities ==> |cols| == 10
  {
    match t
    case States => StateColumnsDistinct(); StateColumns
    case Timezones => TimezoneColumnsDistinct(); TimezoneColumns
    case Countries => CountryColumnsDistinct(); CountryColumns
    case Cities => CityColumnsDistinct(); CityColumns
  }

  lemma StateColumnsDistinct()
    ensures Distinct(StateColumns) && "id" in StateColumns
  {
  }

  lemma TimezoneColumnsDistinct()
    ensures Distinct(TimezoneColumns) && "id" !in TimezoneColumns
  {
  }

  lemma CountryColumnsDistinct()
    ensures Distinct(CountryColumns) && "id" !in CountryColumns
  {
    CountryColumnsHeadDistinct();
    CountryColumnsTailDistinct();
    CountryColumnsRunsApart();
    DistinctJoin(CountryColumnsHead, CountryColumnsTail);
  }

  lemma CountryColumnsHeadDistinct()
    ensures Distinct(CountryColumnsHead) && "id" !in CountryColumnsHead
  {
  }

  lemma CountryColumnsTailDistinct()
    ensures Distinct(CountryColumnsTail) && "id" !in CountryColumnsTail
  {
  }

  lemma CountryColumnsRunsApart()
    ensures Apart(CountryColumnsHead, CountryColumnsTail)
  {
  }

  lemma CityColumnsDistinct()
    ensures Distinct(CityColumns) && "id" !in CityColumns
  {
  }

  // Each *Field function gives a record's value for a column name, following
  // the column names of the record's type; `None` for a name it does not have.

  function StateField(s: StateRecord, column: string): Option<Value>
  {
    if column == "id" then Some(Uint32(s.id))
    else if column == "name" then Some(Text(s.name))
    else if column == "country_id" then Some(Uint32(s.countryId))
    else if column == "country_code" then Some(Text(s.countryCode))
    else if column == "type" then Some(Text(s.stateType))
    else if column == "latitude" then Some(Float(s.latitude))
    else if column == "longitude" then Some(Float(s.longitude))
    else if column == "created_at" then Some(Timestamp(s.createdAt))
    else if column == "updated_at" then Some(Timestamp(s.updatedAt))
    else None
  }

  function TimezoneField(tz: Timezone, column: string): Option<Value>
  {
    if column == "id" then Some(Integer(tz.id))
    else if column == "zone_name" then Some(Text(tz.zoneName))
    else if column == "gmt_offset" then Some(Integer(tz.gmtOffset))
    else if column == "gmt_offset_name" then Some(Text(tz.gmtOffsetName))
    else if column == "abbreviation" then Some(Text(tz.abbreviation))
    else if column == "tz_name" then Some(Text(tz.tzName))
    else None
  }

  /** `stamp` is the clock reading taken when the row is built, which is what
      the countries load stores as created_at/updated_at. */
  function CountryField(c: Country, stamp: Stamp, column: string): Option<Value>
  {
    if column == "id" then Some(Uint32(c.id))
    else if column == "name" then Some(Text(c.name))
    else if column == "iso3" then Some(Text(c.iso3))
    else if column == "numeric_code" then Some(Text(c.numericCode))
    else if column == "iso2" then Some(Text(c.iso2))
    else if column == "phonecode" then Some(Text(c.phoneCode))
    else if column == "capital" then Some(Text(c.capital))
    else if column == "currency" then Some(Text(c.currency))
    else if column == "currency_name" then Some(Text(c.currencyName))
    else if column == "currency_symbol" then Some(Text(c.currencySymbol))
    else if column == "tld" then Some(Text(c.tld))
    else if column == "native" then Some(Text(c.native))
    else if column == "region" then Some(Text(c.region))
    else if column == "subregion" then Some(Text(c.subregion))
    else if column == "timezone_id" then Some(Uint32Array(c.timezoneIds))
    else if column == "translations" then Some(Text(c.translations))
    else if column == "latitude" then Some(Float(c.latitude))
    else if column == "longitude" then Some(Float(c.longitude))
    else if column == "emoji" then Some(Text(c.emoji))
    else if column == "emojiu" then Some(Text(c.emojiU))
    else if column == "created_at" then Some(Timestamp(stamp.created))
    else if column == "updated_at" then Some(Timestamp(stamp.updated))
    else None
  }

  function CityField(c: City, column: string): Option<Value>
  {
    if column == "id" then Some(Uint32(c.id))
    else if column == "name" then Some(Text(c.name))
    else if column == "state_id" then Some(Uint32(c.stateId))
    else if column == "state_code" then Some(Text(c.stateCode))
    else if column == "country_id" then Some(Uint32(c.countryId))
    else if column == "country_code" then Some(Text(c.countryCode))
    else if column == "latitude" then Some(Float(c.latitude))
    else if column == "longitude" then Some(Float(c.longitude))
    else if column == "created_at" then Some(Timestamp(c.createdAt))
    else if column == "updated_at" then Some(Timestamp(c.updatedAt))
    else if column == "wiki_data_id" then Some(Text(c.wikiDataId))
    else None
  }

  // ----- one row -----

  function StateRow(s: StateRecord): (r: Row)
    ensures |r| == |StateColumns|
    ensures forall k | 0 <= k < |r| :: StateField(s, StateColumns[k]) == Some(r[k])
  {
    [Uint32(s.id), Text(s.name), Uint32(s.countryId), Text(s.countryCode), Text(s.stateType),
     Float(s.latitude), Float(s.longitude), Timestamp(s.createdAt), Timestamp(s.updatedAt)]
  }

  function TimezoneRow(tz: Timezone): (r: Row)
    ensures |r| == |TimezoneColumns|
    ensures forall k | 0 <= k < |r| :: TimezoneField(tz, TimezoneColumns[k]) == Some(r[k])
  {
    [Text(tz.zoneName), Integer(tz.gmtOffset), Text(tz.gmtOffsetName), Text(tz.abbreviation), Text(tz.tzName)]
  }

  function CountryRow(c: Country, stamp: Stamp): (r: Row)
    ensures |r| == |CountryColumns|
    ensures forall k | 0 <= k < |r| :: CountryField(c, stamp, CountryColumns[k]) == Some(r[k])
  {
    [Text(c.name), Text(c.iso3), Text(c.numericCode), Text(c.iso2), Text(c.phoneCode), Text(c.capital),
     Text(c.currency), Text(c.currencyName), Text(c.currencySymbol), Text(c.tld), Text(c.native),
     Text(c.region), Text(c.subregion), Uint32Array(c.timezoneIds), Text(c.translations),
     Float(c.latitude), Float(c.longitude), Text(c.emoji), Text(c.emojiU),
     Timestamp(stamp.created), Timestamp(stamp.updated)]
  }

  function CityRow(c: City): (r: Row)
    ensures |r| == |CityColumns|
    ensures forall k | 0 <= k < |r| :: CityField(c, CityColumns[k]) == Some(r[k])
  {
    [Text(c.name), Uint32(c.stateId), Text(c.stateCode), Uint32(c.countryId), Text(c.countryCode),
     Float(c.latitude), Float(c.longitude), Timestamp(c.createdAt), Timestamp(c.updatedAt), Text(c.wikiDataId)]
  }

  // ----- a whole table: one row per record, in record order -----

  function StateRows(states: seq<StateRecord>): (rows: seq<Row>)
    ensures |rows| == |states|
    ensures forall i | 0 <= i < |rows| :: |rows[i]| == |StateColumns|
    ensures forall i, k | 0 <= i < |rows| && 0 <= k < |StateColumns| ::
      StateField(states[i], StateColumns[k]) == Some(rows[i][k])
  {
    seq(|states|, i requires 0 <= i < |states| => StateRow(states[i]))
  }

  function TimezoneRows(zones: seq<Timezone>): (rows: seq<Row>)
    ensures |rows| == |zones|
    ensures forall i | 0 <= i < |rows| :: |rows[i]| == |TimezoneColumns|
    ensures forall i, k | 0 <= i < |rows| && 0 <= k < |TimezoneColumns| ::
      TimezoneField(zones[i], TimezoneColumns[k]) == Some(rows[i][k])
  {
    seq(|zones|, i requires 0 <= i < |zones| => TimezoneRow(zones[i]))
  }

  /** `clock(i)` is the clock reading taken while building the i-th row. */
  function CountryRows(countries: seq<Country>, clock: nat -> Stamp): (rows: seq<Row>)
    ensures |rows| == |countries|
    ensures forall i | 0 <= i < |rows| :: |rows[i]| == |CountryColumns|
    ensures forall i, k | 0 <= i < |rows| && 0 <= k < |CountryColumns| ::
      CountryField(countries[i], clock(i), CountryColumns[k]) == Some(rows[i][k])
  {
    var rows := seq(|countries|, i requires 0 <= i < |countries| => CountryRow(countries[i], clock(i)));
    assert forall i | 0 <= i < |rows| :: rows[i] == CountryRow(countries[i], clock(i));
    rows
  }

  function CityRows(cities: seq<City>): (rows: seq<Row>)
    ensures |rows| == |cities|
    ensures forall i | 0 <= i < |rows| :: |rows[i]| == |CityColumns|
    ensures forall i, k | 0 <= i < |rows| && 0 <= k < |CityColumns| ::
      CityField(cities[i], CityColumns[k]) == Some(rows[i][k])
  {
    seq(|cities|, i requires 0 <= i < |cities| => CityRow(cities[i]))
  }
}
