/** The records of the world-data loader: the decoded input records, the
    typed records stored in the database, and the error a run can end with. */
module Records {
  import opened Wrappers

  const UINT32_MODULUS: int := 0x1_0000_0000

  type uint32 = x: int | 0 <= x < UINT32_MODULUS

  /** Go's `uint32(x)` conversion of an `int`: keeps the low 32 bits. */
  function ToUint32(x: int): (r: uint32)
    ensures 0 <= x < UINT32_MODULUS ==> r == x
    ensures (x - r) % UINT32_MODULUS == 0
  {
    x % UINT32_MODULUS
  }

  /** A 64-bit float, kept as its bit pattern; the model never computes with it. */
  datatype Coord = Float64(bits: bv64)

  /** The float `0` (positive zero), the fallback for an unparsable state coordinate. */
  const Zero: Coord := Float64(0)

  /** A wall-clock reading; opaque to the model. */
  type Time = int

  /** The two clock readings a record is stamped with. */
  datatype Stamp = Stamp(created: Time, updated: Time)

  /** `strconv.ParseFloat(s, 64)`: a float, or `None` when `s` does not parse. */
  type Parser = string -> Option<Coord>

  /** A country's language-code to name mapping. */
  type Translations = map<string, string>

  /** `json.Marshal` of the translations: the JSON text, or `None` on error. */
  type Marshaller = Translations -> Option<string>

  datatype Table = Timezones | Countries | States | Cities

  datatype Axis = Latitude | Longitude

  /** Why a run stops. The source panics without distinguishing these. */
  datatype Error =
    | UnparsableCoordinate(table: Table, index: nat, axis: Axis)
    | UnencodableTranslations(index: nat)
    | StateTypeNotString(index: nat)
    | LoadFailed(table: Table)
    | MigrationFailed

  /** An embedded timezone; the same record shape is stored in the global table. */
  datatype Timezone = Timezone(
    id: int,
    zoneName: string,
    gmtOffset: int,
    gmtOffsetName: string,
    abbreviation: string,
    tzName: string)

  /** A city as decoded from the cities document. */
  datatype RawCity = RawCity(
    id: int,
    name: string,
    stateId: int,
    stateCode: string,
    stateName: string,
    countryId: int,
    countryCode: string,
    countryName: string,
    latitude: string,
    longitude: string,
    wikiDataId: string)

  /** A city ready to be stored. */
  datatype City = City(
    id: uint32,
    name: string,
    stateId: uint32,
    stateCode: string,
    countryId: uint32,
    countryCode: string,
    latitude: Coord,
    longitude: Coord,
    createdAt: Time,
    updatedAt: Time,
    wikiDataId: string)

  /** A country as decoded from the countries document. */
  datatype RawCountry = RawCountry(
    id: int,
    name: string,
    iso3: string,
    iso2: string,
    numericCode: string,
    phoneCode: string,
    capital: string,
    currency: string,
    currencyName: string,
    currencySymbol: string,
    tld: string,
    native: string,
    region: string,
    subregion: string,
    timezones: seq<Timezone>,
    translations: Translations,
    latitude: string,
    longitude: string,
    emoji: string,
    emojiU: string)

  /** A country ready to be stored; `timezoneIds` refers to the timezones table. */
  datatype Country = Country(
    id: uint32,
    name: string,
    iso3: string,
    numericCode: string,
    iso2: string,
    phoneCode: string,
    capital: string,
    currency: string,
    currencyName: string,
    currencySymbol: string,
    tld: string,
    native: string,
    region: string,
    subregion: string,
    timezoneIds: seq<uint32>,
    translations: string,
    latitude: Coord,
    longitude: Coord,
    emoji: string,
    emojiU: string,
    createdAt: Time,
    updatedAt: Time)

  /** The decoded value of a state's untyped `type` field. */
  datatype JsonValue = Null | Str(s: string) | Other

  /** A state as decoded from the states document. */
  datatype RawState = RawState(
    id: int,
    name: string,
    countryId: int,
    countryCode: string,
    countryName: string,
    stateCode: string,
    stateType: JsonValue,
    latitude: string,
    longitude: string)

  /** A state ready to be stored. */
  datatype StateRecord = StateRecord(
    id: uint32,
    name: string,
    countryId: uint32,
    countryCode: string,
    stateType: string,
    latitude: Coord,
    longitude: Coord,
    createdAt: Time,
    updatedAt: Time)
}
