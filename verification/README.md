# World-data loader: a Dafny model

This project models the transform-and-load pipeline of `CreateWorldTables` in
`src/sqlinit.go`. The pipeline reads three decoded JSON documents (cities,
countries, states) and turns each record into its storage form. It flattens
every timezone embedded in a country into one global timezone list with
synthetic keys 1..N. It then bulk-loads the tables timezones, countries,
states and cities, in that order, and finally adds four foreign keys to the
`users` table. The first failure ends the run, and nothing already written is
undone.

Modules, leaf to root:

- `Wrappers` (`wrappers.dfy`): `Option` and `Result`.
- `Records` (`records.dfy`): the decoded and stored records and the error type. It
  also holds Go's `uint32(...)` conversion (`ToUint32`, which keeps the low 32 bits)
  and stand-ins for what the model does not compute:
  - floats (`Coord`, a bit pattern, with `Zero` as positive zero);
  - the clock (`Time`, `Stamp`);
  - float parsing (`Parser`);
  - JSON encoding of the translations (`Marshaller`).
- `Timezones` (`timezones.dfy`): the timezone extractor, written as a fold in the
  same shape as the two nested loops, with lemmas about its output.
- `Normalize` (`normalize.dfy`): the three per-record transforms.
  - Cities and countries: an unparsable coordinate is fatal.
  - States: an unparsable coordinate becomes 0, and a `type` must be null or a string.
- `Rows` (`rows.dfy`): the four row builders and their column lists.
  - Each row is checked against a column-name → field lookup that follows the
    records' column names.
- `Pipeline` (`pipeline.dfy`): the phase sequencer.
  - The database is a value holding the four tables' rows and the `users`
    foreign keys.
  - Which database steps fail is an input, the set `faults`.

Stand-ins that the model takes as parameters:

- `strconv.ParseFloat` is the `parse` function.
- `json.Marshal` of the translations is `marshal`.
- `time.Now()` is `clock`. Its argument names the record being stamped, or the
  countries row being built, because that load reads the clock again.
- A database error is membership of a step in `faults`.

Where the source panics, the model returns an `Error` that names the table, the
record index and the coordinate. The source itself does not distinguish these
failures.

## Model

| member | source | states |
|---|---|---|
| Records.ToUint32 | src/sqlinit.go:240-246 | Go's `uint32(x)`: equals `x` when `0 <= x < 2^32`, and otherwise differs from `x` by a multiple of 2^32 |
| Timezones.AppendZonesKeys | src/sqlinit.go:286-290 | one country's loop appends its timezones, each keyed by the number emitted so far plus one, with other fields unchanged; it records exactly those keys, in order |
| Timezones.ExtractFromZones | src/sqlinit.go:260-302 | the outer loop's global list is the concatenation of the countries' timezone lists, keyed contiguously from the number emitted before |
| Timezones.ExtractFromRefs | src/sqlinit.go:286-290 | the countries' key lists, read in country order, are the consecutive keys that follow the initial count, each truncated to uint32 as stored; they have no gap or repeat while the total stays below 2^32 keys |
| Timezones.ExtractFromCountryRefs | src/sqlinit.go:286-290 | country i's key list is the run of `len(own timezones)` keys that starts after the timezones of countries 0..i-1 |
| Timezones.ExtractZones | src/sqlinit.go:286-288 | the global timezone list has N = total embedded timezones; its k-th entry is the k-th embedded timezone in (country, list) order with key k+1, other fields copied |
| Timezones.ExtractCountryKeys | src/sqlinit.go:286-290 | the j-th timezone of country i sits at offset(i)+j with key offset(i)+j+1, and country i's j-th key is that same key |
| Timezones.ExtractRefsContiguous | src/sqlinit.go:287-289 | when N < 2^32, concatenating all countries' key lists in input order gives exactly 1..N |
| Timezones.CountryRefsRange | src/sqlinit.go:289 | every key of country i lies above the timezone count of the countries before it and at most that count plus its own |
| Timezones.ExtractRefsDisjoint | src/sqlinit.go:289 | every key of an earlier country is below every key of a later one, so no key is shared |
| Timezones.TwoCountryFixture | src/sqlinit.go:286-290 | two countries with two and one timezones get keys 1, 2, 3 and key lists [1, 2] and [3] |
| Normalize.NormalizeAll | src/sqlinit.go:226-248 | the record loop: succeeds iff every record normalises; then one output per input, in order; otherwise the error is that of the first failing record |
| Normalize.StrictCoordinate | src/sqlinit.go:230-237 | a strict coordinate is the parsed value; a parse failure is an error naming the table, record and axis |
| Normalize.NormalizeCity | src/sqlinit.go:227-247 | a city converts iff both coordinates parse (latitude is reported first); ids are truncated to uint32; name, codes and wikiDataId are copied; the stamps come from the clock |
| Normalize.TransformCities | src/sqlinit.go:225-248 | the cities transform succeeds iff every city's coordinates parse; then each city maps to one record in order; otherwise it fails with the first bad city |
| Normalize.NormalizeCountry | src/sqlinit.go:261-301 | a country converts iff its translations encode and both coordinates parse, checked in that order; the text fields are copied, the id is truncated to uint32, the translations are the encoded text, the coordinates the parsed values, the stamps the clock reading, and it carries the given timezone keys |
| Normalize.CountriesFrom | src/sqlinit.go:260-302 | the countries loop from a given country on succeeds iff every remaining country converts, and then yields one record per remaining country |
| Normalize.CountriesFromRecords | src/sqlinit.go:260-302 | a successful countries loop emits exactly the extractor's timezone list for the remaining countries, and its record for country j is that country normalised with the extractor's key list for it and its own clock reading |
| Normalize.CountriesFromFailure | src/sqlinit.go:276-297 | a failed countries loop reports the first remaining country that does not convert, with that country's reason: its translations, else its latitude, else its longitude |
| Normalize.TransformCountries | src/sqlinit.go:249-302 | the countries transform succeeds iff all countries convert; then one record per country in order, with the extracted timezone list and key lists; otherwise it fails with the first bad country |
| Normalize.CountryTimezoneKeys | src/sqlinit.go:286-290 | after the countries transform, the timezone list has N rows, and country i's j-th key names that country's own j-th timezone |
| Normalize.StateTypeText | src/sqlinit.go:319-321 | a state `type` of null becomes "", a string is kept, any other JSON value is rejected |
| Normalize.CoordinateOrZero | src/sqlinit.go:324-331 | a lenient coordinate is the parsed value, or 0 when it does not parse |
| Normalize.NormalizeState | src/sqlinit.go:314-334 | a state converts iff its `type` is null or a string, whatever its coordinates; ids are truncated; unparsable latitude and longitude become 0 independently |
| Normalize.TransformStates | src/sqlinit.go:313-335 | the states transform succeeds iff no state's `type` is a non-string value; then one record per state in order; otherwise it fails with the first such state |
| Rows.Columns | src/sqlinit.go:364-425 | the four column lists have 9, 5, 21 and 10 distinct names, and only the states list contains `id` |
| Rows.StateRow | src/sqlinit.go:367 | a states row has one value per column, and the k-th value is the state's value for the k-th column name |
| Rows.StateRows | src/sqlinit.go:364-369 | one row per state, in record order, each lined up with the states column list |
| Rows.TimezoneRow | src/sqlinit.go:385 | a timezones row has one value per column, and the k-th value is the timezone's value for the k-th column name; the key is not sent |
| Rows.TimezoneRows | src/sqlinit.go:381-386 | one row per timezone, in list order, each lined up with the timezones column list |
| Rows.CountryRow | src/sqlinit.go:400 | a countries row has one value per column, matched by name; created_at and updated_at are the clock readings taken while the row is built |
| Rows.CountryRows | src/sqlinit.go:396-401 | one row per country, in record order, each lined up with the countries column list |
| Rows.CityRow | src/sqlinit.go:416 | a cities row has one value per column, and the k-th value is the city's value for the k-th column name |
| Rows.CityRows | src/sqlinit.go:411-417 | one row per city, in record order, each lined up with the cities column list |
| Pipeline.Prepare | src/sqlinit.go:214-335 | the transforms run as cities, then countries, then states, and the first failure decides the error; it succeeds iff all records convert, and then holds N timezone rows and one row per city, country and state |
| Pipeline.CountryRowsFollowRecords | src/sqlinit.go:396-401 | the i-th countries row holds, column by column, the record made from the i-th country, with that country's own run of timezone keys and the clock readings taken while the row is built |
| Pipeline.StateRowsFollowRecords | src/sqlinit.go:364-369 | the i-th states row holds, column by column, the record made from the i-th state |
| Pipeline.CityRowsFollowRecords | src/sqlinit.go:411-417 | the i-th cities row holds, column by column, the record made from the i-th city |
| Pipeline.TimezoneRowsFollowCountries | src/sqlinit.go:286-288 | the k-th timezone row holds, column by column, the k-th embedded timezone in (country, list) order |
| Pipeline.Execute | src/sqlinit.go:336-362 | the database steps run in order and stop at the first failure; the steps attempted are a prefix; the run succeeds iff no step fails, and otherwise reports the last attempted step's error |
| Pipeline.ExecuteCompletes | src/sqlinit.go:336-362 | with no failing step, every step runs and applies its effect |
| Pipeline.ExecuteStops | src/sqlinit.go:336-362 | at the first failing step, the earlier steps keep their effect and nothing from it onward changes the database |
| Pipeline.CreateWorldTables | src/sqlinit.go:214-363 | the steps attempted are a prefix of timezones → countries → states → cities → foreign keys; the run succeeds iff every transform and every step does; a failed transform is the run's error, with no step attempted; with no step attempted the database is unchanged |
| Pipeline.TransformFailureLoadsNothing | src/sqlinit.go:226-335 | any of these fails the run with no table loaded and the database unchanged: an unparsable city or country coordinate, unencodable translations, or a non-string state `type` |
| Pipeline.SuccessfulRun | src/sqlinit.go:336-362 | a successful run appends every table's rows and adds the four `users` foreign keys |
| Pipeline.AppliedPrefix | src/sqlinit.go:336-355 | after the first k steps, exactly the tables of those steps carry their rows |
| Pipeline.FailedStepKeepsEarlierLoads | src/sqlinit.go:336-362 | when step k fails first, its error is reported, the tables loaded before it keep their rows (no rollback), and later tables and the foreign keys are untouched |
| Pipeline.FailedRunKeepsForeignKeys | src/sqlinit.go:336-362 | a failed run leaves the `users` foreign keys as they were |
| Pipeline.FailedStepsKeepForeignKeys | src/sqlinit.go:336-362 | once the tables are transformed, a database step that fails stops the run before the migration, so the `users` foreign keys are unchanged |
| Pipeline.ForeignKeysAttachedLast | src/sqlinit.go:336-359 | if the `users` foreign keys changed, the run succeeded and all four tables were fully loaded first |

## Left out

- File reading and JSON decoding (src/sqlinit.go:215-223, 252-259, 305-312) are I/O. The model starts from decoded records, and the state `type` is a small sum type.
- Float parsing and float values are not computed. `strconv.ParseFloat` is the `parse` parameter, and a float is an opaque bit pattern.
- `time.Now()` is not deterministic, so it is the `clock` parameter. The model places no constraint on the readings.
- `json.Marshal` of the translations is a foreign call, so it is the `marshal` parameter, and the translations are a string-to-string map applied to each country's own decoded translations. The source differs. Its `Translations` field is a struct of thirteen strings, declared beside six variants `Translations0`–`Translations5`, all seven tagged `translations` at the same depth. encoding/json ignores every field of such a tie, so `country.Translations` always stays the zero struct. Line 277 therefore stores the same constant JSON text, every language an empty string, for every country, and that marshal never fails. The model does not make the stored text constant.
- pgx `CopyFrom`, `db.Exec`, the SQL text and the context deadlines are database I/O. The deadlines are 5 s for the timezones, countries and cities loads, none for states, and 10 s for the migration. Each step becomes an effect that either succeeds or, when it is in `faults`, reports an error and writes nothing.
- Database-side outcomes are only visible through `faults`. These include constraint violations when a run is repeated over populated tables, and the ids the database gives rows that are sent without one.
- The model does not state that a country's `timezone_id` keys equal the ids the database gives the timezone rows. The timezones rows do not carry their key, so this holds only if the database numbers the rows 1..N in copy order.
- `DropAndInsertCities` panics on a copy error where the other loads return it (src/sqlinit.go:421-423). Both end the run, and the model treats them alike.
- The `Flag` and `WikiDataID` fields of the stored state are never set and never loaded, so the model omits them.
- A country without timezones keeps a nil `TimezoneID` slice. The model does not distinguish this from an empty list.
- Referential integrity between states, cities and countries is not checked by the code. The model does not check it either.
- src/pkg/core/types.go and src/pkg/backend/launch.go (HTTP routing and server start-up) are not part of this model.
