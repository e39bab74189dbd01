/** The dependency sequencer: transform cities, countries and states, then
    load timezones, countries, states and cities, then attach the foreign keys
    of the `users` table. It is a straight line: the first failure ends the
    run, and what earlier steps wrote stays written. */
module Pipeline {
  import opened Wrappers
  import opened Records
  import opened Rows
  import Normalize
  import Timezones

  /** The database steps, after every transform has succeeded. */
  datatype Step = LoadTimezones | LoadCountries | LoadStates | LoadCities | AttachForeignKeys

  /** The order the steps run in: a table loads after the tables it refers to,
      and the foreign keys are attached last. */
  const Order: seq<Step> := [LoadTimezones, LoadCountries, LoadStates, LoadCities, AttachForeignKeys]

  /** A foreign key added to `users`: `column` references `table`.`key`. */
  datatype ForeignKey = ForeignKey(column: string, table: string, key: string)

  const UsersForeignKeys: seq<ForeignKey> := [
    ForeignKey("place_id", "places", "id"),
    ForeignKey("city", "cities", "id"),
    ForeignKey("country", "countries", "id"),
    ForeignKey("state", "states", "id")]

  /** The part of the database the run writes: the four tables' rows and the
      foreign keys declared on `users`. */
  datatype Db = Db(
    timezones: seq<Row>,
    countries: seq<Row>,
    states: seq<Row>,
    cities: seq<Row>,
    usersForeignKeys: seq<ForeignKey>)

  /** The rows each bulk load copies. */
  datatype Batch = Batch(timezones: seq<Row>, countries: seq<Row>, states: seq<Row>, cities: seq<Row>)

  /** When the clock is read: while transforming record `index` of `table`, or
      while building the `index`-th countries row. */
  datatype Moment = Transformed(table: Table, index: nat) | CountryRowBuilt(index: nat)

  /** Everything outside the model: float parsing, JSON encoding of the
      translations, the clock, and the database steps that report an error. */
  datatype Env = Env(parse: Parser, marshal: Marshaller, clock: Moment -> Stamp, faults: set<Step>)

  /** How a run ends: the database afterwards, the database steps attempted
      (in order), and the error that stopped it, if any. */
  datatype Run = Run(db: Db, performed: seq<Step>, error: Option<Error>)

  function TransformClock(env: Env, t: Table): nat -> Stamp
  {
    (i: nat) => env.clock(Transformed(t, i))
  }

  function RowClock(env: Env): nat -> Stamp
  {
    (i: nat) => env.clock(CountryRowBuilt(i))
  }

  function CitiesOf(raw: seq<RawCity>, env: Env): Result<seq<City>, Error>
  {
    Normalize.TransformCities(raw, env.parse, TransformClock(env, Cities))
  }

  function CountriesOf(raw: seq<RawCountry>, env: Env): Result<(seq<Country>, seq<Timezone>), Error>
  {
    Normalize.TransformCountries(raw, env.marshal, env.parse, TransformClock(env, Countries))
  }

  function StatesOf(raw: seq<RawState>, env: Env): Result<seq<StateRecord>, Error>
  {
    Normalize.TransformStates(raw, env.parse, TransformClock(env, States))
  }

  /** The transform phase: cities, then countries (with the timezones), then
      states; the first transform that fails decides the error. */
  function Prepare(cities: seq<RawCity>, countries: seq<RawCountry>, states: seq<RawState>, env: Env)
    : (r: Result<Batch, Error>)
    ensures r.Success? <==>
      && (forall k | 0 <= k < |cities| :: Normalize.CityParses(cities[k], env.parse))
      && (forall k | 0 <= k < |countries| :: Normalize.CountryConvertible(countries[k], env.marshal, env.parse))
      && (forall k | 0 <= k < |states| :: !states[k].stateType.Other?)
    ensures CitiesOf(cities, env).Failure? ==> r == Failure(CitiesOf(cities, env).error)
    ensures CitiesOf(cities, env).Success? && CountriesOf(countries, env).Failure? ==>
      r == Failure(CountriesOf(countries, env).error)
    ensures CitiesOf(cities, env).Success? && CountriesOf(countries, env).Success? && StatesOf(states, env).Failure? ==>
      r == Failure(StatesOf(states, env).error)
    ensures r.Success? ==>
      && |r.value.timezones| == Timezones.Count(Normalize.ZoneLists(countries))
      && |r.value.countries| == |countries|
      && |r.value.states| == |states|
      && |r.value.cities| == |cities|
  {
    var cityRecords :- CitiesOf(cities, env);
    var countryRecords :- CountriesOf(countries, env);
    var stateRecords :- StatesOf(states, env);
    Timezones.ExtractZones(Normalize.ZoneLists(countries));
    Success(Batch(
      TimezoneRows(countryRecords.1),
      CountryRows(countryRecords.0, RowClock(env)),
      StateRows(stateRecords),
      CityRows(cityRecords)))
  }

  /** The timezones load copies the countries' embedded timezones in country
      order, then list order. Its rows carry no key: every column it names
      holds the embedded record's own value. */
  lemma TimezoneRowsFollowCountries(cities: seq<RawCity>, countries: seq<RawCountry>, states: seq<RawState>, env: Env,
                                    k: nat, c: nat)
    requires Prepare(cities, countries, states, env).Success?
    requires k < Timezones.Count(Normalize.ZoneLists(countries)) && c < |TimezoneColumns|
    ensures var rows := Prepare(cities, countries, states, env).value.timezones;
      && k < |rows| && c < |rows[k]|
      && Some(rows[k][c]) == TimezoneField(Timezones.Concat(Normalize.ZoneLists(countries))[k], TimezoneColumns[c])
  {
    var zones := CountriesOf(countries, env).value.1;
    Timezones.ExtractZones(Normalize.ZoneLists(countries));
    assert Prepare(cities, countries, states, env).value.timezones == TimezoneRows(zones);
  }

  /** The countries load copies one row per country, in input order. Each
      column holds the value of the record the transform made from that
      country, which carries the country's own timezone keys; created_at and
      updated_at are the clock readings taken while the row is built. */
  lemma CountryRowsFollowRecords(cities: seq<RawCity>, countries: seq<RawCountry>, states: seq<RawState>, env: Env,
                                 i: nat, c: nat)
    requires Prepare(cities, countries, states, env).Success?
    requires i < |countries| && c < |CountryColumns|
    ensures CountriesOf(countries, env).Success?
    ensures var record := CountriesOf(countries, env).value.0[i];
      var rows := Prepare(cities, countries, states, env).value.countries;
      && Normalize.CountryFrom(countries[i], record, Timezones.Extract(Normalize.ZoneLists(countries)).1[i],
                               env.marshal, env.parse, env.clock(Transformed(Countries, i)))
      && i < |rows| && c < |rows[i]|
      && Some(rows[i][c]) == CountryField(record, env.clock(CountryRowBuilt(i)), CountryColumns[c])
  {
    var records := CountriesOf(countries, env).value.0;
    assert Prepare(cities, countries, states, env).value.countries == CountryRows(records, RowClock(env));
  }

  /** The states load copies one row per state, in input order; each column
      holds the value of the record the transform made from that state. */
  lemma StateRowsFollowRecords(cities: seq<RawCity>, countries: seq<RawCountry>, states: seq<RawState>, env: Env,
                               i: nat, c: nat)
    requires Prepare(cities, countries, states, env).Success?
    requires i < |states| && c < |StateColumns|
    ensures StatesOf(states, env).Success?
    ensures var record := StatesOf(states, env).value[i];
      var rows := Prepare(cities, countries, states, env).value.states;
      && Normalize.StateFrom(states[i], record, env.parse, env.clock(Transformed(States, i)))
      && i < |rows| && c < |rows[i]|
      && Some(rows[i][c]) == StateField(record, StateColumns[c])
  {
    var records := StatesOf(states, env).value;
    assert Prepare(cities, countries, states, env).value.states == StateRows(records);
  }

  /** The cities load copies one row per city, in input order; each column
      holds the value of the record the transform made from that city. */
  lemma CityRowsFollowRecords(cities: seq<RawCity>, countries: seq<RawCountry>, states: seq<RawState>, env: Env,
                              i: nat, c: nat)
    requires Prepare(cities, countries, states, env).Success?
    requires i < |cities| && c < |CityColumns|
    ensures CitiesOf(cities, env).Success?
    ensures var record := CitiesOf(cities, env).value[i];
      var rows := Prepare(cities, countries, states, env).value.cities;
      && Normalize.CityFrom(cities[i], record, env.parse, env.clock(Transformed(Cities, i)))
      && i < |rows| && c < |rows[i]|
      && Some(rows[i][c]) == CityField(record, CityColumns[c])
  {
    var records := CitiesOf(cities, env).value;
    assert Prepare(cities, countries, states, env).value.cities == CityRows(records);
  }

  /** The effect of one database step that succeeds: a bulk copy appends its
      rows (it never truncates); the migration adds the foreign keys. */
  function Apply(db: Db, step: Step, batch: Batch): Db
  {
    match step
    case LoadTimezones => db.(timezones := db.timezones + batch.timezones)
    case LoadCountries => db.(countries := db.countries + batch.countries)
    case LoadStates => db.(states := db.states + batch.states)
    case LoadCities => db.(cities := db.cities + batch.cities)
    case AttachForeignKeys => db.(usersForeignKeys := db.usersForeignKeys + UsersForeignKeys)
  }

  /** The effect of running `steps` with none of them failing. */
  function ApplyAll(db: Db, steps: seq<Step>, batch: Batch): Db
    decreases |steps|
  {
    if |steps| == 0 then db else ApplyAll(Apply(db, steps[0], batch), steps[1..], batch)
  }

  function StepError(step: Step): Error
  {
    match step
    case LoadTimezones => LoadFailed(Timezones)
    case LoadCountries => LoadFailed(Countries)
    case LoadStates => LoadFailed(States)
    case LoadCities => LoadFailed(Cities)
    case AttachForeignKeys => MigrationFailed
  }

  /** Runs the steps in order; a step in `faults` fails without writing
      anything, and nothing after it runs. */
  function Execute(steps: seq<Step>, db: Db, batch: Batch, faults: set<Step>): (r: Run)
    ensures |r.performed| <= |steps| && r.performed == steps[..|r.performed|]
    ensures r.error.None? <==> forall k | 0 <= k < |steps| :: steps[k] !in faults
    ensures r.error.None? ==> r.performed == steps
    ensures r.error.Some? ==>
      && |r.performed| > 0
      && r.performed[|r.performed| - 1] in faults
      && (forall k | 0 <= k < |r.performed| - 1 :: r.performed[k] !in faults)
      && r.error == Some(StepError(r.performed[|r.performed| - 1]))
    decreases |steps|
  {
    if |steps| == 0 then Run(db, [], None)
    else if steps[0] in faults then Run(db, [steps[0]], Some(StepError(steps[0])))
    else
      var rest := Execute(steps[1..], Apply(db, steps[0], batch), batch, faults);
      Run(rest.db, [steps[0]] + rest.performed, rest.error)
  }

  /** With no step failing, every step runs and each applies its effect. */
  lemma {:induction false} ExecuteCompletes(steps: seq<Step>, db: Db, batch: Batch, faults: set<Step>)
    requires forall k | 0 <= k < |steps| :: steps[k] !in faults
    ensures Execute(steps, db, batch, faults) == Run(ApplyAll(db, steps, batch), steps, None)
    decreases |steps|
  {
    if |steps| > 0 {
      ExecuteCompletes(steps[1..], Apply(db, steps[0], batch), batch, faults);
    }
  }

  /** At the first failing step the run stops: the steps before it keep their
      effect, it and every later step leave the database as it was. */
  lemma {:induction false} ExecuteStops(steps: seq<Step>, db: Db, batch: Batch, faults: set<Step>, k: nat)
    requires k < |steps| && steps[k] in faults
    requires forall j | 0 <= j < k :: steps[j] !in faults
    ensures Execute(steps, db, batch, faults) ==
      Run(ApplyAll(db, steps[..k], batch), steps[..k + 1], Some(StepError(steps[k])))
    decreases k
  {
    if k == 0 {
      assert steps[..1] == [steps[0]] && steps[..0] == [];
    } else {
      var next := Apply(db, steps[0], batch);
      ExecuteStops(steps[1..], next, batch, faults, k - 1);
      var rest := Execute(steps[1..], next, batch, faults);
      assert steps[0] !in faults;
      assert Execute(steps, db, batch, faults) == Run(rest.db, [steps[0]] + rest.performed, rest.error);
      assert steps[..k][0] == steps[0] && steps[..k][1..] == steps[1..][..k - 1];
      assert ApplyAll(db, steps[..k], batch) == ApplyAll(next, steps[1..][..k - 1], batch);
      assert steps[..k + 1] == [steps[0]] + steps[1..][..k];
    }
  }

  /** The whole run: the transforms, then the database steps in `Order`. */
  function CreateWorldTables(cities: seq<RawCity>, countries: seq<RawCountry>, states: seq<RawState>, env: Env, db: Db)
    : (r: Run)
    ensures |r.performed| <= |Order| && r.performed == Order[..|r.performed|]
    ensures r.error.None? <==>
      && Prepare(cities, countries, states, env).Success?
      && forall k | 0 <= k < |Order| :: Order[k] !in env.faults
    ensures r.performed == [] ==> r.db == db
    ensures Prepare(cities, countries, states, env).Failure? ==>
      r == Run(db, [], Some(Prepare(cities, countries, states, env).error))
  {
    match Prepare(cities, countries, states, env)
    case Failure(e) => Run(db, [], Some(e))
    case Success(batch) =>
      Execute(Order, db, batch, env.faults)
  }

  /** A city or country with an unparsable coordinate, or a country whose
      translations cannot be encoded, or a state whose `type` is neither null
      nor a string, fails the run before any table is loaded. */
  lemma TransformFailureLoadsNothing(cities: seq<RawCity>, countries: seq<RawCountry>, states: seq<RawState>, env: Env, db: Db)
    requires
      || (exists k | 0 <= k < |cities| :: !Normalize.CityParses(cities[k], env.parse))
      || (exists k | 0 <= k < |countries| :: !Normalize.CountryConvertible(countries[k], env.marshal, env.parse))
      || (exists k | 0 <= k < |states| :: states[k].stateType.Other?)
    ensures CreateWorldTables(cities, countries, states, env, db).error.Some?
    ensures CreateWorldTables(cities, countries, states, env, db).performed == []
    ensures CreateWorldTables(cities, countries, states, env, db).db == db
  {
  }

  /** A run with every transform and every step succeeding appends each
      table's rows, in the order loaded, and attaches the foreign keys. */
  lemma SuccessfulRun(cities: seq<RawCity>, countries: seq<RawCountry>, states: seq<RawState>, env: Env, db: Db)
    requires CreateWorldTables(cities, countries, states, env, db).error.None?
    ensures var batch := Prepare(cities, countries, states, env).value;
      var after := CreateWorldTables(cities, countries, states, env, db).db;
      && after.timezones == db.timezones + batch.timezones
      && after.countries == db.countries + batch.countries
      && after.states == db.states + batch.states
      && after.cities == db.cities + batch.cities
      && after.usersForeignKeys == db.usersForeignKeys + UsersForeignKeys
  {
    var batch := Prepare(cities, countries, states, env).value;
    ExecuteCompletes(Order, db, batch, env.faults);
    AppliedPrefix(db, batch, 5);
  }

  /** Running one more step applies it to the database the earlier steps left. */
  lemma {:induction false} ApplyAllSnoc(db: Db, steps: seq<Step>, step: Step, batch: Batch)
    ensures ApplyAll(db, steps + [step], batch) == Apply(ApplyAll(db, steps, batch), step, batch)
    decreases |steps|
  {
    if |steps| == 0 {
      assert steps + [step] == [step];
      assert [step][1..] == [];
    } else {
      assert (steps + [step])[1..] == steps[1..] + [step];
      ApplyAllSnoc(Apply(db, steps[0], batch), steps[1..], step, batch);
    }
  }

  /** The database after the first `k` steps of `Order`: the tables of those
      steps carry their rows, every other table is as it was. */
  lemma {:induction false} AppliedPrefix(db: Db, batch: Batch, k: nat)
    requires k <= |Order|
    ensures var after := ApplyAll(db, Order[..k], batch);
      && after.timezones == db.timezones + (if 0 < k then batch.timezones else [])
      && after.countries == db.countries + (if 1 < k then batch.countries else [])
      && after.states == db.states + (if 2 < k then batch.states else [])
      && after.cities == db.cities + (if 3 < k then batch.cities else [])
      && after.usersForeignKeys == db.usersForeignKeys + (if 4 < k then UsersForeignKeys else [])
    decreases k
  {
    if k == 0 {
      assert Order[..0] == [];
      assert db.timezones + [] == db.timezones && db.countries + [] == db.countries;
      assert db.states + [] == db.states && db.cities + [] == db.cities;
      assert db.usersForeignKeys + [] == db.usersForeignKeys;
    } else {
      AppliedPrefix(db, batch, k - 1);
      assert Order[..k] == Order[..k - 1] + [Order[k - 1]];
      ApplyAllSnoc(db, Order[..k - 1], Order[k - 1], batch);
      var before := ApplyAll(db, Order[..k - 1], batch);
      if k == 1 {
        assert before.timezones == db.timezones;
      } else if k == 2 {
        assert before.countries == db.countries;
      } else if k == 3 {
        assert before.states == db.states;
      } else if k == 4 {
        assert before.cities == db.cities;
      } else {
        assert before.usersForeignKeys == db.usersForeignKeys;
      }
    }
  }

  /** When the k-th step of `Order` is the first to fail, the run reports that
      step's error; the tables loaded before it keep their rows (nothing is
      rolled back) and no later step runs. */
  lemma FailedStepKeepsEarlierLoads(cities: seq<RawCity>, countries: seq<RawCountry>, states: seq<RawState>, env: Env, db: Db, k: nat)
    requires Prepare(cities, countries, states, env).Success?
    requires k < |Order| && Order[k] in env.faults
    requires forall j | 0 <= j < k :: Order[j] !in env.faults
    ensures var batch := Prepare(cities, countries, states, env).value;
      var run := CreateWorldTables(cities, countries, states, env, db);
      && run.error == Some(StepError(Order[k]))
      && run.performed == Order[..k + 1]
      && run.db.timezones == db.timezones + (if 0 < k then batch.timezones else [])
      && run.db.countries == db.countries + (if 1 < k then batch.countries else [])
      && run.db.states == db.states + (if 2 < k then batch.states else [])
      && run.db.cities == db.cities + (if 3 < k then batch.cities else [])
      && run.db.usersForeignKeys == db.usersForeignKeys
  {
    var batch := Prepare(cities, countries, states, env).value;
    ExecuteStops(Order, db, batch, env.faults, k);
    AppliedPrefix(db, batch, k);
  }

  /** A run that ends in an error leaves the foreign keys of `users` as they were. */
  lemma FailedRunKeepsForeignKeys(cities: seq<RawCity>, countries: seq<RawCountry>, states: seq<RawState>, env: Env, db: Db)
    ensures var run := CreateWorldTables(cities, countries, states, env, db);
      run.error.Some? ==> run.db.usersForeignKeys == db.usersForeignKeys
  {
    var prepared := Prepare(cities, countries, states, env);
    if prepared.Success? {
      FailedStepsKeepForeignKeys(db, prepared.value, env.faults);
    }
  }

  /** The database steps of `Order` that end in an error never attach the foreign keys. */
  lemma FailedStepsKeepForeignKeys(db: Db, batch: Batch, faults: set<Step>)
    ensures var run := Execute(Order, db, batch, faults);
      run.error.Some? ==> run.db.usersForeignKeys == db.usersForeignKeys
  {
    var run := Execute(Order, db, batch, faults);
    if run.error.Some? {
      var k := |run.performed| - 1;
      assert k < |Order| && Order[k] in faults && forall j | 0 <= j < k :: Order[j] !in faults;
      ExecuteStops(Order, db, batch, faults, k);
      AppliedPrefix(db, batch, k);
    }
  }

  /** The foreign keys on `users` are only ever added after all four tables
      have been loaded in full. */
  lemma ForeignKeysAttachedLast(cities: seq<RawCity>, countries: seq<RawCountry>, states: seq<RawState>, env: Env, db: Db)
    requires CreateWorldTables(cities, countries, states, env, db).db.usersForeignKeys != db.usersForeignKeys
    ensures CreateWorldTables(cities, countries, states, env, db).error.None?
    ensures var batch := Prepare(cities, countries, states, env).value;
      var after := CreateWorldTables(cities, countries, states, env, db).db;
      && after.timezones == db.timezones + batch.timezones
      && after.countries == db.countries + batch.countries
      && after.states == db.states + batch.states
      && after.cities == db.cities + batch.cities
  {
    FailedRunKeepsForeignKeys(cities, countries, states, env, db);
    SuccessfulRun(cities, countries, states, env, db);
  }
}
