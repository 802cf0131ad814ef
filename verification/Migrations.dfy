/** Versioned values and the steps between versions (crates/rustnative-data/src/migrate.rs). */
module Migrations {
  import opened Wrappers

  /** A step from the version before `version` to it, and back. */
  datatype Step<!V> = Step(version: nat, up: V -> Result<V, string>, down: V -> Result<V, string>)

  datatype MigrationError = MigrationError(version: nat, message: string)

  function Latest<V>(steps: seq<Step<V>>): nat {
    if steps == [] then 1 else steps[|steps| - 1].version
  }

  /** Steps added in order, starting at version 2. */
  ghost predicate Ordered<V>(steps: seq<Step<V>>) {
    forall i :: 0 <= i < |steps| ==> steps[i].version == i + 2
  }

  /** A step added; nothing when it is out of order, which the source refuses by panicking. */
  function Added<V>(steps: seq<Step<V>>, step: Step<V>): Option<seq<Step<V>>> {
    if step.version != Latest(steps) + 1 then None else Some(steps + [step])
  }

  /** Steps can be added to exactly when they are in order afterwards, and the latest version then
      is the step's. */
  lemma AddedInOrder<V>(steps: seq<Step<V>>, step: Step<V>)
    requires Ordered(steps)
    ensures Latest(steps) == |steps| + 1
    ensures Added(steps, step).Some? <==> Ordered(steps + [step])
    ensures Added(steps, step).Some? ==> Latest(Added(steps, step).value) == step.version
  {
    if Ordered(steps + [step]) {
      assert (steps + [step])[|steps|] == step;
    }
  }

  // ---------------------------------------------------------------------
  // Moving a value
  // ---------------------------------------------------------------------

  function Climb<V>(steps: seq<Step<V>>, value: V, from: nat, to: nat): Result<V, MigrationError>
    requires 1 <= from <= to <= |steps| + 1
    decreases |steps| + 1 - from
  {
    if from == to then Ok(value)
    else
      match steps[from - 1].up(value)
      case Err(message) => Err(MigrationError(from + 1, message))
      case Ok(next) => Climb(steps, next, from + 1, to)
  }

  function Descend<V>(steps: seq<Step<V>>, value: V, from: nat, to: nat): Result<V, MigrationError>
    requires 1 <= to <= from <= |steps| + 1
    decreases from
  {
    if from == to then Ok(value)
    else
      match steps[from - 2].down(value)
      case Err(message) => Err(MigrationError(from, message))
      case Ok(next) => Descend(steps, next, from - 1, to)
  }

  predicate Known<V>(steps: seq<Step<V>>, version: nat) {
    1 <= version <= |steps| + 1
  }

  /** A value moved one version at a time from `from` to `to`, up or down. */
  function Migrated<V>(steps: seq<Step<V>>, value: V, from: nat, to: nat): Result<V, MigrationError> {
    if !Known(steps, from) then Err(MigrationError(from, "unknown version"))
    else if !Known(steps, to) then Err(MigrationError(to, "unknown version"))
    else if from < to then Climb(steps, value, from, to)
    else Descend(steps, value, from, to)
  }

  /** The source's two loops over the steps, each keeping those between the versions. */
  method Migrate<V>(steps: seq<Step<V>>, start: V, from: nat, to: nat) returns (moved: Result<V, MigrationError>)
    requires Ordered(steps)
    ensures moved == Migrated(steps, start, from, to)
  {
    var latest := Latest(steps);
    if from == 0 || from > latest {
      return Err(MigrationError(from, "unknown version"));
    }
    if to == 0 || to > latest {
      return Err(MigrationError(to, "unknown version"));
    }
    var value := start;
    if from < to {
      for i := 0 to |steps|
        invariant var at := if i + 1 < from then from else if i + 1 > to then to else i + 1;
          Climb(steps, value, at, to) == Climb(steps, start, from, to)
      {
        if steps[i].version > from && steps[i].version <= to {
          var next := steps[i].up(value);
          if next.Err? {
            return Err(MigrationError(steps[i].version, next.error));
          }
          value := next.value;
        }
      }
    } else {
      for i := |steps| downto 0
        invariant var at := if i + 1 > from then from else if i + 1 < to then to else i + 1;
          Descend(steps, value, at, to) == Descend(steps, start, from, to)
      {
        if steps[i].version <= from && steps[i].version > to {
          var next := steps[i].down(value);
          if next.Err? {
            return Err(MigrationError(steps[i].version, next.error));
          }
          value := next.value;
        }
      }
    }
    return Ok(value);
  }

  // ---------------------------------------------------------------------
  // Moves compose
  // ---------------------------------------------------------------------

  function AndThen<V>(steps: seq<Step<V>>, moved: Result<V, MigrationError>, from: nat, to: nat)
    : Result<V, MigrationError>
  {
    match moved
    case Ok(value) => Migrated(steps, value, from, to)
    case Err(error) => Err(error)
  }

  lemma {:induction false} ClimbsCompose<V>(steps: seq<Step<V>>, value: V, from: nat, mid: nat, to: nat)
    requires 1 <= from <= mid <= to <= |steps| + 1
    ensures Climb(steps, value, from, to)
         == match Climb(steps, value, from, mid)
            case Ok(half) => Climb(steps, half, mid, to)
            case Err(error) => Err(error)
    decreases |steps| + 1 - from
  {
    if from < mid {
      var next := steps[from - 1].up(value);
      if next.Ok? {
        ClimbsCompose(steps, next.value, from + 1, mid, to);
      }
    }
  }

  lemma {:induction false} DescentsCompose<V>(steps: seq<Step<V>>, value: V, from: nat, mid: nat, to: nat)
    requires 1 <= to <= mid <= from <= |steps| + 1
    ensures Descend(steps, value, from, to)
         == match Descend(steps, value, from, mid)
            case Ok(half) => Descend(steps, half, mid, to)
            case Err(error) => Err(error)
    decreases from
  {
    if mid < from {
      var next := steps[from - 2].down(value);
      if next.Ok? {
        DescentsCompose(steps, next.value, from - 1, mid, to);
      }
    }
  }

  /** Going through a version on the way makes no difference, to the value or to the error. */
  lemma MigrationsCompose<V>(steps: seq<Step<V>>, value: V, from: nat, mid: nat, to: nat)
    requires Known(steps, to)
    requires from <= mid <= to || to <= mid <= from
    ensures Migrated(steps, value, from, to) == AndThen(steps, Migrated(steps, value, from, mid), mid, to)
  {
    if Known(steps, from) {
      if from <= mid <= to {
        ClimbsCompose(steps, value, from, mid, to);
      } else {
        DescentsCompose(steps, value, from, mid, to);
      }
    }
  }

  /** The way to an unknown version is refused at once; by way of a known one, a step may fail
      first, and that is the only difference there is. */
  lemma UnknownIsRefused<V>(steps: seq<Step<V>>, value: V, from: nat, mid: nat, to: nat)
    requires Known(steps, from) && Known(steps, mid) && !Known(steps, to)
    requires from <= mid <= to || to <= mid <= from
    ensures Migrated(steps, value, from, to) == Err(MigrationError(to, "unknown version"))
    ensures Migrated(steps, value, from, to) == AndThen(steps, Migrated(steps, value, from, mid), mid, to)
       <==> Migrated(steps, value, from, mid).Ok?
  {
    if Migrated(steps, value, from, mid).Err? {
      FailureIsFirst(steps, value, from, mid);
    }
  }

  /** A value goes from its version to another one step at a time, the step between two versions being the
      higher one's; one of an unknown version goes nowhere, and nothing goes to an unknown version. */
  lemma MovesStepByStep<V>(steps: seq<Step<V>>, value: V, from: nat, to: nat)
    ensures Migrated(steps, value, from, to)
         == if from == 0 || from > |steps| + 1 then Err(MigrationError(from, "unknown version"))
            else if to == 0 || to > |steps| + 1 then Err(MigrationError(to, "unknown version"))
            else if from == to then Ok(value)
            else if from < to then
              (match steps[from - 1].up(value)
               case Ok(next) => Migrated(steps, next, from + 1, to)
               case Err(message) => Err(MigrationError(from + 1, message)))
            else
              (match steps[from - 2].down(value)
               case Ok(next) => Migrated(steps, next, from - 1, to)
               case Err(message) => Err(MigrationError(from, message)))
  {
  }

  /** A move that fails says the version whose step failed: every step before it went well, and
      that one answers the message. */
  lemma FailureIsFirst<V>(steps: seq<Step<V>>, value: V, from: nat, to: nat)
    requires Known(steps, from) && Known(steps, to) && Migrated(steps, value, from, to).Err?
    ensures var error := Migrated(steps, value, from, to).error;
      if from < to then
        && from < error.version <= to
        && Migrated(steps, value, from, error.version - 1).Ok?
        && steps[error.version - 2].up(Migrated(steps, value, from, error.version - 1).value) == Err(error.message)
      else
        && to < error.version <= from
        && Migrated(steps, value, from, error.version).Ok?
        && steps[error.version - 2].down(Migrated(steps, value, from, error.version).value) == Err(error.message)
  {
    if from < to {
      ClimbFailsFirst(steps, value, from, to);
    } else {
      DescendFailsFirst(steps, value, from, to);
    }
  }

  lemma {:induction false} ClimbFailsFirst<V>(steps: seq<Step<V>>, value: V, from: nat, to: nat)
    requires 1 <= from <= to <= |steps| + 1 && Climb(steps, value, from, to).Err?
    ensures
      var error := Climb(steps, value, from, to).error;
      && from < error.version <= to
      && Climb(steps, value, from, error.version - 1).Ok?
      && steps[error.version - 2].up(Climb(steps, value, from, error.version - 1).value) == Err(error.message)
    decreases |steps| + 1 - from
  {
    var next := steps[from - 1].up(value);
    if next.Ok? {
      ClimbFailsFirst(steps, next.value, from + 1, to);
    }
  }

  lemma {:induction false} DescendFailsFirst<V>(steps: seq<Step<V>>, value: V, from: nat, to: nat)
    requires 1 <= to <= from <= |steps| + 1 && Descend(steps, value, from, to).Err?
    ensures var error := Descend(steps, value, from, to).error;
      && to < error.version <= from
      && Descend(steps, value, from, error.version).Ok?
      && steps[error.version - 2].down(Descend(steps, value, from, error.version).value) == Err(error.message)
    decreases from
  {
    var next := steps[from - 2].down(value);
    if next.Ok? {
      DescendFailsFirst(steps, next.value, from - 1, to);
    }
  }

  // ---------------------------------------------------------------------
  // Up and down again
  // ---------------------------------------------------------------------

  /** A step's way down takes back whatever its way up did. */
  ghost predicate Inverts<V(!new)>(step: Step<V>) {
    forall v, w :: step.up(v) == Ok(w) ==> step.down(w) == Ok(v)
  }

  /** Moving up and back down to where it was gives every value back. */
  ghost predicate RoundTrips<V(!new)>(steps: seq<Step<V>>) {
    forall v, from: nat, to: nat :: RoundTripsAt(steps, v, from, to)
  }

  ghost predicate RoundTripsAt<V>(steps: seq<Step<V>>, v: V, from: nat, to: nat) {
    Known(steps, from) && Known(steps, to) && from <= to && Migrated(steps, v, from, to).Ok? ==>
      Migrated(steps, Migrated(steps, v, from, to).value, to, from) == Ok(v)
  }

  /** Every value survives going up and down again exactly when each step's way down inverts its
      way up. */
  lemma RoundTripsIffStepsInvert<V(!new)>(steps: seq<Step<V>>)
    ensures RoundTrips(steps) <==> forall i :: 0 <= i < |steps| ==> Inverts(steps[i])
  {
    if RoundTrips(steps) {
      forall i | 0 <= i < |steps|
        ensures Inverts(steps[i])
      {
        forall v, w | steps[i].up(v) == Ok(w)
          ensures steps[i].down(w) == Ok(v)
        {
          assert RoundTripsAt(steps, v, i + 1, i + 2);
          OneStep(steps, i, v, w);
        }
      }
    }
    if forall i :: 0 <= i < |steps| ==> Inverts(steps[i]) {
      forall v, from: nat, to: nat
        | Known(steps, from) && Known(steps, to) && from <= to && Migrated(steps, v, from, to).Ok?
        ensures Migrated(steps, Migrated(steps, v, from, to).value, to, from) == Ok(v)
      {
        UpThenDown(steps, v, from, to);
      }
    }
  }

  lemma OneStep<V>(steps: seq<Step<V>>, i: nat, v: V, w: V)
    requires i < |steps| && steps[i].up(v) == Ok(w)
    ensures Migrated(steps, v, i + 1, i + 2) == Ok(w)
    ensures Migrated(steps, w, i + 2, i + 1) == Ok(v) ==> steps[i].down(w) == Ok(v)
  {
    assert Climb(steps, w, i + 2, i + 2) == Ok(w);
    if steps[i].down(w).Ok? {
      assert Descend(steps, steps[i].down(w).value, i + 1, i + 1) == Ok(steps[i].down(w).value);
    }
  }

  lemma {:induction false} UpThenDown<V(!new)>(steps: seq<Step<V>>, v: V, from: nat, to: nat)
    requires 1 <= from <= to <= |steps| + 1 && Climb(steps, v, from, to).Ok?
    requires forall i :: 0 <= i < |steps| ==> Inverts(steps[i])
    ensures Descend(steps, Climb(steps, v, from, to).value, to, from) == Ok(v)
    decreases |steps| + 1 - from
  {
    if from < to {
      var next := steps[from - 1].up(v).value;
      var top := Climb(steps, v, from, to).value;
      UpThenDown(steps, next, from + 1, to);
      DescentsCompose(steps, top, to, from + 1, from);
      assert Inverts(steps[from - 1]);
      assert Descend(steps, next, from + 1, from) == Ok(v);
    }
  }

  // ---------------------------------------------------------------------
  // The store
  // ---------------------------------------------------------------------

  /** How values are read from bytes and written to them. */
  datatype Json<!V, !B> = Json(
    openEnvelope: B -> Option<(nat, V)>,
    parse: B -> Option<V>,
    writeEnvelope: (nat, V) -> B,
    write: V -> B,
    nothing: V)

  /** What is written reads back, and an envelope as one. */
  ghost predicate Faithful<V(!new), B>(json: Json<V, B>) {
    && (forall v :: json.parse(json.write(v)) == Some(v))
    && (forall version: nat, v :: json.openEnvelope(json.writeEnvelope(version, v)) == Some((version, v)))
  }

  /** A stored value's version and value; one without an envelope is of version 1. */
  function Open<V, B>(json: Json<V, B>, bytes: B): (nat, V) {
    match json.openEnvelope(bytes)
    case Some(envelope) => envelope
    case None => (1, Parsed(json, bytes))
  }

  function Parsed<V, B>(json: Json<V, B>, bytes: B): V {
    match json.parse(bytes)
    case Some(value) => value
    case None => json.nothing
  }

  datatype ServiceError = StoreFailed | CannotMigrate(error: MigrationError)

  /** What loading gives for what was stored. */
  function Loaded<V, B>(json: Json<V, B>, steps: seq<Step<V>>, stored: Option<B>): Result<Option<B>, ServiceError> {
    match stored
    case None => Ok(None)
    case Some(bytes) =>
      var (version, value) := Open(json, bytes);
      if version > Latest(steps) then Ok(None)
      else
        match Migrated(steps, value, version, Latest(steps))
        case Err(error) => Err(CannotMigrate(error))
        case Ok(moved) => Ok(Some(json.write(moved)))
  }

  /** What saving stores. */
  function Stored<V, B>(json: Json<V, B>, steps: seq<Step<V>>, bytes: B): B {
    json.writeEnvelope(Latest(steps), Parsed(json, bytes))
  }

  /** Between versions already known, steps added later change nothing. */
  lemma {:induction false} ClimbUnderExtension<V>(steps: seq<Step<V>>, more: seq<Step<V>>, value: V, from: nat, to: nat)
    requires steps <= more && 1 <= from <= to <= |steps| + 1
    ensures Climb(more, value, from, to) == Climb(steps, value, from, to)
    decreases |steps| + 1 - from
  {
    if from < to {
      var next := steps[from - 1].up(value);
      if next.Ok? {
        ClimbUnderExtension(steps, more, next.value, from + 1, to);
      }
    }
  }

  /** A value saved by one version of the application and loaded by a later one is that value
      moved between their two latest versions, or the error of moving it. */
  lemma SavedThenLoaded<V(!new), B>(json: Json<V, B>, steps: seq<Step<V>>, more: seq<Step<V>>, value: V)
    requires Faithful(json) && Ordered(more) && steps <= more
    ensures Loaded(json, more, Some(Stored(json, steps, json.write(value))))
         == match Migrated(more, value, Latest(steps), Latest(more))
            case Ok(moved) => Ok(Some(json.write(moved)))
            case Err(error) => Err(CannotMigrate(error))
    ensures steps == more ==>
      Loaded(json, more, Some(Stored(json, steps, json.write(value)))) == Ok(Some(json.write(value)))
  {
    InOrder(steps, more);
    assert json.parse(json.write(value)) == Some(value);
  }

  lemma InOrder<V>(steps: seq<Step<V>>, more: seq<Step<V>>)
    requires Ordered(more) && steps <= more
    ensures Latest(steps) == |steps| + 1 && Latest(more) == |more| + 1
  {
  }

  /** What a newer version of the application saved is not read, however many steps behind this
      one is. */
  lemma NewerIsNotRead<V(!new), B>(json: Json<V, B>, steps: seq<Step<V>>, more: seq<Step<V>>, bytes: B)
    requires Faithful(json) && Ordered(more) && steps < more
    ensures Loaded(json, steps, Some(Stored(json, more, bytes))) == Ok(None)
  {
    InOrder(steps, more);
    assert json.openEnvelope(Stored(json, more, bytes)) == Some((Latest(more), Parsed(json, bytes)));
  }

  /** What was written before versioning is of version 1. */
  lemma UnversionedIsFirst<V(!new), B>(json: Json<V, B>, steps: seq<Step<V>>, bytes: B)
    requires Ordered(steps) && json.openEnvelope(bytes).None?
    ensures Loaded(json, steps, Some(bytes))
         == match Migrated(steps, Parsed(json, bytes), 1, Latest(steps))
            case Ok(moved) => Ok(Some(json.write(moved)))
            case Err(error) => Err(CannotMigrate(error))
  {
    InOrder(steps, steps);
  }

  /** Whatever is stored, of any version or none: updating twice, saving what was loaded in
      between, loads the same in the end as updating once. */
  lemma UpdatingTwiceIsOnce<V(!new), B>(json: Json<V, B>, second: seq<Step<V>>, third: seq<Step<V>>, bytes: B)
    requires Faithful(json) && Ordered(third) && second <= third
    requires var half := Loaded(json, second, Some(bytes)); half.Ok? && half.value.Some?
    ensures var half := Loaded(json, second, Some(bytes)).value.value;
      Loaded(json, third, Some(Stored(json, second, half))) == Loaded(json, third, Some(bytes))
  {
    InOrder(second, third);
    assert Ordered(second);
    var (version, value) := Open(json, bytes);
    var a, b, c := version, Latest(second), Latest(third);
    var half := Migrated(second, value, a, b).value;
    AsClimb(second, value, a, b);
    ClimbUnderExtension(second, third, value, a, b);
    MigrationsCompose(third, value, a, b, c);
    AsClimb(third, value, a, b);
    SavedThenLoaded(json, second, third, half);
  }

  /** What was written before versioning, loaded and saved by one version of the application and
      loaded by a later one, is that value migrated from version 1 to the last. */
  lemma UnversionedReachesLatest<V(!new), B>(json: Json<V, B>, second: seq<Step<V>>, third: seq<Step<V>>, bytes: B)
    requires Faithful(json) && Ordered(third) && second <= third && json.openEnvelope(bytes).None?
    requires Migrated(second, Parsed(json, bytes), 1, Latest(second)).Ok?
    ensures var half := Loaded(json, second, Some(bytes));
      && half.Ok? && half.value.Some?
      && Loaded(json, third, Some(Stored(json, second, half.value.value)))
         == match Migrated(third, Parsed(json, bytes), 1, Latest(third))
            case Ok(moved) => Ok(Some(json.write(moved)))
            case Err(error) => Err(CannotMigrate(error))
  {
    assert Ordered(second);
    UnversionedIsFirst(json, second, bytes);
    UnversionedIsFirst(json, third, bytes);
    UpdatingTwiceIsOnce(json, second, third, bytes);
  }

  lemma AsClimb<V>(steps: seq<Step<V>>, value: V, from: nat, to: nat)
    requires 1 <= from <= to <= |steps| + 1
    ensures Migrated(steps, value, from, to) == Climb(steps, value, from, to)
  {
  }

  // ---------------------------------------------------------------------
  // Plans
  // ---------------------------------------------------------------------

  datatype Planned<V> = Planned(key: string, from: nat, to: nat, outcome: Result<V, MigrationError>)

  /** What moving each key's value to `to` would do, the keys not stored left out. */
  function Plans<V, B>(json: Json<V, B>, steps: seq<Step<V>>, store: map<string, B>, keys: seq<string>, to: nat)
      : seq<Planned<V>>
  {
    if keys == [] then []
    else
      (if keys[0] in store then
         var (from, value) := Open(json, store[keys[0]]);
         [Planned(keys[0], from, to, Migrated(steps, value, from, to))]
       else [])
      + Plans(json, steps, store, keys[1..], to)
  }

  /** Every stored key has one plan, and no other key any: from the version it is stored at, with what moving
      its value would give. The plans come in the order of the keys. */
  lemma {:induction false} PlansFollowKeys<V, B>(json: Json<V, B>, steps: seq<Step<V>>, store: map<string, B>,
                                                 keys: seq<string>, key: string, to: nat)
    ensures Plans(json, steps, store, keys + [key], to)
         == Plans(json, steps, store, keys, to) + Plans(json, steps, store, [key], to)
    ensures key !in store ==> Plans(json, steps, store, [key], to) == []
    ensures key in store ==>
      && |Plans(json, steps, store, [key], to)| == 1
      && var plan := Plans(json, steps, store, [key], to)[0];
         && plan.key == key && plan.to == to
         && plan.outcome == Migrated(steps, Open(json, store[key]).1, plan.from, to)
         && (json.openEnvelope(store[key]).Some? ==>
               json.openEnvelope(store[key]) == Some((plan.from, Open(json, store[key]).1)))
         && (json.openEnvelope(store[key]).None? ==>
               plan.from == 1
               && (json.parse(store[key]).Some? ==> json.parse(store[key]) == Some(Open(json, store[key]).1)))
    decreases |keys|
  {
    if keys == [] {
      assert keys + [key] == [key];
    } else {
      assert (keys + [key])[1..] == keys[1..] + [key];
      PlansFollowKeys(json, steps, store, keys[1..], key, to);
    }
  }

  /** A plan for the latest version says what loading will give, for everything loading reads. */
  lemma {:induction false} PlansPredictLoading<V, B>(json: Json<V, B>, steps: seq<Step<V>>, store: map<string, B>,
                                                     keys: seq<string>, plan: Planned<V>)
    requires plan in Plans(json, steps, store, keys, Latest(steps))
    ensures plan.key in keys && plan.key in store
    ensures plan.from <= Latest(steps) ==>
      Loaded(json, steps, Some(store[plan.key]))
      == match plan.outcome
         case Ok(moved) => Ok(Some(json.write(moved)))
         case Err(error) => Err(CannotMigrate(error))
  {
    if plan in Plans(json, steps, store, keys[1..], Latest(steps)) {
      PlansPredictLoading(json, steps, store, keys[1..], plan);
    }
  }

  // ---------------------------------------------------------------------
  // In place
  // ---------------------------------------------------------------------

  class VersionedStore<V, B> {
    const json: Json<V, B>
    const steps: seq<Step<V>>
    var inner: map<string, B>

    constructor (json: Json<V, B>, steps: seq<Step<V>>, inner: map<string, B>)
      ensures this.json == json && this.steps == steps && this.inner == inner
    {
      this.json, this.steps, this.inner := json, steps, inner;
    }

    /** `fails` says whether the store underneath fails to answer. */
    method Load(key: string, fails: bool) returns (loaded: Result<Option<B>, ServiceError>)
      requires Ordered(steps)
      ensures loaded == if fails then Err(StoreFailed)
                        else Loaded(json, steps, if key in inner then Some(inner[key]) else None)
      ensures !fails && key !in inner ==> loaded == Ok(None)
    {
      if fails {
        return Err(StoreFailed);
      }
      if key !in inner {
        return Ok(None);
      }
      var (version, value) := Open(json, inner[key]);
      var latest := Latest(steps);
      if version > latest {
        return Ok(None);
      }
      var moved := Migrate(steps, value, version, latest);
      match moved
      case Err(error) => return Err(CannotMigrate(error));
      case Ok(result) => return Ok(Some(json.write(result)));
    }

    method Save(key: string, bytes: B, fails: bool) returns (saved: Result<(), ServiceError>)
      modifies this
      ensures saved == if fails then Err(StoreFailed) else Ok(())
      ensures inner == if fails then old(inner) else old(inner)[key := Stored(json, steps, bytes)]
    {
      var value := Parsed(json, bytes);
      var envelope := json.writeEnvelope(Latest(steps), value);
      if fails {
        return Err(StoreFailed);
      }
      inner := inner[key := envelope];
      return Ok(());
    }

    method Remove(key: string, fails: bool) returns (removed: Result<(), ServiceError>)
      modifies this
      ensures removed == if fails then Err(StoreFailed) else Ok(())
      ensures inner == if fails then old(inner) else old(inner) - {key}
    {
      if fails {
        return Err(StoreFailed);
      }
      inner := inner - {key};
      return Ok(());
    }
  }
}
