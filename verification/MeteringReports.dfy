/** Metering report configurations, replicated across the seeds.  A request edits one seed after the
    other, in whatever order the map of seeds is walked; every write may fail and stops the request. */
module MeteringReports {
  import opened Wrappers
  import opened SortedNames

  const TWO_TO_31: int := 0x8000_0000

  const TWO_TO_32: int := 0x1_0000_0000

  type Int32 = x: int | -TWO_TO_31 <= x < TWO_TO_31

  /** Go's conversion uint32(x). */
  function ToUint32(x: Int32): nat { x % TWO_TO_32 }

  datatype ReportConfig = ReportConfig(schedule: string, interval: nat, retention: Option<nat>, types: seq<string>)

  type Reports = map<string, ReportConfig>

  /** A seed without metering, or with metering whose map of reports may be nil. */
  datatype Seed = NoMetering | Metering(reports: Option<Reports>)

  type Seeds = map<string, Seed>

  const REPORT_TYPES: seq<string> := ["cluster", "namespace"]

  datatype CreateRequest = CreateRequest(
    name: string, schedule: string, interval: Int32, retention: Option<Int32>, types: Option<seq<string>>)

  datatype UpdateRequest = UpdateRequest(
    name: string, schedule: string, interval: Option<Int32>, retention: Option<Int32>, types: Option<seq<string>>)

  /** The checks of names and cron expressions are library functions. */
  datatype Rules = Rules(validName: string -> bool, validSchedule: string -> bool)

  datatype Error =
    | BadRequest
    | NoMeteringConfig
    | AlreadyExists
    | NoReportMap
    | NotFound
    | WriteFailed

  // ----- validation -----

  predicate ValidRetention(retention: Option<Int32>) { retention.Some? ==> retention.value >= 1 }

  predicate ValidTypes(types: Option<seq<string>>)
  {
    types.Some? ==> types.value != [] && forall i :: 0 <= i < |types.value| ==> types.value[i] in REPORT_TYPES
  }

  predicate ValidCreate(rules: Rules, r: CreateRequest)
  {
    && rules.validName(r.name)
    && rules.validSchedule(r.schedule)
    && r.interval >= 1
    && ValidRetention(r.retention)
    && ValidTypes(r.types)
  }

  predicate ValidUpdate(rules: Rules, r: UpdateRequest)
  {
    && rules.validName(r.name)
    && (r.schedule != "" ==> rules.validSchedule(r.schedule))
    && (r.interval.Some? ==> r.interval.value >= 1)
    && ValidRetention(r.retention)
    && ValidTypes(r.types)
  }

  method CheckTypes(types: Option<seq<string>>) returns (ok: bool)
    ensures ok <==> ValidTypes(types)
  {
    if types.Some? {
      if |types.value| == 0 {
        return false;
      }
      var i := 0;
      while i < |types.value|
        invariant 0 <= i <= |types.value|
        invariant forall j :: 0 <= j < i ==> types.value[j] in REPORT_TYPES
      {
        if types.value[i] !in REPORT_TYPES {
          return false;
        }
        i := i + 1;
      }
    }
    return true;
  }

  lemma TypesAreKnown(types: Option<seq<string>>)
    ensures ValidTypes(types)
            <==> types.None?
                 || (|types.value| > 0 && forall t :: t in types.value ==> t in {"cluster", "namespace"})
  {
    if types.Some? {
      assert forall t :: t in REPORT_TYPES <==> t in {REPORT_TYPES[0], REPORT_TYPES[1]};
      assert forall t :: t in types.value ==> exists i :: 0 <= i < |types.value| && types.value[i] == t;
      assert forall i :: 0 <= i < |types.value| ==> types.value[i] in types.value;
    }
  }

  method ValidateCreate(rules: Rules, r: CreateRequest) returns (ok: bool)
    ensures ok <==> ValidCreate(rules, r)
    ensures ok <==> && rules.validName(r.name) && rules.validSchedule(r.schedule) && 1 <= r.interval
                    && (r.retention.None? || 1 <= r.retention.value)
                    && (r.types.None?
                        || (|r.types.value| > 0 && forall t :: t in r.types.value ==> t in {"cluster", "namespace"}))
  {
    TypesAreKnown(r.types);
    if !rules.validName(r.name) { return false; }
    if !rules.validSchedule(r.schedule) { return false; }
    if r.interval < 1 { return false; }
    if r.retention.Some? && r.retention.value < 1 { return false; }
    ok := CheckTypes(r.types);
  }

  method ValidateUpdate(rules: Rules, r: UpdateRequest) returns (ok: bool)
    ensures ok <==> ValidUpdate(rules, r)
    ensures ok <==> && rules.validName(r.name) && (r.schedule == "" || rules.validSchedule(r.schedule))
                    && (r.interval.None? || 1 <= r.interval.value)
                    && (r.retention.None? || 1 <= r.retention.value)
                    && (r.types.None?
                        || (|r.types.value| > 0 && forall t :: t in r.types.value ==> t in {"cluster", "namespace"}))
  {
    TypesAreKnown(r.types);
    if !rules.validName(r.name) { return false; }
    if r.schedule != "" && !rules.validSchedule(r.schedule) { return false; }
    if r.interval.Some? && r.interval.value < 1 { return false; }
    if r.retention.Some? && r.retention.value < 1 { return false; }
    ok := CheckTypes(r.types);
  }

  // ----- editing one seed -----

  datatype Op = Create(c: CreateRequest) | Update(u: UpdateRequest) | Delete(target: string)

  function NameOf(op: Op): string
  {
    match op
    case Create(c) => c.name
    case Update(u) => u.name
    case Delete(target) => target
  }

  /** What a request does to one seed: refuse, leave it alone, or write a new map of reports. */
  datatype Edit = Refuse(error: Error) | LeaveAlone | Write(reports: Reports)

  function NewConfig(c: CreateRequest): ReportConfig
  {
    ReportConfig(c.schedule, ToUint32(c.interval),
                 if c.retention.None? then None else Some(ToUint32(c.retention.value)),
                 if c.types.None? || c.types.value == [] then REPORT_TYPES else c.types.value)
  }

  /** Fields that are not sent keep their value, except the retention, which is removed. */
  function UpdatedConfig(u: UpdateRequest, current: ReportConfig): ReportConfig
  {
    ReportConfig(if u.schedule != "" then u.schedule else current.schedule,
                 if u.interval.Some? && u.interval.value >= 1 then ToUint32(u.interval.value) else current.interval,
                 if u.retention.None? then None
                 else if u.retention.value >= 1 then Some(ToUint32(u.retention.value)) else current.retention,
                 if u.types.Some? && u.types.value != [] then u.types.value else current.types)
  }

  /** The reports of a seed; nil counts as empty. */
  function View(seed: Seed): Reports
  {
    if seed.NoMetering? || seed.reports.None? then map[] else seed.reports.value
  }

  function EditOf(op: Op, seed: Seed): Edit
  {
    match op
    case Create(c) =>
      if seed.NoMetering? then Refuse(NoMeteringConfig)
      else if c.name in View(seed) then Refuse(AlreadyExists)
      else Write(View(seed)[c.name := NewConfig(c)])
    case Update(u) =>
      if seed.NoMetering? || seed.reports.None? then Refuse(NoReportMap)
      else if u.name !in View(seed) then Refuse(NotFound)
      else Write(View(seed)[u.name := UpdatedConfig(u, View(seed)[u.name])])
    case Delete(target) =>
      if seed.NoMetering? || seed.reports.None? then Refuse(NoReportMap)
      else if target !in View(seed) then LeaveAlone
      else Write(View(seed) - {target})
  }

  function ConfigOn(seed: Seed, name: string): Option<ReportConfig>
  {
    if name in View(seed) then Some(View(seed)[name]) else None
  }

  /** The seed as the request means to leave it. */
  function Edited(op: Op, seed: Seed): Seed
  {
    match EditOf(op, seed)
    case Write(reports) => Metering(Some(reports))
    case _ => seed
  }

  // ----- editing all seeds -----

  /** A walk over some of the seeds, each once. */
  predicate Walk(order: seq<string>, seeds: Seeds)
  {
    Distinct(order) && forall i :: 0 <= i < |order| ==> order[i] in seeds
  }

  /** A walk over all seeds. */
  predicate FullWalk(order: seq<string>, seeds: Seeds)
  {
    Walk(order, seeds) && forall name :: name in seeds ==> name in order
  }

  function EditAll(op: Op, order: seq<string>, outcomes: string -> Outcome, seeds: Seeds): (Seeds, Option<Error>)
    requires Walk(order, seeds)
  {
    if order == [] then (seeds, None)
    else
      var name := order[0];
      match EditOf(op, seeds[name])
      case Refuse(e) => (seeds, Some(e))
      case LeaveAlone => EditAll(op, order[1..], outcomes, seeds)
      case Write(reports) =>
        match outcomes(name)
        case Stored => EditAll(op, order[1..], outcomes, seeds[name := Metering(Some(reports))])
        case Lost => (seeds, Some(WriteFailed))
        case StoredButFailed => (seeds[name := Metering(Some(reports))], Some(WriteFailed))
  }

  method Entries(reports: Reports) returns (resp: seq<(string, ReportConfig)>)
    ensures forall entry :: entry in resp <==> entry.0 in reports && reports[entry.0] == entry.1
    ensures |resp| == |reports|
  {
    resp := [];
    var rest := reports.Keys;
    while rest != {}
      invariant rest <= reports.Keys
      invariant forall entry :: entry in resp <==> entry.0 in reports && entry.0 !in rest && reports[entry.0] == entry.1
      invariant |resp| + |rest| == |reports.Keys|
      decreases |rest|
    {
      var name :| name in rest;
      resp := resp + [(name, reports[name])];
      rest := rest - {name};
    }
  }

  function Get(name: string, order: seq<string>, seeds: Seeds): Option<ReportConfig>
    requires Walk(order, seeds)
  {
    if order == [] then None
    else if name in View(seeds[order[0]]) then Some(View(seeds[order[0]])[name])
    else Get(name, order[1..], seeds)
  }

  function Listed(order: seq<string>, seeds: Seeds): Reports
    requires Walk(order, seeds)
  {
    if order == [] then map[]
    else if seeds[order[0]].Metering? then View(seeds[order[0]])
    else Listed(order[1..], seeds)
  }

  /** A seed that lets the create through: it has metering, with or without a report map, and does not
      hold the name, and the write is stored. */
  predicate CanCreate(c: CreateRequest, seed: Seed, outcome: Outcome)
  {
    seed.Metering? && c.name !in View(seed) && outcome == Stored
  }

  /** A seed that lets the update through: it has a report map that holds the name. */
  predicate CanUpdate(u: UpdateRequest, seed: Seed, outcome: Outcome)
  {
    seed.Metering? && seed.reports.Some? && u.name in seed.reports.value && outcome == Stored
  }

  /** A seed that lets the delete through: it has a report map, and if that holds the name the write is
      stored. */
  predicate CanDelete(target: string, seed: Seed, outcome: Outcome)
  {
    seed.Metering? && seed.reports.Some? && (target in seed.reports.value ==> outcome == Stored)
  }

  /** The configuration is the one the request describes; both types when none are sent. */
  predicate IsCreated(c: CreateRequest, config: ReportConfig)
  {
    && config.schedule == c.schedule
    && config.interval == c.interval
    && (config.retention.None? <==> c.retention.None?)
    && (c.retention.Some? ==> config.retention.value == c.retention.value)
    && config.types == if c.types.None? then ["cluster", "namespace"] else c.types.value
  }

  /** What is sent replaces what was there; the retention is removed when it is not sent. */
  predicate IsUpdated(u: UpdateRequest, before: ReportConfig, config: ReportConfig)
  {
    && config.schedule == (if u.schedule == "" then before.schedule else u.schedule)
    && config.interval == (if u.interval.None? then before.interval else u.interval.value)
    && (config.retention.None? <==> u.retention.None?)
    && (u.retention.Some? ==> config.retention.value == u.retention.value)
    && config.types == if u.types.None? then before.types else u.types.value
  }

  lemma CreatedConfig(rules: Rules, c: CreateRequest)
    requires ValidCreate(rules, c)
    ensures IsCreated(c, NewConfig(c))
  {
  }

  predicate Passes(op: Op, seed: Seed, outcome: Outcome)
  {
    !EditOf(op, seed).Refuse? && (EditOf(op, seed).Write? ==> outcome == Stored)
  }

  /** A request succeeds if and only if no seed refuses it and every write it makes is stored. */
  lemma {:induction false} SucceedsIff(op: Op, order: seq<string>, outcomes: string -> Outcome, seeds: Seeds)
    requires Walk(order, seeds)
    ensures EditAll(op, order, outcomes, seeds).1.None?
            <==> forall i :: 0 <= i < |order| ==> Passes(op, seeds[order[i]], outcomes(order[i]))
    decreases order
  {
    if order != [] {
      var rest := order[1..];
      assert forall i :: 0 <= i < |rest| ==> rest[i] == order[i + 1];
      if Passes(op, seeds[order[0]], outcomes(order[0])) {
        var next := seeds[order[0] := Edited(op, seeds[order[0]])];
        SucceedsIff(op, rest, outcomes, next);
        if EditOf(op, seeds[order[0]]).LeaveAlone? { assert next == seeds; }
        assert EditAll(op, order, outcomes, seeds) == EditAll(op, rest, outcomes, next);
        assert forall i :: 1 <= i < |order| ==> order[i] == rest[i - 1];
      }
    }
  }

  /** A create succeeds exactly when every seed lets it through. */
  lemma CreateSucceedsIff(c: CreateRequest, order: seq<string>, outcomes: string -> Outcome, seeds: Seeds)
    requires Walk(order, seeds)
    ensures EditAll(Create(c), order, outcomes, seeds).1.None?
            <==> forall i :: 0 <= i < |order| ==> CanCreate(c, seeds[order[i]], outcomes(order[i]))
  {
    SucceedsIff(Create(c), order, outcomes, seeds);
    forall i | 0 <= i < |order|
      ensures Passes(Create(c), seeds[order[i]], outcomes(order[i]))
              <==> CanCreate(c, seeds[order[i]], outcomes(order[i]))
    {
    }
  }

  /** An update succeeds exactly when every seed lets it through. */
  lemma UpdateSucceedsIff(u: UpdateRequest, order: seq<string>, outcomes: string -> Outcome, seeds: Seeds)
    requires Walk(order, seeds)
    ensures EditAll(Update(u), order, outcomes, seeds).1.None?
            <==> forall i :: 0 <= i < |order| ==> CanUpdate(u, seeds[order[i]], outcomes(order[i]))
  {
    SucceedsIff(Update(u), order, outcomes, seeds);
    forall i | 0 <= i < |order|
      ensures Passes(Update(u), seeds[order[i]], outcomes(order[i]))
              <==> CanUpdate(u, seeds[order[i]], outcomes(order[i]))
    {
    }
  }

  /** A request has gone through the first k seeds of the walk and has not touched those behind; the
      one where it stopped has its old or its intended value. */
  predicate StoppedAt(op: Op, order: seq<string>, seeds: Seeds, after: Seeds, error: Option<Error>, k: nat)
    requires Walk(order, seeds)
  {
    && k <= |order|
    && after.Keys == seeds.Keys
    && (error.None? <==> k == |order|)
    && (forall i :: 0 <= i < k ==>
          !EditOf(op, seeds[order[i]]).Refuse? && after[order[i]] == Edited(op, seeds[order[i]]))
    && (k < |order| ==> after[order[k]] == seeds[order[k]] || after[order[k]] == Edited(op, seeds[order[k]]))
    && (forall i :: k < i < |order| ==> after[order[i]] == seeds[order[i]])
    && (forall name :: name in seeds && name !in order ==> after[name] == seeds[name])
  }

  lemma OneSeedFurther(op: Op, order: seq<string>, seeds: Seeds, next: Seeds, after: Seeds, error: Option<Error>,
                       j: nat)
    requires Walk(order, seeds) && order != [] && !EditOf(op, seeds[order[0]]).Refuse?
    requires next == seeds[order[0] := Edited(op, seeds[order[0]])]
    requires Walk(order[1..], next) && StoppedAt(op, order[1..], next, after, error, j)
    ensures StoppedAt(op, order, seeds, after, error, j + 1)
  {
    var rest := order[1..];
    assert order[0] !in rest;
    forall i | 0 <= i < j + 1
      ensures !EditOf(op, seeds[order[i]]).Refuse? && after[order[i]] == Edited(op, seeds[order[i]])
    {
      if i > 0 { assert rest[i - 1] == order[i]; }
    }
    forall i | j + 1 < i < |order| ensures after[order[i]] == seeds[order[i]] {
      assert rest[i - 1] == order[i];
    }
    if j + 1 < |order| { assert rest[j] == order[j + 1]; }
    forall name | name in seeds && name !in order ensures after[name] == seeds[name] {
      assert name !in rest;
    }
  }

  lemma {:induction false} RequestStops(op: Op, order: seq<string>, outcomes: string -> Outcome, seeds: Seeds)
    returns (k: nat)
    requires Walk(order, seeds)
    ensures StoppedAt(op, order, seeds, EditAll(op, order, outcomes, seeds).0, EditAll(op, order, outcomes, seeds).1, k)
    decreases order
  {
    var (after, error) := EditAll(op, order, outcomes, seeds);
    k := 0;
    if order != [] {
      var name, rest := order[0], order[1..];
      assert name !in rest;
      assert forall i :: 0 <= i < |rest| ==> rest[i] == order[i + 1];
      var edit := EditOf(op, seeds[name]);
      if edit.LeaveAlone? || (edit.Write? && outcomes(name) == Stored) {
        var next := if edit.Write? then seeds[name := Metering(Some(edit.reports))] else seeds;
        var j := RequestStops(op, rest, outcomes, next);
        k := j + 1;
        OneSeedFurther(op, order, seeds, next, after, error, j);
      }
    }
  }

  lemma UpdatedConfigIs(rules: Rules, u: UpdateRequest, before: ReportConfig)
    requires ValidUpdate(rules, u)
    ensures IsUpdated(u, before, UpdatedConfig(u, before))
  {
  }

  lemma UpdatedSeed(rules: Rules, u: UpdateRequest, seed: Seed)
    requires ValidUpdate(rules, u) && !EditOf(Update(u), seed).Refuse?
    ensures var before, after := View(seed), View(Edited(Update(u), seed));
            && u.name in before && u.name in after && IsUpdated(u, before[u.name], after[u.name])
            && after - {u.name} == before - {u.name}
  {
    UpdatedConfigIs(rules, u, View(seed)[u.name]);
  }

  /** After a successful update every seed holds the updated report, and its other reports as before. */
  lemma UpdateLeaves(rules: Rules, u: UpdateRequest, order: seq<string>, outcomes: string -> Outcome, seeds: Seeds,
                     name: string)
    requires FullWalk(order, seeds) && ValidUpdate(rules, u) && name in seeds
    requires EditAll(Update(u), order, outcomes, seeds).1.None?
    ensures name in EditAll(Update(u), order, outcomes, seeds).0
    ensures var before, after := View(seeds[name]), View(EditAll(Update(u), order, outcomes, seeds).0[name]);
            && u.name in before && u.name in after && IsUpdated(u, before[u.name], after[u.name])
            && after - {u.name} == before - {u.name}
  {
    var after := EditAll(Update(u), order, outcomes, seeds).0;
    assert name in after && !EditOf(Update(u), seeds[name]).Refuse? && after[name] == Edited(Update(u), seeds[name])
    by {
      var k := RequestStops(Update(u), order, outcomes, seeds);
      var i :| 0 <= i < |order| && order[i] == name;
    }
    UpdatedSeed(rules, u, seeds[name]);
  }

  /** A delete succeeds exactly when every seed lets it through. */
  lemma DeleteSucceedsIff(target: string, order: seq<string>, outcomes: string -> Outcome, seeds: Seeds)
    requires Walk(order, seeds)
    ensures EditAll(Delete(target), order, outcomes, seeds).1.None?
            <==> forall i :: 0 <= i < |order| ==> CanDelete(target, seeds[order[i]], outcomes(order[i]))
  {
    SucceedsIff(Delete(target), order, outcomes, seeds);
    forall i | 0 <= i < |order|
      ensures Passes(Delete(target), seeds[order[i]], outcomes(order[i]))
              <==> CanDelete(target, seeds[order[i]], outcomes(order[i]))
    {
    }
  }

  /** The stored seeds and the three requests that change them. */
  class SeedStore {
    var seeds: Seeds

    constructor (initial: Seeds)
      ensures seeds == initial
    {
      seeds := initial;
    }

    method UpdateSeed(name: string, reports: Reports, outcome: Outcome) returns (ok: bool)
      requires name in seeds
      modifies this
      ensures ok <==> outcome == Stored
      ensures seeds == if outcome == Lost then old(seeds) else old(seeds)[name := Metering(Some(reports))]
    {
      if outcome != Lost {
        seeds := seeds[name := Metering(Some(reports))];
      }
      ok := outcome == Stored;
    }

    method CreateOnSeed(c: CreateRequest, name: string, outcome: Outcome) returns (r: Result<ReportConfig, Error>)
      requires name in seeds
      modifies this
      ensures match EditOf(Create(c), old(seeds)[name])
              case Refuse(e) => r == Failure(e) && seeds == old(seeds)
              case LeaveAlone => false
              case Write(reports) =>
                && seeds == (if outcome == Lost then old(seeds) else old(seeds)[name := Metering(Some(reports))])
                && r == if outcome == Stored then Success(NewConfig(c)) else Failure(WriteFailed)
    {
      var seed := seeds[name];
      if seed.NoMetering? {
        return Failure(NoMeteringConfig);
      }
      var reports: Reports := if seed.reports.None? then map[] else seed.reports.value;
      if c.name in reports {
        return Failure(AlreadyExists);
      }
      var types := REPORT_TYPES;
      if c.types.Some? && |c.types.value| > 0 {
        types := c.types.value;
      }
      var retention: Option<nat> := None;
      if c.retention.Some? {
        retention := Some(ToUint32(c.retention.value));
      }
      reports := reports[c.name := ReportConfig(c.schedule, ToUint32(c.interval), retention, types)];
      var ok := UpdateSeed(name, reports, outcome);
      return if ok then Success(reports[c.name]) else Failure(WriteFailed);
    }

    method UpdateOnSeed(u: UpdateRequest, name: string, outcome: Outcome) returns (r: Result<ReportConfig, Error>)
      requires name in seeds
      modifies this
      ensures match EditOf(Update(u), old(seeds)[name])
              case Refuse(e) => r == Failure(e) && seeds == old(seeds)
              case LeaveAlone => false
              case Write(reports) =>
                && u.name in reports
                && seeds == (if outcome == Lost then old(seeds) else old(seeds)[name := Metering(Some(reports))])
                && r == if outcome == Stored then Success(reports[u.name]) else Failure(WriteFailed)
    {
      var seed := seeds[name];
      if seed.NoMetering? || seed.reports.None? {
        return Failure(NoReportMap);
      }
      var reports := seed.reports.value;
      if u.name !in reports {
        return Failure(NotFound);
      }
      var config := reports[u.name];
      if u.schedule != "" {
        config := config.(schedule := u.schedule);
      }
      if u.interval.Some? && u.interval.value >= 1 {
        config := config.(interval := ToUint32(u.interval.value));
      }
      if u.retention.None? {
        config := config.(retention := None);
      } else if u.retention.value >= 1 {
        config := config.(retention := Some(ToUint32(u.retention.value)));
      }
      if u.types.Some? && |u.types.value| > 0 {
        config := config.(types := u.types.value);
      }
      reports := reports[u.name := config];
      var ok := UpdateSeed(name, reports, outcome);
      return if ok then Success(reports[u.name]) else Failure(WriteFailed);
    }

    method DeleteOnSeed(target: string, name: string, outcome: Outcome) returns (error: Option<Error>)
      requires name in seeds
      modifies this
      ensures match EditOf(Delete(target), old(seeds)[name])
              case Refuse(e) => error == Some(e) && seeds == old(seeds)
              case LeaveAlone => error == None && seeds == old(seeds)
              case Write(reports) =>
                && seeds == (if outcome == Lost then old(seeds) else old(seeds)[name := Metering(Some(reports))])
                && error == if outcome == Stored then None else Some(WriteFailed)
    {
      var seed := seeds[name];
      if seed.NoMetering? || seed.reports.None? {
        return Some(NoReportMap);
      }
      if target !in seed.reports.value {
        return None;
      }
      var ok := UpdateSeed(name, seed.reports.value - {target}, outcome);
      return if ok then None else Some(WriteFailed);
    }

    method CreateOnAllSeeds(c: CreateRequest, order: seq<string>, outcomes: string -> Outcome)
      returns (r: Result<Option<ReportConfig>, Error>)
      requires Walk(order, seeds)
      modifies this
      ensures seeds == EditAll(Create(c), order, outcomes, old(seeds)).0
      ensures r == match EditAll(Create(c), order, outcomes, old(seeds)).1
                   case Some(e) => Failure(e)
                   case None => Success(if order == [] then None else Some(NewConfig(c)))
    {
      var conf: Option<ReportConfig> := None;
      var i := 0;
      assert order[0..] == order;
      while i < |order|
        invariant 0 <= i <= |order|
        invariant Walk(order[i..], seeds) && seeds.Keys == old(seeds).Keys
        invariant EditAll(Create(c), order[i..], outcomes, seeds) == EditAll(Create(c), order, outcomes, old(seeds))
        invariant conf == if i == 0 then None else Some(NewConfig(c))
      {
        assert order[i..][1..] == order[i + 1..];
        var result := CreateOnSeed(c, order[i], outcomes(order[i]));
        if result.Failure? {
          return Failure(result.error);
        }
        conf := Some(result.value);
        i := i + 1;
      }
      assert order[i..] == [];
      return Success(conf);
    }

    method CreateMeteringReportConfiguration(rules: Rules, c: CreateRequest, order: seq<string>,
                                             outcomes: string -> Outcome)
      returns (r: Result<Option<ReportConfig>, Error>)
      requires FullWalk(order, seeds)
      modifies this
      ensures !ValidCreate(rules, c) ==> r == Failure(BadRequest) && seeds == old(seeds)
      ensures ValidCreate(rules, c) ==>
                && seeds == EditAll(Create(c), order, outcomes, old(seeds)).0
                && r == match EditAll(Create(c), order, outcomes, old(seeds)).1
                        case Some(e) => Failure(e)
                        case None => Success(if order == [] then None else Some(NewConfig(c)))
      ensures r.Success? <==>
                && ValidCreate(rules, c)
                && forall i :: 0 <= i < |order| ==> CanCreate(c, old(seeds)[order[i]], outcomes(order[i]))
      ensures r.Success? ==> (r.value.None? <==> order == []) && (order != [] ==> IsCreated(c, r.value.value))
    {
      var valid := ValidateCreate(rules, c);
      if !valid {
        return Failure(BadRequest);
      }
      CreateSucceedsIff(c, order, outcomes, seeds);
      CreatedConfig(rules, c);
      r := CreateOnAllSeeds(c, order, outcomes);
    }

    method UpdateOnAllSeeds(u: UpdateRequest, order: seq<string>, outcomes: string -> Outcome)
      returns (r: Result<Option<ReportConfig>, Error>)
      requires Walk(order, seeds)
      modifies this
      ensures seeds.Keys == old(seeds).Keys
      ensures seeds == EditAll(Update(u), order, outcomes, old(seeds)).0
      ensures r == match EditAll(Update(u), order, outcomes, old(seeds)).1
                   case Some(e) => Failure(e)
                   case None => Success(if order == [] then None else ConfigOn(seeds[order[|order| - 1]], u.name))
    {
      var conf: Option<ReportConfig> := None;
      var i := 0;
      assert order[0..] == order;
      while i < |order|
        invariant 0 <= i <= |order|
        invariant Walk(order[i..], seeds) && seeds.Keys == old(seeds).Keys
        invariant EditAll(Update(u), order[i..], outcomes, seeds) == EditAll(Update(u), order, outcomes, old(seeds))
        invariant forall k :: 0 <= k < |order| ==> order[k] in seeds
        invariant conf == if i == 0 then None else ConfigOn(seeds[order[i - 1]], u.name)
      {
        assert order[i..][1..] == order[i + 1..];
        var result := UpdateOnSeed(u, order[i], outcomes(order[i]));
        if result.Failure? {
          return Failure(result.error);
        }
        conf := Some(result.value);
        i := i + 1;
      }
      assert order[i..] == [];
      return Success(conf);
    }

    method UpdateMeteringReportConfiguration(rules: Rules, u: UpdateRequest, order: seq<string>,
                                             outcomes: string -> Outcome)
      returns (r: Result<Option<ReportConfig>, Error>)
      requires FullWalk(order, seeds)
      modifies this
      ensures !ValidUpdate(rules, u) ==> r == Failure(BadRequest) && seeds == old(seeds)
      ensures ValidUpdate(rules, u) ==>
                && seeds.Keys == old(seeds).Keys
                && seeds == EditAll(Update(u), order, outcomes, old(seeds)).0
                && r == match EditAll(Update(u), order, outcomes, old(seeds)).1
                        case Some(e) => Failure(e)
                        case None => Success(if order == [] then None else ConfigOn(seeds[order[|order| - 1]], u.name))
      ensures r.Success? <==>
                && ValidUpdate(rules, u)
                && forall i :: 0 <= i < |order| ==> CanUpdate(u, old(seeds)[order[i]], outcomes(order[i]))
      ensures r.Success? && order != [] ==>
                var last := old(seeds)[order[|order| - 1]];
                u.name in View(last) && r.value.Some? && IsUpdated(u, View(last)[u.name], r.value.value)
    {
      var valid := ValidateUpdate(rules, u);
      if !valid {
        return Failure(BadRequest);
      }
      UpdateSucceedsIff(u, order, outcomes, seeds);
      ghost var before := seeds;
      r := UpdateOnAllSeeds(u, order, outcomes);
      if r.Success? && order != [] { UpdateLeaves(rules, u, order, outcomes, before, order[|order| - 1]); }
    }

    method DeleteOnAllSeeds(target: string, order: seq<string>, outcomes: string -> Outcome)
      returns (error: Option<Error>)
      requires Walk(order, seeds)
      modifies this
      ensures seeds == EditAll(Delete(target), order, outcomes, old(seeds)).0
      ensures error == EditAll(Delete(target), order, outcomes, old(seeds)).1
    {
      var i := 0;
      assert order[0..] == order;
      while i < |order|
        invariant 0 <= i <= |order|
        invariant Walk(order[i..], seeds) && seeds.Keys == old(seeds).Keys
        invariant EditAll(Delete(target), order[i..], outcomes, seeds)
               == EditAll(Delete(target), order, outcomes, old(seeds))
      {
        assert order[i..][1..] == order[i + 1..];
        error := DeleteOnSeed(target, order[i], outcomes(order[i]));
        if error.Some? {
          return error;
        }
        i := i + 1;
      }
      assert order[i..] == [];
      return None;
    }

    method DeleteMeteringReportConfiguration(target: string, order: seq<string>, outcomes: string -> Outcome)
      returns (error: Option<Error>)
      requires FullWalk(order, seeds)
      modifies this
      ensures seeds == EditAll(Delete(target), order, outcomes, old(seeds)).0
      ensures error == EditAll(Delete(target), order, outcomes, old(seeds)).1
      ensures error.None? <==>
                forall i :: 0 <= i < |order| ==> CanDelete(target, old(seeds)[order[i]], outcomes(order[i]))
    {
      DeleteSucceedsIff(target, order, outcomes, seeds);
      error := DeleteOnAllSeeds(target, order, outcomes);
    }

    // ----- reading -----

    method GetMeteringReportConfiguration(name: string, order: seq<string>) returns (r: Option<ReportConfig>)
      requires FullWalk(order, seeds)
      ensures r == Get(name, order, seeds)
    {
      var i := 0;
      assert order[0..] == order;
      while i < |order|
        invariant 0 <= i <= |order|
        invariant Get(name, order[i..], seeds) == Get(name, order, seeds)
      {
        assert order[i..][1..] == order[i + 1..];
        var seed := seeds[order[i]];
        if seed.Metering? && seed.reports.Some? {
          if name in seed.reports.value {
            return Some(seed.reports.value[name]);
          }
        }
        i := i + 1;
      }
      assert order[i..] == [];
      return None;
    }

    /** The entries of the first seed with metering, in no particular order. */
    method ListMeteringReportConfigurations(order: seq<string>) returns (resp: seq<(string, ReportConfig)>)
      requires FullWalk(order, seeds)
      ensures forall entry :: entry in resp <==>
                entry.0 in Listed(order, seeds) && Listed(order, seeds)[entry.0] == entry.1
      ensures |resp| == |Listed(order, seeds)|
    {
      resp := [];
      var i := 0;
      assert order[0..] == order;
      while i < |order|
        invariant 0 <= i <= |order|
        invariant resp == []
        invariant Listed(order[i..], seeds) == Listed(order, seeds)
      {
        assert order[i..][1..] == order[i + 1..];
        var seed := seeds[order[i]];
        if seed.Metering? {
          resp := Entries(View(seed));
          return;
        }
        i := i + 1;
      }
      assert order[i..] == [];
    }
  }

  // ----- what a request leaves behind, wherever it stops -----

  /** After a failure at any point, every seed holds its old or its intended reports. */
  lemma OldOrIntended(op: Op, order: seq<string>, outcomes: string -> Outcome, seeds: Seeds, name: string)
    requires FullWalk(order, seeds) && name in seeds
    ensures name in EditAll(op, order, outcomes, seeds).0
    ensures var after := EditAll(op, order, outcomes, seeds).0[name];
            after == seeds[name] || after == Edited(op, seeds[name])
  {
    var k := RequestStops(op, order, outcomes, seeds);
    var i :| 0 <= i < |order| && order[i] == name;
  }

  /** Only the named entry can differ, on any seed and after any failure. */
  lemma OnlyTheNamedEntry(op: Op, order: seq<string>, outcomes: string -> Outcome, seeds: Seeds, name: string,
                          other: string)
    requires FullWalk(order, seeds) && name in seeds && other != NameOf(op)
    ensures name in EditAll(op, order, outcomes, seeds).0
    ensures var before, after := View(seeds[name]), View(EditAll(op, order, outcomes, seeds).0[name]);
            (other in after <==> other in before) && (other in before ==> after[other] == before[other])
  {
    OldOrIntended(op, order, outcomes, seeds, name);
  }

  /** The first seed that does not pass decides the error. */
  lemma {:induction false} FirstStopDecides(op: Op, order: seq<string>, outcomes: string -> Outcome, seeds: Seeds,
                                            k: nat)
    requires Walk(order, seeds) && k < |order|
    requires forall j :: 0 <= j < k ==> Passes(op, seeds[order[j]], outcomes(order[j]))
    requires !Passes(op, seeds[order[k]], outcomes(order[k]))
    ensures EditAll(op, order, outcomes, seeds).1
         == match EditOf(op, seeds[order[k]])
            case Refuse(e) => Some(e)
            case _ => Some(WriteFailed)
    decreases order
  {
    if k > 0 {
      var rest := order[1..];
      assert forall i :: 0 <= i < |rest| ==> rest[i] == order[i + 1];
      assert order[0] !in rest;
      var next := seeds[order[0] := Edited(op, seeds[order[0]])];
      assert Passes(op, seeds[order[0]], outcomes(order[0]));
      if EditOf(op, seeds[order[0]]).LeaveAlone? { assert next == seeds; }
      FirstStopDecides(op, rest, outcomes, next, k - 1);
      assert EditAll(op, order, outcomes, seeds) == EditAll(op, rest, outcomes, next);
    }
  }

  // ----- when each request succeeds, and what it leaves -----

  /** The first seed that does not let a create through decides the error. */
  lemma CreateStopsWith(c: CreateRequest, order: seq<string>, outcomes: string -> Outcome, seeds: Seeds, k: nat)
    requires Walk(order, seeds) && k < |order|
    requires forall j :: 0 <= j < k ==> CanCreate(c, seeds[order[j]], outcomes(order[j]))
    requires !CanCreate(c, seeds[order[k]], outcomes(order[k]))
    ensures EditAll(Create(c), order, outcomes, seeds).1
         == Some(if seeds[order[k]].NoMetering? then NoMeteringConfig
                 else if c.name in View(seeds[order[k]]) then AlreadyExists else WriteFailed)
  {
    forall j | 0 <= j < k ensures Passes(Create(c), seeds[order[j]], outcomes(order[j])) {
      assert CanCreate(c, seeds[order[j]], outcomes(order[j]));
    }
    FirstStopDecides(Create(c), order, outcomes, seeds, k);
  }

  /** After a successful create every seed holds the report that the request describes, and what it held before. */
  lemma CreateLeaves(rules: Rules, c: CreateRequest, order: seq<string>, outcomes: string -> Outcome, seeds: Seeds,
                     name: string)
    requires FullWalk(order, seeds) && ValidCreate(rules, c) && name in seeds
    requires EditAll(Create(c), order, outcomes, seeds).1.None?
    ensures name in EditAll(Create(c), order, outcomes, seeds).0
    ensures var before, after := View(seeds[name]), View(EditAll(Create(c), order, outcomes, seeds).0[name]);
            && c.name !in before && c.name in after && IsCreated(c, after[c.name])
            && after - {c.name} == before
  {
    var k := RequestStops(Create(c), order, outcomes, seeds);
    var i :| 0 <= i < |order| && order[i] == name;
    CreatedConfig(rules, c);
  }

  /** The first seed that does not let an update through decides the error. */
  lemma UpdateStopsWith(u: UpdateRequest, order: seq<string>, outcomes: string -> Outcome, seeds: Seeds, k: nat)
    requires Walk(order, seeds) && k < |order|
    requires forall j :: 0 <= j < k ==> CanUpdate(u, seeds[order[j]], outcomes(order[j]))
    requires !CanUpdate(u, seeds[order[k]], outcomes(order[k]))
    ensures EditAll(Update(u), order, outcomes, seeds).1
         == Some(if seeds[order[k]].NoMetering? || seeds[order[k]].reports.None? then NoReportMap
                 else if u.name !in View(seeds[order[k]]) then NotFound else WriteFailed)
  {
    forall j | 0 <= j < k ensures Passes(Update(u), seeds[order[j]], outcomes(order[j])) {
      assert CanUpdate(u, seeds[order[j]], outcomes(order[j]));
    }
    FirstStopDecides(Update(u), order, outcomes, seeds, k);
  }

  /** The first seed that does not let a delete through decides the error. */
  lemma DeleteStopsWith(target: string, order: seq<string>, outcomes: string -> Outcome, seeds: Seeds, k: nat)
    requires Walk(order, seeds) && k < |order|
    requires forall j :: 0 <= j < k ==> CanDelete(target, seeds[order[j]], outcomes(order[j]))
    requires !CanDelete(target, seeds[order[k]], outcomes(order[k]))
    ensures EditAll(Delete(target), order, outcomes, seeds).1
         == Some(if seeds[order[k]].NoMetering? || seeds[order[k]].reports.None? then NoReportMap else WriteFailed)
  {
    forall j | 0 <= j < k ensures Passes(Delete(target), seeds[order[j]], outcomes(order[j])) {
      assert CanDelete(target, seeds[order[j]], outcomes(order[j]));
    }
    FirstStopDecides(Delete(target), order, outcomes, seeds, k);
  }

  /** What a successful request makes of the common reports. */
  function Intended(op: Op, common: Reports): Reports
  {
    match op
    case Create(c) => common[c.name := NewConfig(c)]
    case Update(u) => if u.name in common then common[u.name := UpdatedConfig(u, common[u.name])] else common
    case Delete(target) => common - {target}
  }

  lemma EditedView(op: Op, seed: Seed)
    requires !EditOf(op, seed).Refuse?
    ensures View(Edited(op, seed)) == Intended(op, View(seed))
  {
    if op.Delete? && op.target !in View(seed) {
      assert View(seed) - {op.target} == View(seed);
    }
  }

  /** After a successful delete every seed is without the report, and has its other reports as before. */
  lemma DeleteLeaves(target: string, order: seq<string>, outcomes: string -> Outcome, seeds: Seeds, name: string)
    requires FullWalk(order, seeds) && name in seeds
    requires EditAll(Delete(target), order, outcomes, seeds).1.None?
    ensures name in EditAll(Delete(target), order, outcomes, seeds).0
    ensures var before, after := View(seeds[name]), View(EditAll(Delete(target), order, outcomes, seeds).0[name]);
            after == before - {target}
  {
    var k := RequestStops(Delete(target), order, outcomes, seeds);
    var i :| 0 <= i < |order| && order[i] == name;
    EditedView(Delete(target), seeds[name]);
  }

  // ----- replicas that agree -----

  predicate Agree(seeds: Seeds, common: Reports)
  {
    forall name :: name in seeds ==> View(seeds[name]) == common
  }

  /** A successful request keeps the replicas equal, in whatever order it walks the seeds: to the common
      reports with the named entry created, updated or deleted, and no other entry changed. */
  lemma SuccessKeepsAgreement(op: Op, order: seq<string>, outcomes: string -> Outcome, seeds: Seeds, common: Reports)
    requires FullWalk(order, seeds) && Agree(seeds, common)
    requires EditAll(op, order, outcomes, seeds).1.None?
    ensures Agree(EditAll(op, order, outcomes, seeds).0, Intended(op, common))
    ensures Intended(op, common) - {NameOf(op)} == common - {NameOf(op)}
    ensures op.Delete? ==> NameOf(op) !in Intended(op, common)
    ensures seeds != map[] && op.Create? ==>
              NameOf(op) !in common && Intended(op, common) == common[NameOf(op) := NewConfig(op.c)]
    ensures seeds != map[] && op.Update? ==>
              && NameOf(op) in common
              && Intended(op, common) == common[NameOf(op) := UpdatedConfig(op.u, common[NameOf(op)])]
  {
    var after := EditAll(op, order, outcomes, seeds).0;
    var k := RequestStops(op, order, outcomes, seeds);
    forall name | name in after ensures View(after[name]) == Intended(op, common) {
      var i :| 0 <= i < |order| && order[i] == name;
      EditedView(op, seeds[name]);
    }
    if seeds != map[] {
      var name :| name in seeds;
      var i :| 0 <= i < |order| && order[i] == name;
      assert !EditOf(op, seeds[order[i]]).Refuse?;
    }
  }

  predicate MapsExist(seeds: Seeds)
  {
    forall name :: name in seeds ==> seeds[name].Metering? && seeds[name].reports.Some?
  }

  function AllStored(): string -> Outcome { (name: string) => Stored }

  /** Requests never take a report map away. */
  lemma MapsStay(op: Op, order: seq<string>, outcomes: string -> Outcome, seeds: Seeds)
    requires FullWalk(order, seeds) && MapsExist(seeds)
    ensures MapsExist(EditAll(op, order, outcomes, seeds).0)
    ensures EditAll(op, order, outcomes, seeds).0.Keys == seeds.Keys
  {
    var k := RequestStops(op, order, outcomes, seeds);
    forall name | name in seeds
      ensures var after := EditAll(op, order, outcomes, seeds).0[name]; after.Metering? && after.reports.Some?
    {
      OldOrIntended(op, order, outcomes, seeds, name);
    }
  }

  lemma WithoutTheEntry(op: Op, order: seq<string>, outcomes: string -> Outcome, seeds: Seeds, name: string)
    requires FullWalk(order, seeds) && name in seeds
    ensures name in EditAll(op, order, outcomes, seeds).0
    ensures View(EditAll(op, order, outcomes, seeds).0[name]) - {NameOf(op)} == View(seeds[name]) - {NameOf(op)}
  {
    OldOrIntended(op, order, outcomes, seeds, name);
  }

  /** On seeds with report maps, whatever a request on agreeing replicas left behind, one delete whose
      writes succeed makes them agree again: the common reports without the named entry. */
  lemma DeleteRecovers(op: Op, order: seq<string>, outcomes: string -> Outcome, seeds: Seeds, common: Reports,
                       again: seq<string>)
    requires FullWalk(order, seeds) && MapsExist(seeds) && Agree(seeds, common)
    requires FullWalk(again, EditAll(op, order, outcomes, seeds).0)
    ensures var broken := EditAll(op, order, outcomes, seeds).0;
            var (clean, error) := EditAll(Delete(NameOf(op)), again, AllStored(), broken);
            error.None? && clean.Keys == seeds.Keys && Agree(clean, common - {NameOf(op)})
  {
    var broken := EditAll(op, order, outcomes, seeds).0;
    MapsStay(op, order, outcomes, seeds);
    DeleteSucceedsIff(NameOf(op), again, AllStored(), broken);
    var clean := EditAll(Delete(NameOf(op)), again, AllStored(), broken).0;
    var k := RequestStops(Delete(NameOf(op)), again, AllStored(), broken);
    forall name | name in clean ensures View(clean[name]) == common - {NameOf(op)} {
      var i :| 0 <= i < |again| && again[i] == name;
      EditedView(Delete(NameOf(op)), broken[name]);
      WithoutTheEntry(op, order, outcomes, seeds, name);
    }
  }

  predicate Cleared(seeds: Seeds, target: string)
  {
    forall name :: name in seeds ==> target !in View(seeds[name])
  }

  lemma DeleteClears(target: string, order: seq<string>, seeds: Seeds)
    requires FullWalk(order, seeds) && (MapsExist(seeds) || Cleared(seeds, target))
    ensures Cleared(EditAll(Delete(target), order, AllStored(), seeds).0, target)
  {
    var after := EditAll(Delete(target), order, AllStored(), seeds).0;
    var k := RequestStops(Delete(target), order, AllStored(), seeds);
    DeleteSucceedsIff(target, order, AllStored(), seeds);
    forall name | name in after ensures target !in View(after[name]) {
      var i :| 0 <= i < |order| && order[i] == name;
      OldOrIntended(Delete(target), order, AllStored(), seeds, name);
    }
  }

  lemma {:induction false} WalkOver(names: set<string>) returns (order: seq<string>)
    ensures Distinct(order) && forall name :: name in order <==> name in names
  {
    order := [];
    if names != {} {
      var name :| name in names;
      var rest := WalkOver(names - {name});
      order := [name] + rest;
    }
  }

  /** Some walk over all seeds starts at any given one. */
  lemma WalkFrom(first: string, seeds: Seeds) returns (order: seq<string>)
    requires first in seeds
    ensures FullWalk(order, seeds) && order != [] && order[0] == first
  {
    var rest := WalkOver(seeds.Keys - {first});
    order := [first] + rest;
    forall i | 0 <= i < |order| ensures order[i] in seeds {
      if i > 0 { assert order[i] == rest[i - 1] && rest[i - 1] in rest; }
    }
  }

  /** One delete whose writes succeed clears the entry in every order of the seeds if and only if every
      seed has a report map or no seed has the entry: a seed without a map stops the walk. */
  lemma DeleteClearsIff(target: string, seeds: Seeds)
    ensures (forall order :: FullWalk(order, seeds) ==>
               Cleared(EditAll(Delete(target), order, AllStored(), seeds).0, target))
            <==> MapsExist(seeds) || Cleared(seeds, target)
  {
    if MapsExist(seeds) || Cleared(seeds, target) {
      forall order | FullWalk(order, seeds)
        ensures Cleared(EditAll(Delete(target), order, AllStored(), seeds).0, target)
      {
        DeleteClears(target, order, seeds);
      }
    } else {
      var bad :| bad in seeds && !(seeds[bad].Metering? && seeds[bad].reports.Some?);
      var order := WalkFrom(bad, seeds);
      assert EditOf(Delete(target), seeds[order[0]]).Refuse?;
      assert EditAll(Delete(target), order, AllStored(), seeds).0 == seeds;
    }
  }

  /** A seed without a report map hides the entry of the next seed from the delete. */
  lemma DeleteCanMiss(target: string, config: ReportConfig)
    ensures
      var seeds: Seeds := map["a" := Metering(None), "b" := Metering(Some(map[target := config]))];
      && FullWalk(["a", "b"], seeds) && !Cleared(seeds, target)
      && EditAll(Delete(target), ["a", "b"], AllStored(), seeds) == (seeds, Some(NoReportMap))
  {
    var seeds: Seeds := map["a" := Metering(None), "b" := Metering(Some(map[target := config]))];
    assert target in View(seeds["b"]);
  }

  // ----- reading -----

  /** Get answers from the first seed of the walk that has the entry. */
  lemma {:induction false} GetIsFirst(name: string, order: seq<string>, seeds: Seeds)
    requires Walk(order, seeds)
    ensures Get(name, order, seeds).None? <==> forall i :: 0 <= i < |order| ==> name !in View(seeds[order[i]])
    ensures forall k :: 0 <= k < |order| && name in View(seeds[order[k]])
                        && (forall j :: 0 <= j < k ==> name !in View(seeds[order[j]])) ==>
              Get(name, order, seeds) == Some(View(seeds[order[k]])[name])
    decreases order
  {
    if order != [] && name !in View(seeds[order[0]]) {
      var rest := order[1..];
      assert forall i :: 0 <= i < |rest| ==> rest[i] == order[i + 1];
      assert forall i :: 1 <= i < |order| ==> order[i] == rest[i - 1];
      GetIsFirst(name, rest, seeds);
    }
  }

  /** List answers with the reports of the first seed of the walk that has metering, or with none. */
  lemma {:induction false} ListIsFirst(order: seq<string>, seeds: Seeds, k: nat)
    requires Walk(order, seeds) && k <= |order|
    requires forall j :: 0 <= j < k ==> seeds[order[j]].NoMetering?
    ensures k < |order| && seeds[order[k]].Metering? ==> Listed(order, seeds) == View(seeds[order[k]])
    ensures k == |order| ==> Listed(order, seeds) == map[]
    decreases order
  {
    if k > 0 {
      assert forall j :: 0 <= j < |order| - 1 ==> order[1..][j] == order[j + 1];
      ListIsFirst(order[1..], seeds, k - 1);
    }
  }

  // ----- reading agreeing replicas -----

  lemma {:induction false} GetFromAgreeing(name: string, order: seq<string>, seeds: Seeds, common: Reports)
    requires Walk(order, seeds) && Agree(seeds, common) && order != []
    ensures Get(name, order, seeds) == if name in common then Some(common[name]) else None
    decreases order
  {
    if name !in common && order[1..] != [] {
      GetFromAgreeing(name, order[1..], seeds, common);
    }
  }

  lemma {:induction false} ListFromAgreeing(order: seq<string>, seeds: Seeds, common: Reports)
    requires Walk(order, seeds) && Agree(seeds, common) && order != []
    ensures Listed(order, seeds) == common
    decreases order
  {
    assert View(seeds[order[0]]) == common;
    if seeds[order[0]].NoMetering? && order[1..] != [] {
      ListFromAgreeing(order[1..], seeds, common);
    }
  }

  /** While replicas agree, Get finds a name if and only if List has it, with the same configuration,
      whatever orders the two walks take. */
  lemma GetMatchesList(name: string, a: seq<string>, b: seq<string>, seeds: Seeds, common: Reports)
    requires FullWalk(a, seeds) && FullWalk(b, seeds) && Agree(seeds, common)
    ensures Get(name, a, seeds) == if name in Listed(b, seeds) then Some(Listed(b, seeds)[name]) else None
  {
    if a != [] {
      assert a[0] in b;
      GetFromAgreeing(name, a, seeds, common);
      ListFromAgreeing(b, seeds, common);
    }
  }

  predicate HoldersAgree(name: string, seeds: Seeds)
  {
    forall x, y :: x in seeds && y in seeds && name in View(seeds[x]) && name in View(seeds[y]) ==>
      View(seeds[x])[name] == View(seeds[y])[name]
  }

  lemma {:induction false} GetFindsHolder(name: string, order: seq<string>, seeds: Seeds)
    requires Walk(order, seeds)
    ensures Get(name, order, seeds).None? ==> forall seed :: seed in order ==> name !in View(seeds[seed])
    ensures Get(name, order, seeds).Some? ==>
              exists seed :: seed in order && name in View(seeds[seed])
                             && View(seeds[seed])[name] == Get(name, order, seeds).value
    decreases order
  {
    if order != [] {
      assert order[0] in order;
      if name !in View(seeds[order[0]]) {
        GetFindsHolder(name, order[1..], seeds);
        assert forall seed :: seed in order <==> seed == order[0] || seed in order[1..];
      }
    }
  }

  /** Get is the same in every order if and only if the seeds that have the entry have it alike. */
  lemma GetIgnoresOrderIff(name: string, seeds: Seeds)
    ensures (forall a, b :: FullWalk(a, seeds) && FullWalk(b, seeds) ==> Get(name, a, seeds) == Get(name, b, seeds))
            <==> HoldersAgree(name, seeds)
  {
    if HoldersAgree(name, seeds) {
      forall a, b | FullWalk(a, seeds) && FullWalk(b, seeds) ensures Get(name, a, seeds) == Get(name, b, seeds) {
        GetFindsHolder(name, a, seeds);
        GetFindsHolder(name, b, seeds);
      }
    } else {
      var x, y :| x in seeds && y in seeds && name in View(seeds[x]) && name in View(seeds[y])
                  && View(seeds[x])[name] != View(seeds[y])[name];
      var a := WalkFrom(x, seeds);
      var b := WalkFrom(y, seeds);
      assert Get(name, a, seeds) != Get(name, b, seeds);
    }
  }

  /** Two seeds that hold different configurations, as a partly failed update leaves them. */
  lemma GetCanDependOnOrder(name: string, c: ReportConfig, d: ReportConfig)
    ensures
      var seeds: Seeds := map["a" := Metering(Some(map[name := c])), "b" := Metering(Some(map[name := d]))];
      && FullWalk(["a", "b"], seeds) && Get(name, ["a", "b"], seeds) == Some(c)
      && FullWalk(["b", "a"], seeds) && Get(name, ["b", "a"], seeds) == Some(d)
  {
  }

  // ----- stored configurations stay well formed -----

  /** What every stored configuration satisfies. */
  predicate WellFormed(rules: Rules, c: ReportConfig)
  {
    && 1 <= c.interval < TWO_TO_31
    && (c.retention.Some? ==> 1 <= c.retention.value < TWO_TO_31)
    && c.types != []
    && (forall i :: 0 <= i < |c.types| ==> c.types[i] in REPORT_TYPES)
    && rules.validSchedule(c.schedule)
  }

  predicate AllWellFormed(rules: Rules, seeds: Seeds)
  {
    forall name, report :: name in seeds && report in View(seeds[name]) ==>
      rules.validName(report) && WellFormed(rules, View(seeds[name])[report])
  }

  predicate Accepted(rules: Rules, op: Op)
  {
    match op
    case Create(c) => ValidCreate(rules, c)
    case Update(u) => ValidUpdate(rules, u)
    case Delete(_) => true
  }

  /** For accepted requests the conversion to an unsigned number loses nothing. */
  lemma ConversionIsLossless(rules: Rules, c: CreateRequest, u: UpdateRequest, current: ReportConfig)
    requires ValidCreate(rules, c) && ValidUpdate(rules, u)
    ensures NewConfig(c).interval == c.interval
    ensures NewConfig(c).retention == if c.retention.None? then None else Some(c.retention.value)
    ensures UpdatedConfig(u, current).interval == if u.interval.None? then current.interval else u.interval.value
    ensures UpdatedConfig(u, current).retention == if u.retention.None? then None else Some(u.retention.value)
  {
  }

  lemma EditKeepsWellFormed(rules: Rules, op: Op, seed: Seed)
    requires Accepted(rules, op)
    requires forall report :: report in View(seed) ==> rules.validName(report) && WellFormed(rules, View(seed)[report])
    ensures forall report :: report in View(Edited(op, seed)) ==>
              rules.validName(report) && WellFormed(rules, View(Edited(op, seed))[report])
  {
    match op
    case Create(c) => assert WellFormed(rules, NewConfig(c));
    case Update(u) =>
      if u.name in View(seed) { assert WellFormed(rules, UpdatedConfig(u, View(seed)[u.name])); }
    case Delete(_) =>
  }

  datatype Request = Request(op: Op, order: seq<string>, outcomes: string -> Outcome)

  /** The stored seeds after a list of requests; invalid requests and walks that do not fit the seeds
      change nothing. */
  function AfterRequests(rules: Rules, seeds: Seeds, requests: seq<Request>): Seeds
  {
    if requests == [] then seeds
    else
      var before := AfterRequests(rules, seeds, requests[..|requests| - 1]);
      var r := requests[|requests| - 1];
      if Accepted(rules, r.op) && FullWalk(r.order, before)
      then EditAll(r.op, r.order, r.outcomes, before).0 else before
  }

  lemma RequestKeepsWellFormed(rules: Rules, seeds: Seeds, r: Request)
    requires AllWellFormed(rules, seeds) && Accepted(rules, r.op) && FullWalk(r.order, seeds)
    ensures AllWellFormed(rules, EditAll(r.op, r.order, r.outcomes, seeds).0)
  {
    var after := EditAll(r.op, r.order, r.outcomes, seeds).0;
    var k := RequestStops(r.op, r.order, r.outcomes, seeds);
    forall name, report | name in after && report in View(after[name])
      ensures rules.validName(report) && WellFormed(rules, View(after[name])[report])
    {
      OldOrIntended(r.op, r.order, r.outcomes, seeds, name);
      EditKeepsWellFormed(rules, r.op, seeds[name]);
    }
  }

  /** In every state that requests reach from well-formed seeds, whatever writes fail, every stored
      configuration is well formed. */
  lemma {:induction false} StoredConfigsStayWellFormed(rules: Rules, seeds: Seeds, requests: seq<Request>)
    requires AllWellFormed(rules, seeds)
    ensures AllWellFormed(rules, AfterRequests(rules, seeds, requests))
  {
    if requests != [] {
      var before := AfterRequests(rules, seeds, requests[..|requests| - 1]);
      var r := requests[|requests| - 1];
      StoredConfigsStayWellFormed(rules, seeds, requests[..|requests| - 1]);
      if Accepted(rules, r.op) && FullWalk(r.order, before) {
        RequestKeepsWellFormed(rules, before, r);
      }
    }
  }
}
