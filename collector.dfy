/** The collector of collector.py: it discovers the boards of a chassis and their
    power sensors through a Redfish service, then stores each successful power or
    sensor reading under the time at which the loop handled it.

    The Redfish service is a function from resource path to response. Each
    response is a status code with an already-parsed JSON body. */
module Collector {
  import opened Errors
  import opened Text
  import opened Json

  const RedfishBase := "/redfish/v1"
  const HttpOk := 200

  /** Lower-cased chassis member names that are boards. */
  const BoardNames: set<string> := {"motherboard", "self", "gpu_board"}

  const ChassisPath := RedfishBase + "/Chassis"

  function BoardPath(board: string): string {
    Child(ChassisPath, board)
  }

  function SensorsPath(board: string): string {
    Child(BoardPath(board), "Sensors")
  }

  /** The document `get_power` fetches for a board. */
  function PowerPath(board: string): string {
    Child(BoardPath(board), "Power")
  }

  datatype Response = Response(status: int, body: Json)

  /** The Redfish service: the response to a GET of each resource path. */
  type Bmc = string -> Response

  /** `_redfish_get`: the body of a 200 response, and None for any other status. */
  function RedfishGet(r: Response): Option<Json> {
    if r.status == HttpOk then Some(r.body) else None
  }

  /** How a collector operation ended: normally, or by raising a Python exception. */
  datatype Outcome = Completed | Raised(fault: Fault)

  datatype Kind = Power

  /** A board's entry: its power readings by time. */
  datatype Board = Board(power: map<real, Json>)

  /** A sensor's entry: its resource path, its readings by time, and its kind. */
  datatype Sensor = Sensor(path: string, readings: map<real, Json>, kind: Kind)

  /** A Python dict's keys in insertion order: no repeats, and exactly the keys. */
  ghost predicate DictOrder<V>(m: map<string, V>, order: seq<string>) {
    && (forall i, j :: 0 <= i < j < |order| ==> order[i] != order[j])
    && (forall k :: k in m <==> k in order)
  }

  /** Changing a dict's values and not its keys keeps its iteration order. */
  lemma SameKeysKeepOrder<V>(m: map<string, V>, m': map<string, V>, order: seq<string>)
    requires DictOrder(m, order) && m.Keys == m'.Keys
    ensures DictOrder(m', order)
  {
    forall k ensures k in m' <==> k in order {
      assert k in m' <==> k in m'.Keys;
      assert k in m <==> k in m.Keys;
    }
  }

  // ---------------------------------------------------------------------------
  // init_boards

  /** `[member['@odata.id'] for member in members]`: the first failing member raises. */
  function MemberIds(members: seq<Json>): Result<seq<Json>> {
    if members == [] then Ok([])
    else
      match Subscript(members[0], "@odata.id")
      case Err(f) => Err(f)
      case Ok(id) =>
        match MemberIds(members[1..])
        case Err(f) => Err(f)
        case Ok(ids) => Ok([id] + ids)
  }

  /** The member ids of a chassis collection: `response_data['Members']` iterated. */
  function ChassisMemberIds(body: Json): Result<seq<Json>> {
    match Subscript(body, "Members")
    case Err(f) => Err(f)
    case Ok(members) =>
      match Iterate(members)
      case Err(f) => Err(f)
      case Ok(items) => MemberIds(items)
  }

  /** The member ids the registration loop handles before `Path(path)` meets a
      value that is not a string (and raises TypeError). */
  function LeadingPaths(ids: seq<Json>): (paths: seq<string>)
    ensures |paths| <= |ids|
    ensures forall i :: 0 <= i < |paths| ==> ids[i] == JStr(paths[i])
    ensures |paths| < |ids| ==> !ids[|paths|].JStr?
  {
    if ids == [] || !ids[0].JStr? then [] else [ids[0].s] + LeadingPaths(ids[1..])
  }

  /** A chassis member path that names a board. */
  predicate IsBoardPath(path: string) {
    Lower(Name(path)) in BoardNames
  }

  /** The board table after registering `paths` in order. */
  function BoardsAfter(m: map<string, Board>, paths: seq<string>): map<string, Board> {
    if paths == [] then m
    else
      var before := BoardsAfter(m, paths[..|paths| - 1]);
      var path := paths[|paths| - 1];
      if IsBoardPath(path) then before[Name(path) := Board(map[])] else before
  }

  /** The board table's insertion order after registering `paths` in order. */
  function OrderAfter(order: seq<string>, paths: seq<string>): seq<string> {
    if paths == [] then order
    else
      var before := OrderAfter(order, paths[..|paths| - 1]);
      var path := paths[|paths| - 1];
      if IsBoardPath(path) && Name(path) !in before then before + [Name(path)] else before
  }

  /** Some path in `paths` registers the board `key`: its name is `key` and the
      lower-cased `key` is on the allow-list. */
  ghost predicate Registers(paths: seq<string>, key: string) {
    Lower(key) in BoardNames && exists i :: 0 <= i < |paths| && Name(paths[i]) == key
  }

  /** Registration adds exactly the allow-listed names, keeps their case, gives each
      an empty power map (replacing an existing entry), and changes no other entry. */
  lemma {:induction false} BoardsAfterSpec(m: map<string, Board>, paths: seq<string>, key: string)
    ensures key in BoardsAfter(m, paths) <==> key in m || Registers(paths, key)
    ensures Registers(paths, key) ==> BoardsAfter(m, paths)[key] == Board(map[])
    ensures key in m && !Registers(paths, key) ==> BoardsAfter(m, paths)[key] == m[key]
    decreases |paths|
  {
    if paths != [] {
      BoardsAfterSpec(m, paths[..|paths| - 1], key);
      RegistersLast(paths, key);
    }
  }

  /** The last path registers `key`, or an earlier one does. */
  lemma RegistersLast(paths: seq<string>, key: string)
    requires paths != []
    ensures
      var last := paths[|paths| - 1];
      Registers(paths, key) <==>
        Registers(paths[..|paths| - 1], key) || (IsBoardPath(last) && key == Name(last))
  {
    var init, last := paths[..|paths| - 1], paths[|paths| - 1];
    if Registers(paths, key) && !(IsBoardPath(last) && key == Name(last)) {
      var i :| 0 <= i < |paths| && Name(paths[i]) == key;
      assert i < |init| && Name(init[i]) == key;
    }
    if Registers(init, key) {
      var i :| 0 <= i < |init| && Name(init[i]) == key;
      assert Name(paths[i]) == key;
    }
  }

  /** Registration keeps the insertion order in step with the board table. */
  lemma {:induction false} OrderAfterSpec(m: map<string, Board>, order: seq<string>, paths: seq<string>)
    requires DictOrder(m, order)
    ensures DictOrder(BoardsAfter(m, paths), OrderAfter(order, paths))
    ensures order <= OrderAfter(order, paths)
    decreases |paths|
  {
    if paths != [] {
      OrderAfterSpec(m, order, paths[..|paths| - 1]);
    }
  }

  /** The index of the first path in `paths` that registers `key`, or -1 when none does. */
  function FirstRegistering(paths: seq<string>, key: string): (j: int)
    ensures -1 <= j < |paths|
    ensures j >= 0 ==> IsBoardPath(paths[j]) && Name(paths[j]) == key
    ensures j >= 0 ==> forall i :: 0 <= i < j ==> !(IsBoardPath(paths[i]) && Name(paths[i]) == key)
    ensures j == -1 ==> forall i :: 0 <= i < |paths| ==> !(IsBoardPath(paths[i]) && Name(paths[i]) == key)
  {
    if paths == [] then -1
    else
      var n := |paths| - 1;
      var before := FirstRegistering(paths[..n], key);
      if before >= 0 then before
      else if IsBoardPath(paths[n]) && Name(paths[n]) == key then n
      else -1
  }

  /** The insertion order after registration extends the old order with names not
      in it, and holds exactly the old names and those some path registers. */
  lemma {:induction false} OrderAfterMembers(order: seq<string>, paths: seq<string>)
    ensures order <= OrderAfter(order, paths)
    ensures forall k :: k in OrderAfter(order, paths) <==> k in order || FirstRegistering(paths, k) >= 0
    ensures forall i :: |order| <= i < |OrderAfter(order, paths)| ==>
      OrderAfter(order, paths)[i] !in order
    decreases |paths|
  {
    if paths != [] {
      var n := |paths| - 1;
      var init, path := paths[..n], paths[n];
      var before := OrderAfter(order, init);
      var r := OrderAfter(order, paths);
      OrderAfterMembers(order, init);
      forall k | FirstRegistering(init, k) >= 0
        ensures FirstRegistering(paths, k) == FirstRegistering(init, k)
      {
      }
      if IsBoardPath(path) && Name(path) !in before {
        var name := Name(path);
        assert r == before + [name];
        assert FirstRegistering(paths, name) == n;
        forall k ensures k in r <==> k in order || FirstRegistering(paths, k) >= 0 {
          assert k in r <==> k in before || k == name;
        }
      } else {
        assert r == before;
        forall k ensures k in r <==> k in order || FirstRegistering(paths, k) >= 0 {
          if FirstRegistering(paths, k) >= 0 && FirstRegistering(init, k) < 0 {
            assert k == Name(path) && IsBoardPath(path);
          }
        }
      }
    }
  }

  /** The newly registered names follow the old order in the order of the first
      path registering each, so each appears once. */
  lemma {:induction false} OrderAfterOrder(order: seq<string>, paths: seq<string>)
    ensures forall i, j :: |order| <= i < j < |OrderAfter(order, paths)| ==>
      0 <= FirstRegistering(paths, OrderAfter(order, paths)[i]) < FirstRegistering(paths, OrderAfter(order, paths)[j])
    decreases |paths|
  {
    if paths != [] {
      var n := |paths| - 1;
      var init, path := paths[..n], paths[n];
      var before := OrderAfter(order, init);
      var r := OrderAfter(order, paths);
      assert forall i :: |order| <= i < |before| ==>
        FirstRegistering(paths, before[i]) == FirstRegistering(init, before[i]) >= 0
      by {
        OrderAfterMembers(order, init);
        forall i | |order| <= i < |before|
          ensures FirstRegistering(paths, before[i]) == FirstRegistering(init, before[i]) >= 0
        {
          assert before[i] in before;
        }
      }
      if IsBoardPath(path) && Name(path) !in before {
        var name := Name(path);
        assert r == before + [name];
        assert FirstRegistering(init, name) == -1 by {
          OrderAfterMembers(order, init);
        }
        assert FirstRegistering(paths, name) == n;
      } else {
        assert r == before;
      }
      forall i, j | |order| <= i < j < |r|
        ensures 0 <= FirstRegistering(paths, r[i]) < FirstRegistering(paths, r[j])
      {
        assert r[i] == before[i];
        if j < |before| {
          assert r[j] == before[j];
          OrderAfterOrder(order, init);
        }
      }
    } else {
      assert OrderAfter(order, paths) == order;
    }
  }

  // ---------------------------------------------------------------------------
  // find_power_sensors

  /** `[s.get('@odata.id', '') for s in members]`: a member without an id gives "". */
  function SensorIds(members: seq<Json>): Result<seq<Json>> {
    if members == [] then Ok([])
    else
      match GetOr(members[0], "@odata.id", JStr(""))
      case Err(f) => Err(f)
      case Ok(id) =>
        match SensorIds(members[1..])
        case Err(f) => Err(f)
        case Ok(ids) => Ok([id] + ids)
  }

  /** `[s for s in sensors if 'pwr' in s.lower() or 'power' in s.lower()]`:
      it succeeds exactly when every id is a string, and then keeps exactly the ids
      that mention power. */
  function PowerPaths(ids: seq<Json>): (r: Result<seq<string>>)
    ensures r.Ok? <==> forall i :: 0 <= i < |ids| ==> ids[i].JStr?
    ensures r.Err? ==> r.fault == AttributeError
  {
    if ids == [] then Ok([])
    else if !ids[0].JStr? then Err(AttributeError)
    else
      match PowerPaths(ids[1..])
      case Err(f) => Err(f)
      case Ok(rest) => Ok((if MentionsPower(ids[0].s) then [ids[0].s] else []) + rest)
  }

  /** The power sensor paths of one board's sensor collection (collector.py:45-47).
      A failed GET gives None, whose `.get` raises AttributeError. */
  function BoardPowerSensors(doc: Option<Json>): Result<seq<string>> {
    match doc
    case None => Err(AttributeError)
    case Some(d) =>
      match GetOr(d, "Members", JObj([]))
      case Err(f) => Err(f)
      case Ok(members) =>
        match Iterate(members)
        case Err(f) => Err(f)
        case Ok(items) =>
          match SensorIds(items)
          case Err(f) => Err(f)
          case Ok(ids) => PowerPaths(ids)
  }

  /** The power sensor paths of the boards in `order`, board by board; the first
      board whose collection raises ends the search with that exception. */
  function PowerSensorPaths(bmc: Bmc, order: seq<string>): Result<seq<string>> {
    if order == [] then Ok([])
    else
      match PowerSensorPaths(bmc, order[..|order| - 1])
      case Err(f) => Err(f)
      case Ok(before) =>
        match BoardPowerSensors(RedfishGet(bmc(SensorsPath(order[|order| - 1]))))
        case Err(f) => Err(f)
        case Ok(found) => Ok(before + found)
  }

  /** The sensor table after registering `paths` in order: each entry is keyed by
      the last path segment and starts with no readings. */
  function SensorsAfter(m: map<string, Sensor>, paths: seq<string>): map<string, Sensor> {
    if paths == [] then m
    else
      var path := paths[|paths| - 1];
      SensorsAfter(m, paths[..|paths| - 1])[Name(path) := Sensor(path, map[], Power)]
  }

  /** The kept paths are exactly the ids that mention power, and no more of them
      than there were ids. */
  lemma {:induction false} PowerPathsKeep(ids: seq<Json>)
    requires PowerPaths(ids).Ok?
    ensures forall p :: p in PowerPaths(ids).value <==> JStr(p) in ids && MentionsPower(p)
    ensures |PowerPaths(ids).value| <= |ids|
    decreases |ids|
  {
    if ids != [] {
      PowerPathsKeep(ids[1..]);
      assert ids == [ids[0]] + ids[1..];
    }
  }

  /** Once a prefix of the boards raises, so does the whole search, with the same exception. */
  lemma {:induction false} PowerSensorPathsStopsAtError(bmc: Bmc, order: seq<string>, n: nat)
    requires n <= |order|
    requires PowerSensorPaths(bmc, order[..n]).Err?
    ensures PowerSensorPaths(bmc, order) == PowerSensorPaths(bmc, order[..n])
    decreases |order| - n
  {
    if n < |order| {
      assert order[..|order| - 1][..n] == order[..n];
      PowerSensorPathsStopsAtError(bmc, order[..|order| - 1], n);
    } else {
      assert order[..n] == order;
    }
  }

  /** Every sensor path found mentions power; so none of them is the "" of a
      member without an id. */
  lemma {:induction false} PowerSensorPathsMentionPower(bmc: Bmc, order: seq<string>)
    requires PowerSensorPaths(bmc, order).Ok?
    ensures forall p :: p in PowerSensorPaths(bmc, order).value ==> MentionsPower(p) && p != ""
    decreases |order|
  {
    EmptyIsNotPower();
    if order != [] {
      PowerSensorPathsMentionPower(bmc, order[..|order| - 1]);
      BoardPowerSensorsMentionPower(RedfishGet(bmc(SensorsPath(order[|order| - 1]))));
    }
  }

  lemma BoardPowerSensorsMentionPower(doc: Option<Json>)
    requires BoardPowerSensors(doc).Ok?
    ensures forall p :: p in BoardPowerSensors(doc).value ==> MentionsPower(p)
  {
    var members := GetOr(doc.value, "Members", JObj([])).value;
    var items := Iterate(members).value;
    PowerPathsKeep(SensorIds(items).value);
  }

  /** A sensor member without `@odata.id` yields "", which the power rule drops. */
  lemma MemberWithoutIdIsDropped(fields: seq<(string, Json)>)
    requires forall i :: 0 <= i < |fields| ==> fields[i].0 != "@odata.id"
    ensures SensorIds([JObj(fields)]) == Ok([JStr("")])
    ensures PowerPaths([JStr("")]) == Ok([])
  {
    EmptyIsNotPower();
    assert PowerPaths([JStr("")][1..]) == Ok([]);
    var none: seq<string> := [];
    assert none + none == none;
    assert Lookup(fields, "@odata.id").None?;
    assert [JObj(fields)][1..] == [];
    assert [JStr("")] + [] == [JStr("")];
    assert [JStr("")][1..] == [];
  }

  /** The power filter keeps member order: filtering two lists one after the
      other is filtering their concatenation. */
  lemma {:induction false} PowerPathsAppend(a: seq<Json>, b: seq<Json>)
    requires PowerPaths(a).Ok? && PowerPaths(b).Ok?
    ensures PowerPaths(a + b) == Ok(PowerPaths(a).value + PowerPaths(b).value)
    decreases |a|
  {
    if a != [] {
      assert (a + b)[0] == a[0];
      assert (a + b)[1..] == a[1..] + b;
      PowerPathsAppend(a[1..], b);
      var head := if MentionsPower(a[0].s) then [a[0].s] else [];
      assert head + (PowerPaths(a[1..]).value + PowerPaths(b).value)
          == (head + PowerPaths(a[1..]).value) + PowerPaths(b).value;
    } else {
      assert a + b == b;
      assert PowerPaths(a).value + PowerPaths(b).value == PowerPaths(b).value;
    }
  }

  /** The index of the last path in `paths` whose name is `key`, or -1 when none has it. */
  function LastNamed(paths: seq<string>, key: string): (j: int)
    ensures -1 <= j < |paths|
    ensures j >= 0 ==> Name(paths[j]) == key && forall i :: j < i < |paths| ==> Name(paths[i]) != key
    ensures j == -1 ==> forall i :: 0 <= i < |paths| ==> Name(paths[i]) != key
  {
    if paths == [] then -1
    else if Name(paths[|paths| - 1]) == key then |paths| - 1
    else LastNamed(paths[..|paths| - 1], key)
  }

  /** Each sensor name gets the entry of the LAST path with that name: that full
      path, no readings and kind POWER. A name no path has keeps its old entry,
      or stays absent. */
  lemma {:induction false} SensorsAfterSpec(m: map<string, Sensor>, paths: seq<string>, key: string)
    ensures key in SensorsAfter(m, paths) <==> key in m || LastNamed(paths, key) >= 0
    ensures LastNamed(paths, key) >= 0 ==>
      SensorsAfter(m, paths)[key] == Sensor(paths[LastNamed(paths, key)], map[], Power)
    ensures key in m && LastNamed(paths, key) == -1 ==> SensorsAfter(m, paths)[key] == m[key]
    decreases |paths|
  {
    if paths != [] {
      SensorsAfterSpec(m, paths[..|paths| - 1], key);
    }
  }

  // ---------------------------------------------------------------------------
  // get_power

  /** `data.get('PowerControl', [{}])[0].get('PowerConsumedWatts')`, where a missing
      field gives None (JSON null). */
  function GetPower(doc: Option<Json>): Result<Json> {
    match doc
    case None => Err(AttributeError)
    case Some(d) =>
      match GetOr(d, "PowerControl", JArr([JObj([])]))
      case Err(f) => Err(f)
      case Ok(controls) =>
        match First(controls)
        case Err(f) => Err(f)
        case Ok(first) => GetOr(first, "PowerConsumedWatts", JNull)
  }

  /** The work of one `sample_power` future: `get_power` on the board's resource,
      which GETs its Power document (collector.py:66, 105-107). */
  function PowerReading(bmc: Bmc, board: string): Result<Json> {
    GetPower(RedfishGet(bmc(PowerPath(board))))
  }

  /** The reading of a power document: `PowerConsumedWatts` of its first
      `PowerControl` entry, or null when the entry lacks it. */
  lemma GetPowerReadsFirstControl(fields: seq<(string, Json)>, first: seq<(string, Json)>, rest: seq<Json>)
    requires Lookup(fields, "PowerControl") == Some(JArr([JObj(first)] + rest))
    ensures GetPower(Some(JObj(fields))) ==
      Ok(match Lookup(first, "PowerConsumedWatts") case Some(w) => w case None => JNull)
  {
  }

  /** Without `PowerControl` the reading is null; with an empty `PowerControl` list,
      `[0]` raises IndexError; a non-200 response raises AttributeError. */
  lemma GetPowerEdgeCases(fields: seq<(string, Json)>)
    ensures Lookup(fields, "PowerControl").None? ==> GetPower(Some(JObj(fields))) == Ok(JNull)
    ensures Lookup(fields, "PowerControl") == Some(JArr([])) ==> GetPower(Some(JObj(fields))) == Err(IndexError)
    ensures GetPower(None) == Err(AttributeError)
  {
  }

  /** A power reading is a number exactly when the document is an object whose first
      `PowerControl` entry is an object with a numeric `PowerConsumedWatts`. */
  lemma {:induction false} GetPowerNumber(doc: Option<Json>, w: real)
    ensures GetPower(doc) == Ok(JNum(w)) <==>
      && doc.Some? && doc.value.JObj?
      && Lookup(doc.value.fields, "PowerControl").Some?
      && var controls := Lookup(doc.value.fields, "PowerControl").value;
      && controls.JArr? && |controls.items| > 0 && controls.items[0].JObj?
      && Lookup(controls.items[0].fields, "PowerConsumedWatts") == Some(JNum(w))
  {
    if doc.Some? && doc.value.JObj? && Lookup(doc.value.fields, "PowerControl").Some? {
      var controls := Lookup(doc.value.fields, "PowerControl").value;
      if controls.JStr? && |controls.s| > 0 {
        assert First(controls) == Ok(JStr([controls.s[0]]));
      }
    }
  }

  // ---------------------------------------------------------------------------
  // the bodies of the as_completed loops of sample_power and sample_sensors

  /** A completed future: the entry it belongs to, what it returned or raised,
      and the time at which it was handled. */
  datatype Sample = Sample(key: string, result: Result<Json>, time: real)

  /** One loop body: a returned value is stored at its time, overwriting any value
      already there; a raised exception stores nothing. */
  function Record(series: map<real, Json>, s: Sample): map<real, Json> {
    if s.result.Ok? then series[s.time := s.result.value] else series
  }

  /** The exception `f'{value:6.1f}'` raises when the loop body prints a stored
      value: none for numbers (and booleans, which Python formats as integers),
      ValueError for a string, TypeError for null, a list or an object. */
  function FormatFault(value: Json): Option<Fault> {
    match value
    case JNum(_) => None
    case JBool(_) => None
    case JStr(_) => Some(ValueError)
    case _ => Some(TypeError)
  }

  /** The sample stores a value whose printing raises. The print follows the store
      and is outside the `try`, so its exception leaves the `as_completed` loop and
      the sampling method: no later future of the tick, and no later tick, is
      recorded. */
  predicate Halts(s: Sample) {
    s.result.Ok? && FormatFault(s.result.value).Some?
  }

  /** The position of the first sample that halts the tick, or the number of
      samples when none does. */
  function FirstHalt(samples: seq<Sample>): (n: nat)
    ensures n <= |samples|
    ensures forall i :: 0 <= i < n ==> !Halts(samples[i])
    ensures n < |samples| ==> Halts(samples[n])
  {
    if samples == [] then 0
    else if Halts(samples[0]) then 0
    else 1 + FirstHalt(samples[1..])
  }

  /** The samples a tick handles: all of them, or those up to and including the
      one whose printing raises. */
  function Handled(samples: seq<Sample>): (h: seq<Sample>)
    ensures h <= samples
    ensures |h| == |samples| <==> forall i :: 0 <= i < |samples| - 1 ==> !Halts(samples[i])
  {
    var n := FirstHalt(samples);
    if n < |samples| then samples[..n + 1] else samples
  }

  /** How a tick ends: completed, or with the exception of the first halting print,
      which the sampling method then raises. */
  function TickOutcome(samples: seq<Sample>): (o: Outcome)
    ensures o.Completed? <==> forall i :: 0 <= i < |samples| ==> !Halts(samples[i])
  {
    var n := FirstHalt(samples);
    if n < |samples| then Raised(FormatFault(samples[n].result.value).value) else Completed
  }

  /** A sample that does not halt the tick moves the tick past it. */
  lemma PassesHalt(samples: seq<Sample>, i: nat)
    requires i <= FirstHalt(samples) && i < |samples| && !Halts(samples[i])
    ensures i + 1 <= FirstHalt(samples)
  {
  }

  /** A tick ends at the first sample that halts it, and completes when none does. */
  lemma TickStops(samples: seq<Sample>, i: nat)
    requires i <= FirstHalt(samples) && i <= |samples|
    requires i == |samples| || Halts(samples[i])
    ensures i < |samples| ==> Handled(samples) == samples[..i + 1]
    ensures i < |samples| ==> TickOutcome(samples) == Raised(FormatFault(samples[i].result.value).value)
    ensures i == |samples| ==> Handled(samples) == samples && TickOutcome(samples) == Completed
  {
  }

  /** One entry's series after the samples, in completion order. */
  function SeriesAfter(series: map<real, Json>, samples: seq<Sample>, key: string): map<real, Json> {
    if samples == [] then series
    else
      var before := SeriesAfter(series, samples[..|samples| - 1], key);
      var s := samples[|samples| - 1];
      if s.key == key then Record(before, s) else before
  }

  /** The board table after the samples of one tick, in completion order. */
  function BoardsSampled(m: map<string, Board>, samples: seq<Sample>): (r: map<string, Board>)
    requires forall i :: 0 <= i < |samples| ==> samples[i].key in m
    ensures r.Keys == m.Keys
  {
    if samples == [] then m
    else
      var before := BoardsSampled(m, samples[..|samples| - 1]);
      var s := samples[|samples| - 1];
      before[s.key := Board(Record(before[s.key].power, s))]
  }

  /** The sensor table after the samples of one tick, in completion order. */
  function SensorsSampled(m: map<string, Sensor>, samples: seq<Sample>): (r: map<string, Sensor>)
    requires forall i :: 0 <= i < |samples| ==> samples[i].key in m
    ensures r.Keys == m.Keys
  {
    if samples == [] then m
    else
      var before := SensorsSampled(m, samples[..|samples| - 1]);
      var s := samples[|samples| - 1];
      before[s.key := before[s.key].(readings := Record(before[s.key].readings, s))]
  }

  /** The sample stores a value for `key` at time `t`. */
  predicate Writes(s: Sample, key: string, t: real) {
    s.key == key && s.result.Ok? && s.time == t
  }

  /** The index of the last sample that stores a value for `key` at time `t`,
      or -1 when there is none. */
  function LastWrite(samples: seq<Sample>, key: string, t: real): (j: int)
    ensures -1 <= j < |samples|
    ensures j >= 0 ==> Writes(samples[j], key, t) && forall i :: j < i < |samples| ==> !Writes(samples[i], key, t)
    ensures j == -1 ==> forall i :: 0 <= i < |samples| ==> !Writes(samples[i], key, t)
  {
    if samples == [] then -1
    else if Writes(samples[|samples| - 1], key, t) then |samples| - 1
    else LastWrite(samples[..|samples| - 1], key, t)
  }

  /** An entry's series gains exactly the times of its successful samples; each
      such time holds the value of the last success at that time (so a second
      write at the same time overwrites); every other time keeps its old value. */
  lemma {:induction false} SeriesAfterSpec(series: map<real, Json>, samples: seq<Sample>, key: string, t: real)
    ensures t in SeriesAfter(series, samples, key) <==> t in series || LastWrite(samples, key, t) >= 0
    ensures LastWrite(samples, key, t) >= 0 ==>
      SeriesAfter(series, samples, key)[t] == samples[LastWrite(samples, key, t)].result.value
    ensures t in series && LastWrite(samples, key, t) == -1 ==> SeriesAfter(series, samples, key)[t] == series[t]
    decreases |samples|
  {
    if samples != [] {
      SeriesAfterSpec(series, samples[..|samples| - 1], key, t);
    }
  }

  /** An entry whose every fetch in the tick raised keeps its series unchanged. */
  lemma {:induction false} FailuresRecordNothing(series: map<real, Json>, samples: seq<Sample>, key: string)
    requires forall i :: 0 <= i < |samples| && samples[i].key == key ==> samples[i].result.Err?
    ensures SeriesAfter(series, samples, key) == series
    decreases |samples|
  {
    if samples != [] {
      FailuresRecordNothing(series, samples[..|samples| - 1], key);
    }
  }

  /** In a tick, each board's power series evolves on its own samples only. */
  lemma {:induction false} BoardsSampledSeries(m: map<string, Board>, samples: seq<Sample>, board: string)
    requires forall i :: 0 <= i < |samples| ==> samples[i].key in m
    requires board in m
    ensures BoardsSampled(m, samples)[board] == Board(SeriesAfter(m[board].power, samples, board))
    decreases |samples|
  {
    if samples != [] {
      BoardsSampledSeries(m, samples[..|samples| - 1], board);
    }
  }

  /** In a tick, each sensor's readings evolve on its own samples only; its path
      and kind never change. */
  lemma {:induction false} SensorsSampledSeries(m: map<string, Sensor>, samples: seq<Sample>, sensor: string)
    requires forall i :: 0 <= i < |samples| ==> samples[i].key in m
    requires sensor in m
    ensures SensorsSampled(m, samples)[sensor] ==
      m[sensor].(readings := SeriesAfter(m[sensor].readings, samples, sensor))
    decreases |samples|
  {
    if samples != [] {
      SensorsSampledSeries(m, samples[..|samples| - 1], sensor);
    }
  }

  /** Recording one more power sample updates that sample's board only. */
  lemma BoardsSampledStep(m: map<string, Board>, samples: seq<Sample>, i: nat)
    requires forall j :: 0 <= j < |samples| ==> samples[j].key in m
    requires i < |samples|
    ensures var before := BoardsSampled(m, samples[..i]);
      && samples[i].key in before
      && BoardsSampled(m, samples[..i + 1]) ==
         before[samples[i].key := Board(Record(before[samples[i].key].power, samples[i]))]
  {
    assert samples[..i + 1][..i] == samples[..i];
  }

  /** Recording one more sensor sample updates that sample's sensor only. */
  lemma SensorsSampledStep(m: map<string, Sensor>, samples: seq<Sample>, i: nat)
    requires forall j :: 0 <= j < |samples| ==> samples[j].key in m
    requires i < |samples|
    ensures var before := SensorsSampled(m, samples[..i]);
      && samples[i].key in before
      && SensorsSampled(m, samples[..i + 1]) ==
         before[samples[i].key := before[samples[i].key].(readings := Record(before[samples[i].key].readings, samples[i]))]
  {
    assert samples[..i + 1][..i] == samples[..i];
  }

  // ---------------------------------------------------------------------------
  // the collector object

  class Collector {
    var boards: map<string, Board>
    /** The keys of `boards` in insertion order, which is the order Python iterates them. */
    var boardOrder: seq<string>
    var sensors: map<string, Sensor>

    ghost predicate Valid()
      reads this
    {
      DictOrder(boards, boardOrder)
    }

    /** The empty tables `__init__` starts from. */
    constructor ()
      ensures Valid() && boards == map[] && boardOrder == [] && sensors == map[]
    {
      boards, boardOrder, sensors := map[], [], map[];
    }

    /** `init_boards`: register the allow-listed chassis members as boards. */
    method InitBoards(chassis: Response) returns (outcome: Outcome)
      requires Valid()
      modifies this
      ensures Valid()
      ensures sensors == old(sensors)
      ensures chassis.status != HttpOk ==>
        outcome == Completed && boards == old(boards) && boardOrder == old(boardOrder)
      ensures chassis.status == HttpOk && ChassisMemberIds(chassis.body).Err? ==>
        && outcome == Raised(ChassisMemberIds(chassis.body).fault)
        && boards == old(boards) && boardOrder == old(boardOrder)
      ensures chassis.status == HttpOk && ChassisMemberIds(chassis.body).Ok? ==>
        var ids := ChassisMemberIds(chassis.body).value;
        var paths := LeadingPaths(ids);
        && boards == BoardsAfter(old(boards), paths)
        && boardOrder == OrderAfter(old(boardOrder), paths)
        && outcome == (if |paths| == |ids| then Completed else Raised(TypeError))
    {
      if chassis.status != HttpOk {
        return Completed;
      }
      var found := ChassisMemberIds(chassis.body);
      if found.Err? {
        return Raised(found.fault);
      }
      var ids := found.value;
      ghost var paths := LeadingPaths(ids);
      var i := 0;
      while i < |ids|
        invariant 0 <= i <= |paths|
        invariant boards == BoardsAfter(old(boards), paths[..i])
        invariant boardOrder == OrderAfter(old(boardOrder), paths[..i])
        invariant sensors == old(sensors)
      {
        if !ids[i].JStr? {
          assert i == |paths| && paths[..i] == paths;
          OrderAfterSpec(old(boards), old(boardOrder), paths);
          return Raised(TypeError);
        }
        assert i < |paths| && paths[i] == ids[i].s;
        var name := Name(ids[i].s);
        assert paths[..i + 1][..i] == paths[..i] && paths[..i + 1][i] == paths[i];
        if Lower(name) in BoardNames {
          if name !in boardOrder {
            boardOrder := boardOrder + [name];
          }
          boards := boards[name := Board(map[])];
        }
        i := i + 1;
      }
      assert i == |paths| && paths[..i] == paths;
      OrderAfterSpec(old(boards), old(boardOrder), paths);
      return Completed;
    }

    /** `find_power_sensors`: collect the power sensor paths board by board, then
        give each an entry keyed by its name. */
    method FindPowerSensors(bmc: Bmc) returns (outcome: Outcome)
      requires Valid()
      modifies this
      ensures Valid() && boards == old(boards) && boardOrder == old(boardOrder)
      ensures PowerSensorPaths(bmc, boardOrder).Err? ==>
        outcome == Raised(PowerSensorPaths(bmc, boardOrder).fault) && sensors == old(sensors)
      ensures PowerSensorPaths(bmc, boardOrder).Ok? ==>
        outcome == Completed && sensors == SensorsAfter(old(sensors), PowerSensorPaths(bmc, boardOrder).value)
    {
      var powerSensors: seq<string> := [];
      var i := 0;
      while i < |boardOrder|
        invariant 0 <= i <= |boardOrder|
        invariant PowerSensorPaths(bmc, boardOrder[..i]) == Ok(powerSensors)
      {
        var found := BoardPowerSensors(RedfishGet(bmc(SensorsPath(boardOrder[i]))));
        assert boardOrder[..i + 1][..i] == boardOrder[..i];
        if found.Err? {
          PowerSensorPathsStopsAtError(bmc, boardOrder, i + 1);
          return Raised(found.fault);
        }
        powerSensors := powerSensors + found.value;
        i := i + 1;
      }
      assert boardOrder[..i] == boardOrder;
      var j := 0;
      while j < |powerSensors|
        invariant 0 <= j <= |powerSensors|
        invariant sensors == SensorsAfter(old(sensors), powerSensors[..j])
        invariant boards == old(boards) && boardOrder == old(boardOrder)
      {
        var sensor := powerSensors[j];
        assert powerSensors[..j + 1][..j] == powerSensors[..j];
        sensors := sensors[Name(sensor) := Sensor(sensor, map[], Power)];
        j := j + 1;
      }
      assert powerSensors[..j] == powerSensors;
      return Completed;
    }

    /** The `sample_power` loop body for one completed future (collector.py:70-78):
        `sample` holds the board, what its `PowerReading` returned or raised, and
        the time. */
    method RecordPower(sample: Sample) returns (outcome: Outcome)
      requires sample.key in boards
      modifies this
      ensures boardOrder == old(boardOrder) && sensors == old(sensors)
      ensures boards == old(boards)[sample.key := Board(Record(old(boards)[sample.key].power, sample))]
      ensures outcome.Raised? <==> Halts(sample)
      ensures outcome.Raised? ==> outcome.fault == FormatFault(sample.result.value).value
    {
      if sample.result.Err? {
        return Completed;
      }
      var series := boards[sample.key].power;
      boards := boards[sample.key := Board(series[sample.time := sample.result.value])];
      var fault := FormatFault(sample.result.value);
      outcome := if fault.Some? then Raised(fault.value) else Completed;
    }

    /** The `as_completed` loop of one `sample_power` tick, for futures completing
        in the order given (each result is the board's `PowerReading` at that
        moment): it handles them in turn until a stored value cannot be printed,
        whose exception ends `sample_power` itself. */
    method PowerTick(samples: seq<Sample>) returns (outcome: Outcome)
      requires Valid() && forall i :: 0 <= i < |samples| ==> samples[i].key in boards
      modifies this
      ensures Valid() && boardOrder == old(boardOrder) && sensors == old(sensors)
      ensures boards == BoardsSampled(old(boards), Handled(samples))
      ensures outcome == TickOutcome(samples)
    {
      ghost var start := boards;
      var i := 0;
      outcome := Completed;
      while i < |samples|
        invariant 0 <= i <= FirstHalt(samples) && outcome == Completed
        invariant boardOrder == old(boardOrder) && sensors == old(sensors)
        invariant boards == BoardsSampled(start, samples[..i])
      {
        BoardsSampledStep(start, samples, i);
        outcome := RecordPower(samples[i]);
        if outcome.Raised? {
          break;
        }
        PassesHalt(samples, i);
        i := i + 1;
      }
      if outcome.Completed? {
        assert samples[..i] == samples;
      }
      TickStops(samples, i);
      SameKeysKeepOrder(old(boards), boards, boardOrder);
    }

    /** The `sample_sensors` loop body for one completed future (collector.py:91-99). */
    method RecordReading(sample: Sample) returns (outcome: Outcome)
      requires sample.key in sensors
      modifies this
      ensures boards == old(boards) && boardOrder == old(boardOrder)
      ensures sensors == old(sensors)[sample.key :=
        old(sensors)[sample.key].(readings := Record(old(sensors)[sample.key].readings, sample))]
      ensures outcome.Raised? <==> Halts(sample)
      ensures outcome.Raised? ==> outcome.fault == FormatFault(sample.result.value).value
    {
      if sample.result.Err? {
        return Completed;
      }
      var entry := sensors[sample.key];
      sensors := sensors[sample.key := entry.(readings := entry.readings[sample.time := sample.result.value])];
      var fault := FormatFault(sample.result.value);
      outcome := if fault.Some? then Raised(fault.value) else Completed;
    }

    /** The `as_completed` loop of one `sample_sensors` tick, for futures completing
        in the order given: it handles them in turn until a stored reading cannot
        be printed, whose exception ends `sample_sensors` itself. */
    method SensorTick(samples: seq<Sample>) returns (outcome: Outcome)
      requires forall i :: 0 <= i < |samples| ==> samples[i].key in sensors
      modifies this
      ensures boards == old(boards) && boardOrder == old(boardOrder)
      ensures sensors == SensorsSampled(old(sensors), Handled(samples))
      ensures outcome == TickOutcome(samples)
    {
      ghost var start := sensors;
      var i := 0;
      outcome := Completed;
      while i < |samples|
        invariant 0 <= i <= FirstHalt(samples) && outcome == Completed
        invariant boards == old(boards) && boardOrder == old(boardOrder)
        invariant sensors == SensorsSampled(start, samples[..i])
      {
        SensorsSampledStep(start, samples, i);
        outcome := RecordReading(samples[i]);
        if outcome.Raised? {
          break;
        }
        PassesHalt(samples, i);
        i := i + 1;
      }
      if outcome.Completed? {
        assert samples[..i] == samples;
      }
      TickStops(samples, i);
    }
  }

  /** `Collector.__init__` after login: empty tables, then `init_boards` on the
      chassis collection, then `find_power_sensors`. An exception from either ends
      construction, with the tables as far as they got. */
  method Connect(bmc: Bmc) returns (c: Collector, outcome: Outcome)
    ensures fresh(c) && c.Valid()
    ensures bmc(ChassisPath).status != HttpOk ==>
      outcome == Completed && c.boards == map[] && c.boardOrder == [] && c.sensors == map[]
    ensures bmc(ChassisPath).status == HttpOk && ChassisMemberIds(bmc(ChassisPath).body).Err? ==>
      && outcome == Raised(ChassisMemberIds(bmc(ChassisPath).body).fault)
      && c.boards == map[] && c.boardOrder == [] && c.sensors == map[]
    ensures bmc(ChassisPath).status == HttpOk && ChassisMemberIds(bmc(ChassisPath).body).Ok? ==>
      var ids := ChassisMemberIds(bmc(ChassisPath).body).value;
      var paths := LeadingPaths(ids);
      && c.boards == BoardsAfter(map[], paths)
      && c.boardOrder == OrderAfter([], paths)
      && (|paths| < |ids| ==> outcome == Raised(TypeError) && c.sensors == map[])
    ensures bmc(ChassisPath).status == HttpOk && ChassisMemberIds(bmc(ChassisPath).body).Ok? ==>
      var ids := ChassisMemberIds(bmc(ChassisPath).body).value;
      var found := PowerSensorPaths(bmc, c.boardOrder);
      |LeadingPaths(ids)| == |ids| ==>
        && (found.Err? ==> outcome == Raised(found.fault) && c.sensors == map[])
        && (found.Ok? ==> outcome == Completed && c.sensors == SensorsAfter(map[], found.value))
    ensures outcome.Completed? ==>
      && PowerSensorPaths(bmc, c.boardOrder).Ok?
      && c.sensors == SensorsAfter(map[], PowerSensorPaths(bmc, c.boardOrder).value)
  {
    c := new Collector();
    outcome := c.InitBoards(bmc(ChassisPath));
    if outcome.Completed? {
      outcome := c.FindPowerSensors(bmc);
    }
  }

  /** Chassis members named motherboard, psu_tray and Self, under any collection
      path, give exactly the boards motherboard and Self, with the case of Self kept. */
  lemma {:induction false} ChassisExample(dir: string)
    ensures
      var paths := [Child(dir, "motherboard"), Child(dir, "psu_tray"), Child(dir, "Self")];
      BoardsAfter(map[], paths) == map["motherboard" := Board(map[]), "Self" := Board(map[])]
  {
    var p0, p1, p2 := Child(dir, "motherboard"), Child(dir, "psu_tray"), Child(dir, "Self");
    NameOfChild(dir, "motherboard");
    NameOfChild(dir, "psu_tray");
    NameOfChild(dir, "Self");
    assert Lower("motherboard") == "motherboard";
    assert Lower("psu_tray") == "psu_tray";
    assert Lower("Self") == "self";
    assert [p0, p1, p2][..2] == [p0, p1];
    assert [p0, p1][..1] == [p0];
    assert [p0][..0] == [];
    assert IsBoardPath(p0) && !IsBoardPath(p1) && IsBoardPath(p2);
    assert BoardsAfter(map[], [p0][..0]) == map[];
    var m1 := BoardsAfter(map[], [p0]);
    assert m1 == map["motherboard" := Board(map[])];
    assert BoardsAfter(map[], [p0, p1]) == m1;
  }
}
