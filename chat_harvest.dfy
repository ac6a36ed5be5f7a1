/** The ChatHarvest collector module (chat logs of Skype, AIM, MSN Messenger
    and other chat programs): its settings class, which reads `harvest_skype`
    and `logging_level` from the module declaration, and its entry point. */
module ChatHarvest {
  import opened Python
  import opened Logging
  import opened Settings

  const SkypeKey: string := "harvest_skype"

  /** `harvest_skype` and `logging_level` are stored as given. */
  const ChatSchema: Schema := Schema({SkypeKey, LevelKey}, {})

  const ModuleTag: string := "ChatHarvest"

  /** `ModuleSettings`: its attributes (`None` while unassigned), the level
      `initializeLogger` set on the shared "ModuleSettings" logger
      (`loggerLevel`), and what it printed and logged. */
  class ModuleSettings {
    var name: Option<Value>
    var harvestSkype: Option<Scalar>
    var loggingLevel: Option<Scalar>
    var loggerLevel: Option<Level>
    var console: seq<string>
    var log: seq<Record>

    /** The object Python allocates before running `__init__`. */
    constructor ()
      ensures State() == Blank && loggingLevel == None
      ensures loggerLevel == None && log == []
    {
      name, harvestSkype, loggingLevel := None, None, None;
      loggerLevel, console, log := None, [], [];
    }

    /** The stored parameters by name. */
    ghost function Params(): map<string, Scalar>
      reads this
    {
      StoredParams(harvestSkype, loggingLevel)
    }

    ghost function State(): Scan
      reads this
    {
      Scan(name, Params(), console)
    }

    /** `__init__(self, module)`: the nested loops over the declaration, then
        `initializeLogger`. The attributes and printed lines are those of the
        scan; the logger's level and records are those `initializeLogger`
        produced, or unchanged when anything raised. */
    method Init(moduleDict: ModuleDict) returns (outcome: Outcome)
      modifies this
      ensures var r := Initialise(ChatSchema, ModuleTag, old(State()), moduleDict);
        && name == r.scan.name && Params() == r.scan.params
        && match r.setup
           case Err(e) =>
             outcome == Fail(e) && console == r.scan.printed && loggerLevel == old(loggerLevel) && log == old(log)
           case Ok(ls) =>
             outcome == Pass && console == r.scan.printed + ls.printed
             && loggerLevel == Some(ls.level) && log == old(log) + ls.records
    {
      var i := 0;
      while i < |moduleDict|
        invariant 0 <= i <= |moduleDict|
        invariant ModuleScan(ChatSchema, old(State()), moduleDict)
          == ModuleScan(ChatSchema, State(), moduleDict[i..])
        invariant loggerLevel == old(loggerLevel) && log == old(log)
      {
        assert moduleDict[i..][0] == moduleDict[i] && moduleDict[i..][1..] == moduleDict[i + 1..];
        var err := ScanEntry(moduleDict[i].0, moduleDict[i].1);
        if err.Some? {
          return Fail(err.value);
        }
        i := i + 1;
      }
      assert moduleDict[i..] == [];
      ghost var scanned := State();
      assert ModuleScan(ChatSchema, old(State()), moduleDict) == (scanned, None);
      assert Lookup(scanned.params, LevelKey) == loggingLevel;
      assert Initialise(ChatSchema, ModuleTag, old(State()), moduleDict)
        == Constructed(scanned, SetupLogger(loggingLevel, ModuleTag));
      outcome := InitializeLogger();
      assert Params() == scanned.params;
    }

    /** One pass of the loop of `__init__` over the declaration's keys:
        "name" is assigned, "parameters" is iterated, any other key is
        skipped. Returns the exception iterating raised, if any. */
    method ScanEntry(key: string, value: Value) returns (err: Option<PyError>)
      modifies this
      ensures (State(), err) == EntryStep(ChatSchema, old(State()), (key, value))
      ensures loggerLevel == old(loggerLevel) && log == old(log)
    {
      err := None;
      if key == "name" {
        name := Some(value);
      } else if key == "parameters" {
        match value {
          case DictList(dicts) =>
            ScanParameters(dicts);
          case Atom(x) =>
            if x == Str("") {
            } else if x.Str? {
              err := Some(NoIterItems);
            } else {
              err := Some(NotIterable);
            }
        }
      }
    }

    /** The loop of `__init__` over the "parameters" list. */
    method ScanParameters(dicts: seq<Dict>)
      modifies this
      ensures State() == ListScan(ChatSchema, old(State()), dicts)
      ensures loggerLevel == old(loggerLevel) && log == old(log)
    {
      var j := 0;
      while j < |dicts|
        invariant 0 <= j <= |dicts|
        invariant ListScan(ChatSchema, old(State()), dicts) == ListScan(ChatSchema, State(), dicts[j..])
        invariant loggerLevel == old(loggerLevel) && log == old(log)
      {
        assert dicts[j..][0] == dicts[j] && dicts[j..][1..] == dicts[j + 1..];
        ScanDict(dicts[j]);
        j := j + 1;
      }
    }

    /** The loop of `__init__` over the items of one parameter dict. */
    method ScanDict(pair: Dict)
      modifies this
      ensures State() == DictScan(ChatSchema, old(State()), pair)
      ensures loggerLevel == old(loggerLevel) && log == old(log)
    {
      var k := 0;
      while k < |pair|
        invariant 0 <= k <= |pair|
        invariant DictScan(ChatSchema, old(State()), pair) == DictScan(ChatSchema, State(), pair[k..])
        invariant loggerLevel == old(loggerLevel) && log == old(log)
      {
        assert pair[k..][0] == pair[k] && pair[k..][1..] == pair[k + 1..];
        StoreParam(pair[k].0, pair[k].1);
        k := k + 1;
      }
    }

    /** The if/elif chain of `__init__` for one `param, value` item. */
    method StoreParam(param: string, value: Scalar)
      modifies this
      ensures State() == ParamStep(ChatSchema, old(State()), (param, value))
      ensures loggerLevel == old(loggerLevel) && log == old(log)
    {
      ghost var p0 := Params();
      assert SkypeKey in ChatSchema.stored && SkypeKey !in ChatSchema.asText;
      assert LevelKey in ChatSchema.stored && LevelKey !in ChatSchema.asText;
      if param == SkypeKey {
        harvestSkype := Some(value);
        assert Params() == p0[SkypeKey := value];
      } else if param == LevelKey {
        loggingLevel := Some(value);
        assert Params() == p0[LevelKey := value];
      } else {
        console := console + [UnexpectedLine(param)];
      }
    }

    /** `initializeLogger()`: set the logger's level from `logging_level`,
        case-insensitively, falling back to DEBUG with a printed warning;
        raises when `logging_level` is unset or not a string. */
    method InitializeLogger() returns (outcome: Outcome)
      modifies this
      ensures name == old(name) && harvestSkype == old(harvestSkype)
      ensures loggingLevel == old(loggingLevel)
      ensures match SetupLogger(old(loggingLevel), ModuleTag)
        case Err(e) =>
          outcome == Fail(e) && loggerLevel == old(loggerLevel) && console == old(console) && log == old(log)
        case Ok(ls) =>
          outcome == Pass && loggerLevel == Some(ls.level)
          && console == old(console) + ls.printed && log == old(log) + ls.records
    {
      if loggingLevel.None? {
        return Fail(MissingAttribute(LevelKey));
      }
      if !loggingLevel.value.Str? {
        return Fail(NoUpper);
      }
      var raw := loggingLevel.value.s;
      var level: Level;
      if Upper(raw) == "DEBUG" {
        level := Debug;
      } else if Upper(raw) == "INFO" {
        level := Info;
      } else if Upper(raw) == "WARNING" {
        level := Warning;
      } else if Upper(raw) == "ERROR" {
        level := Error;
      } else if Upper(raw) == "CRITICAL" {
        level := Critical;
      } else {
        console := console + [UnknownLevelLine(raw)];
        level := Debug;
      }
      loggerLevel := Some(level);
      log := log + Emit(level, StartedRecord(ModuleTag));
      outcome := Pass;
    }
  }

  /** The stored parameters by name, given the two attributes. */
  ghost function StoredParams(harvestSkype: Option<Scalar>, loggingLevel: Option<Scalar>): map<string, Scalar>
  {
    var withSkype := if harvestSkype.Some? then map[SkypeKey := harvestSkype.value] else map[];
    if loggingLevel.Some? then withSkype[LevelKey := loggingLevel.value] else withSkype
  }

  /** `harvest_skype` and `logging_level` hold the value of their last
      occurrence among the parameter items, unchanged; a name that does not
      occur leaves its attribute unset, and no other name is ever stored. */
  lemma StoredParameters(items: Dict, key: string)
    requires key in {SkypeKey, LevelKey}
    ensures forall i :: (0 <= i < |items| && items[i].0 == key
        && forall j :: i < j < |items| ==> items[j].0 != key) ==>
      Lookup(ParamsAfter(ChatSchema, map[], items), key) == Some(items[i].1)
    ensures (forall j :: 0 <= j < |items| ==> items[j].0 != key) ==>
      Lookup(ParamsAfter(ChatSchema, map[], items), key) == None
    ensures ParamsAfter(ChatSchema, map[], items).Keys <= {SkypeKey, LevelKey}
  {
    forall i | 0 <= i < |items| && items[i].0 == key
        && (forall j :: i < j < |items| ==> items[j].0 != key)
      ensures Lookup(ParamsAfter(ChatSchema, map[], items), key) == Some(items[i].1)
    {
      LastOccurrenceWins(ChatSchema, map[], items, i);
    }
    if forall j :: 0 <= j < |items| ==> items[j].0 != key {
      AbsentNameUnchanged(ChatSchema, map[], items, key);
    }
    OnlyStoredNames(ChatSchema, map[], items);
  }

  /** Constructing settings from a declaration that supplies no
      `logging_level` parameter always raises. */
  lemma ConstructionNeedsLoggingLevel(m: ModuleDict)
    requires forall j :: 0 <= j < |ParamItems(m)| ==> ParamItems(m)[j].0 != LevelKey
    ensures Initialise(ChatSchema, ModuleTag, Blank, m).setup.Err?
  {
    MissingLevelFails(ChatSchema, ModuleTag, Blank, m);
  }

  /** The framework module that `main` imports first. */
  const MainModule := "bitCollector_main"

  /** `main(thread_id, path_to_main, framework_settings, platform_details,
      module_dict)`, given whether `import bitCollector_main` succeeds and
      the truth value of `framework_settings.harvest_skype`; the other
      arguments are unused. A failed import raises before anything else. It
      then builds the settings and, when the switch is on, reaches a `self`
      that `main` does not define; otherwise it returns 0. */
  method ModuleMain(mainImportable: bool, harvestSkypeSwitch: bool, moduleDict: ModuleDict) returns (r: Result<int>)
    ensures r.Ok? ==> r.value == 0
    ensures !mainImportable ==> r == Err(ImportFailed(MainModule))
    ensures r.Ok? <==>
      mainImportable && Initialise(ChatSchema, ModuleTag, Blank, moduleDict).setup.Ok? && !harvestSkypeSwitch
    ensures mainImportable && Initialise(ChatSchema, ModuleTag, Blank, moduleDict).setup.Err? ==>
      r == Err(Initialise(ChatSchema, ModuleTag, Blank, moduleDict).setup.error)
    ensures mainImportable && Initialise(ChatSchema, ModuleTag, Blank, moduleDict).setup.Ok? && harvestSkypeSwitch ==>
      r == Err(UndefinedName("self"))
  {
    if !mainImportable {
      return Err(ImportFailed(MainModule));
    }
    var settings := new ModuleSettings();
    var built := settings.Init(moduleDict);
    if built.Fail? {
      return Err(built.error);
    }
    if harvestSkypeSwitch {
      return Err(UndefinedName("self"));
    }
    return Ok(0);
  }
}
