/** The Test1 collector module, the template for new modules: its settings
    class, which reads `par1`, `par2` and `logging_level` from the module
    declaration, and `getHomeDirectory`, which picks the user's home directory
    by OS type. */
module Test1 {
  import opened Python
  import opened Logging
  import opened Settings

  /** `par1` is stored as `str(value)`, `par2` and `logging_level` as given. */
  const Test1Schema: Schema := Schema({"par1", "par2", LevelKey}, {"par1"})

  const ModuleTag: string := "Test1"

  /** `ModuleSettings`: its attributes (`None` while unassigned), the level
      `initializeLogger` set on the shared "ModuleSettings" logger
      (`loggerLevel`), and what it printed and logged. */
  class ModuleSettings {
    var name: Option<Value>
    var par1: Option<string>
    var par2: Option<Scalar>
    var loggingLevel: Option<Scalar>
    var loggerLevel: Option<Level>
    var console: seq<string>
    var log: seq<Record>

    /** The object Python allocates before running `__init__`. */
    constructor ()
      ensures State() == Blank && loggingLevel == None
      ensures loggerLevel == None && log == []
    {
      name, par1, par2, loggingLevel := None, None, None, None;
      loggerLevel, console, log := None, [], [];
    }

    /** The stored parameters by name. */
    ghost function Params(): map<string, Scalar>
      reads this
    {
      StoredParams(par1, par2, loggingLevel)
    }

    ghost function State(): Scan
      reads this
    {
      Scan(name, Params(), console)
    }

    /** `__init__(self, module)`: the nested loops over the declaration, then
        `initializeLogger`. The attributes and printed lines are those of the
        scan; the logger's level and records are those `initializeLogger`
        produced, or unchanged when anything raised. */
    method Init(moduleDict: ModuleDict) returns (outcome: Outcome)
      modifies this
      ensures var r := Initialise(Test1Schema, ModuleTag, old(State()), moduleDict);
        && name == r.scan.name && Params() == r.scan.params
        && match r.setup
           case Err(e) =>
             outcome == Fail(e) && console == r.scan.printed && loggerLevel == old(loggerLevel) && log == old(log)
           case Ok(ls) =>
             outcome == Pass && console == r.scan.printed + ls.printed
             && loggerLevel == Some(ls.level) && log == old(log) + ls.records
    {
      var i := 0;
      while i < |moduleDict|
        invariant 0 <= i <= |moduleDict|
        invariant ModuleScan(Test1Schema, old(State()), moduleDict)
          == ModuleScan(Test1Schema, State(), moduleDict[i..])
        invariant loggerLevel == old(loggerLevel) && log == old(log)
      {
        assert moduleDict[i..][0] == moduleDict[i] && moduleDict[i..][1..] == moduleDict[i + 1..];
        var err := ScanEntry(moduleDict[i].0, moduleDict[i].1);
        if err.Some? {
          return Fail(err.value);
        }
        i := i + 1;
      }
      assert moduleDict[i..] == [];
      ghost var scanned := State();
      assert ModuleScan(Test1Schema, old(State()), moduleDict) == (scanned, None);
      assert Lookup(scanned.params, LevelKey) == loggingLevel;
      assert Initialise(Test1Schema, ModuleTag, old(State()), moduleDict)
        == Constructed(scanned, SetupLogger(loggingLevel, ModuleTag));
      outcome := InitializeLogger();
      assert Params() == scanned.params;
    }

    /** One pass of the loop of `__init__` over the declaration's keys:
        "name" is assigned, "parameters" is iterated, any other key is
        skipped. Returns the exception iterating raised, if any. */
    method ScanEntry(key: string, value: Value) returns (err: Option<PyError>)
      modifies this
      ensures (State(), err) == EntryStep(Test1Schema, old(State()), (key, value))
      ensures loggerLevel == old(loggerLevel) && log == old(log)
    {
      err := None;
      if key == "name" {
        name := Some(value);
      } else if key == "parameters" {
        match value {
          case DictList(dicts) =>
            ScanParameters(dicts);
          case Atom(x) =>
            if x == Str("") {
            } else if x.Str? {
              err := Some(NoIterItems);
            } else {
              err := Some(NotIterable);
            }
        }
      }
    }

    /** The loop of `__init__` over the "parameters" list. */
    method ScanParameters(dicts: seq<Dict>)
      modifies this
      ensures State() == ListScan(Test1Schema, old(State()), dicts)
      ensures loggerLevel == old(loggerLevel) && log == old(log)
    {
      var j := 0;
      while j < |dicts|
        invariant 0 <= j <= |dicts|
        invariant ListScan(Test1Schema, old(State()), dicts) == ListScan(Test1Schema, State(), dicts[j..])
        invariant loggerLevel == old(loggerLevel) && log == old(log)
      {
        assert dicts[j..][0] == dicts[j] && dicts[j..][1..] == dicts[j + 1..];
        ScanDict(dicts[j]);
        j := j + 1;
      }
    }

    /** The loop of `__init__` over the items of one parameter dict. */
    method ScanDict(pair: Dict)
      modifies this
      ensures State() == DictScan(Test1Schema, old(State()), pair)
      ensures loggerLevel == old(loggerLevel) && log == old(log)
    {
      var k := 0;
      while k < |pair|
        invariant 0 <= k <= |pair|
        invariant DictScan(Test1Schema, old(State()), pair) == DictScan(Test1Schema, State(), pair[k..])
        invariant loggerLevel == old(loggerLevel) && log == old(log)
      {
        assert pair[k..][0] == pair[k] && pair[k..][1..] == pair[k + 1..];
        StoreParam(pair[k].0, pair[k].1);
        k := k + 1;
      }
    }

    /** The if/elif chain of `__init__` for one `param, value` item. */
    method StoreParam(param: string, value: Scalar)
      modifies this
      ensures State() == ParamStep(Test1Schema, old(State()), (param, value))
      ensures loggerLevel == old(loggerLevel) && log == old(log)
    {
      ghost var p0 := Params();
      assert "par1" in Test1Schema.stored && "par1" in Test1Schema.asText;
      assert "par2" in Test1Schema.stored && "par2" !in Test1Schema.asText;
      assert LevelKey in Test1Schema.stored && LevelKey !in Test1Schema.asText;
      if param == "par1" {
        par1 := Some(StrOf(value));
        assert Params() == p0["par1" := Str(StrOf(value))];
      } else if param == "par2" {
        par2 := Some(value);
        assert Params() == p0["par2" := value];
      } else if param == LevelKey {
        loggingLevel := Some(value);
        assert Params() == p0[LevelKey := value];
      } else {
        console := console + [UnexpectedLine(param)];
      }
    }

    /** `initializeLogger()`: set the logger's level from `logging_level`,
        case-insensitively, falling back to DEBUG with a printed warning;
        raises when `logging_level` is unset or not a string. */
    method InitializeLogger() returns (outcome: Outcome)
      modifies this
      ensures name == old(name) && par1 == old(par1) && par2 == old(par2)
      ensures loggingLevel == old(loggingLevel)
      ensures match SetupLogger(old(loggingLevel), ModuleTag)
        case Err(e) =>
          outcome == Fail(e) && loggerLevel == old(loggerLevel) && console == old(console) && log == old(log)
        case Ok(ls) =>
          outcome == Pass && loggerLevel == Some(ls.level)
          && console == old(console) + ls.printed && log == old(log) + ls.records
    {
      if loggingLevel.None? {
        return Fail(MissingAttribute(LevelKey));
      }
      if !loggingLevel.value.Str? {
        return Fail(NoUpper);
      }
      var raw := loggingLevel.value.s;
      var level: Level;
      if Upper(raw) == "DEBUG" {
        level := Debug;
      } else if Upper(raw) == "INFO" {
        level := Info;
      } else if Upper(raw) == "WARNING" {
        level := Warning;
      } else if Upper(raw) == "ERROR" {
        level := Error;
      } else if Upper(raw) == "CRITICAL" {
        level := Critical;
      } else {
        console := console + [UnknownLevelLine(raw)];
        level := Debug;
      }
      loggerLevel := Some(level);
      log := log + Emit(level, StartedRecord(ModuleTag));
      outcome := Pass;
    }
  }

  /** The stored parameters by name, given the three attributes. */
  ghost function StoredParams(par1: Option<string>, par2: Option<Scalar>, loggingLevel: Option<Scalar>)
    : map<string, Scalar>
  {
    var withPar1 := if par1.Some? then map["par1" := Str(par1.value)] else map[];
    var withPar2 := if par2.Some? then withPar1["par2" := par2.value] else withPar1;
    if loggingLevel.Some? then withPar2[LevelKey := loggingLevel.value] else withPar2
  }

  /** For each of `par1`, `par2` and `logging_level`, the attribute holds the
      value of the name's last occurrence among the parameter items, `par1` as
      its `str()`; a name that does not occur leaves the attribute unset. */
  lemma StoredParameters(items: Dict, key: string)
    requires key in {"par1", "par2", LevelKey}
    ensures forall i :: (0 <= i < |items| && items[i].0 == key
        && forall j :: i < j < |items| ==> items[j].0 != key) ==>
      Lookup(ParamsAfter(Test1Schema, map[], items), key)
        == Some(if key == "par1" then Str(StrOf(items[i].1)) else items[i].1)
    ensures (forall j :: 0 <= j < |items| ==> items[j].0 != key) ==>
      Lookup(ParamsAfter(Test1Schema, map[], items), key) == None
    ensures ParamsAfter(Test1Schema, map[], items).Keys <= {"par1", "par2", LevelKey}
  {
    forall i | 0 <= i < |items| && items[i].0 == key
        && (forall j :: i < j < |items| ==> items[j].0 != key)
      ensures Lookup(ParamsAfter(Test1Schema, map[], items), key)
        == Some(if key == "par1" then Str(StrOf(items[i].1)) else items[i].1)
    {
      LastOccurrenceWins(Test1Schema, map[], items, i);
    }
    if forall j :: 0 <= j < |items| ==> items[j].0 != key {
      AbsentNameUnchanged(Test1Schema, map[], items, key);
    }
    OnlyStoredNames(Test1Schema, map[], items);
  }

  /** Constructing settings from a declaration that supplies no
      `logging_level` parameter always raises. */
  lemma ConstructionNeedsLoggingLevel(m: ModuleDict)
    requires forall j :: 0 <= j < |ParamItems(m)| ==> ParamItems(m)[j].0 != LevelKey
    ensures Initialise(Test1Schema, ModuleTag, Blank, m).setup.Err?
  {
    MissingLevelFails(Test1Schema, ModuleTag, Blank, m);
  }

  /** What `getHomeDirectory` returns (or raises) and the records it hands to
      the logger it was given. */
  datatype HomeLookup = HomeLookup(home: Result<string>, log: seq<Record>)

  const EnterMessage: string := "Entering Test1.getHomeDirectory()"
  const HomePrefix: string := "Home directory: "
  const InvalidOsMessage: string := "Invalid OS type detected. Unable to determine home directory"
  const UnknownOsMessage: string := "Unknown OS type detected. Unable to determine home directory."

  function EnterRecord(mainLogger: string): Record
  {
    Record(mainLogger, Debug, EnterMessage)
  }

  function Reported(mainLogger: string, before: seq<Record>, home: string): HomeLookup
  {
    HomeLookup(Ok(home), before + [Record(mainLogger, Info, HomePrefix + home)])
  }

  /** `getHomeDirectory(main_logger, os_type)`, with `os.environ` given as
      `environ`; a missing variable raises KeyError. */
  function GetHomeDirectory(mainLogger: string, osType: string, environ: map<string, string>): (r: HomeLookup)
    ensures |r.log| >= 1 && r.log[0] == EnterRecord(mainLogger)
    ensures r.home.Ok? ==> r.log[|r.log| - 1] == Record(mainLogger, Info, HomePrefix + r.home.value)
    ensures (osType == "mac" || osType == "nix") ==>
      r.home == (if "HOME" in environ then Ok(environ["HOME"]) else Err(MissingKey("HOME")))
    ensures osType == "windows" ==>
      r.home == (if "HOMEDRIVE" !in environ then Err(MissingKey("HOMEDRIVE"))
                 else if "HOMEPATH" !in environ then Err(MissingKey("HOMEPATH"))
                 else Ok(environ["HOMEDRIVE"] + environ["HOMEPATH"]))
    ensures osType !in {"mac", "nix", "windows"} ==> r.home == Ok("unknown")
  {
    var enter := [EnterRecord(mainLogger)];
    if osType != "unknown" then
      if osType == "mac" || osType == "nix" then
        if "HOME" in environ then Reported(mainLogger, enter, environ["HOME"])
        else HomeLookup(Err(MissingKey("HOME")), enter)
      else if osType == "windows" then
        if "HOMEDRIVE" !in environ then HomeLookup(Err(MissingKey("HOMEDRIVE")), enter)
        else if "HOMEPATH" !in environ then HomeLookup(Err(MissingKey("HOMEPATH")), enter)
        else Reported(mainLogger, enter, environ["HOMEDRIVE"] + environ["HOMEPATH"])
      else
        Reported(mainLogger,
          enter + [Record(mainLogger, Warning, InvalidOsMessage)],
          "unknown")
    else
      Reported(mainLogger,
        enter + [Record(mainLogger, Warning, UnknownOsMessage)],
        "unknown")
  }

  /** `getHomeDirectory` logs exactly one warning when the OS type is none of
      "mac", "nix" and "windows", and none otherwise; the warning for
      "unknown" differs from the one for any other unrecognised type. */
  lemma HomeDirectoryWarnings(mainLogger: string, osType: string, environ: map<string, string>)
    ensures CountAt(GetHomeDirectory(mainLogger, osType, environ).log, Warning)
      == (if osType in {"mac", "nix", "windows"} then 0 else 1)
    ensures osType !in {"mac", "nix", "windows"} ==>
      GetHomeDirectory(mainLogger, osType, environ).log
        == [EnterRecord(mainLogger),
            Record(mainLogger, Warning,
              if osType == "unknown" then UnknownOsMessage
              else InvalidOsMessage),
            Record(mainLogger, Info, HomePrefix + "unknown")]
  {
    var log := GetHomeDirectory(mainLogger, osType, environ).log;
    if osType in {"mac", "nix", "windows"} {
      CountAtAbsent(log, Warning);
    } else {
      assert log == [log[0]] + [log[1], log[2]];
      CountAtAppend([log[0]], [log[1], log[2]], Warning);
      assert [log[1], log[2]][1..] == [log[2]];
    }
  }
}
