/** What `ModuleSettings.__init__` and `ModuleSettings.initializeLogger` do,
    stated once for every collector module. Test1 and ChatHarvest each carry
    their own copy of this code; the copies differ only in which parameter
    names they store, whether a value is stored as `str(value)`, and the
    module name in the message logged once the logger is ready. A `Schema`
    records those differences.

    The scan mirrors the nested loops of `__init__`: each top-level key of
    the module declaration, then each dict of the "parameters" list, then each
    item of that dict. */
module Settings {
  import opened Python
  import opened Logging

  /** `stored`: the parameter names the if/elif chain assigns to an attribute
      of the same name; `asText`: those among them stored as `str(value)`. */
  datatype Schema = Schema(stored: set<string>, asText: set<string>)

  const LevelKey: string := "logging_level"

  /** The attributes `__init__` has assigned so far (`name`, and the stored
      parameters by name) and the lines it has printed. */
  datatype Scan = Scan(name: Option<Value>, params: map<string, Scalar>, printed: seq<string>)

  /** A settings object before `__init__` has assigned anything. */
  const Blank: Scan := Scan(None, map[], [])

  function Lookup(params: map<string, Scalar>, key: string): Option<Scalar>
  {
    if key in params then Some(params[key]) else None
  }

  const UnexpectedPrefix: string := "Startup - Test1.RuntimeSettings.__init__ - ERROR - Unexpected parameter: "

  function UnexpectedLine(param: string): string
  {
    UnexpectedPrefix + param + ". Ignoring."
  }

  /** The value an attribute receives for parameter `key`. */
  function Coerce(schema: Schema, key: string, value: Scalar): Scalar
  {
    if key in schema.asText then Str(StrOf(value)) else value
  }

  // ---------------------------------------------------------------------
  // The scan, step by step, as the loops perform it

  /** One `param, value` item of one parameter dict. */
  function ParamStep(schema: Schema, s: Scan, item: (string, Scalar)): Scan
  {
    if item.0 in schema.stored then
      s.(params := s.params[item.0 := Coerce(schema, item.0, item.1)])
    else
      s.(printed := s.printed + [UnexpectedLine(item.0)])
  }

  /** The innermost loop: every item of one parameter dict. */
  function DictScan(schema: Schema, s: Scan, d: Dict): Scan
    decreases |d|
  {
    if d == [] then s else DictScan(schema, ParamStep(schema, s, d[0]), d[1..])
  }

  /** The middle loop: every dict of the "parameters" list. */
  function ListScan(schema: Schema, s: Scan, ds: seq<Dict>): Scan
    decreases |ds|
  {
    if ds == [] then s else ListScan(schema, DictScan(schema, s, ds[0]), ds[1..])
  }

  /** One top-level key of the declaration. Iterating over a "parameters"
      value that is not a list raises: an empty string yields no items, any
      other string yields a one-character string that has no `iteritems`,
      and a bool or an int cannot be iterated at all. */
  function EntryStep(schema: Schema, s: Scan, e: (string, Value)): (r: (Scan, Option<PyError>))
  {
    if e.0 == "name" then (s.(name := Some(e.1)), None)
    else if e.0 == "parameters" then
      match e.1
      case DictList(ds) => (ListScan(schema, s, ds), None)
      case Atom(Str(t)) => if t == "" then (s, None) else (s, Some(NoIterItems))
      case Atom(_) => (s, Some(NotIterable))
    else (s, None)
  }

  /** The outer loop over the declaration's keys; an exception ends it. */
  function ModuleScan(schema: Schema, s: Scan, m: ModuleDict): (r: (Scan, Option<PyError>))
    decreases |m|
  {
    if m == [] then (s, None)
    else
      var (s', err) := EntryStep(schema, s, m[0]);
      if err.Some? then (s', err) else ModuleScan(schema, s', m[1..])
  }

  // ---------------------------------------------------------------------
  // Independent descriptions of what the scan computes

  /** The items of a list of dicts, one dict after another. */
  function Flatten(ds: seq<Dict>): Dict
  {
    if ds == [] then [] else ds[0] + Flatten(ds[1..])
  }

  /** Every parameter item of a declaration, in the order the loops visit
      them. */
  function ParamItems(m: ModuleDict): Dict
  {
    if m == [] then [] else ItemsOf(m[0]) + ParamItems(m[1..])
  }

  /** The parameter items one top-level key contributes. */
  function ItemsOf(e: (string, Value)): Dict
  {
    if e.0 == "parameters" && e.1.DictList? then Flatten(e.1.dicts) else []
  }

  /** The stored parameters after visiting `items`, starting from `params`. */
  function ParamsAfter(schema: Schema, params: map<string, Scalar>, items: Dict): map<string, Scalar>
    decreases |items|
  {
    if items == [] then params
    else
      var key := items[0].0;
      ParamsAfter(schema,
        if key in schema.stored then params[key := Coerce(schema, key, items[0].1)] else params,
        items[1..])
  }

  /** The lines printed for `items`: one per unrecognised name, in order. */
  function PrintedFor(schema: Schema, items: Dict): seq<string>
  {
    if items == [] then []
    else
      (if items[0].0 in schema.stored then [] else [UnexpectedLine(items[0].0)])
      + PrintedFor(schema, items[1..])
  }

  lemma ConcatAssoc<T>(a: seq<T>, b: seq<T>, c: seq<T>)
    ensures (a + b) + c == a + (b + c)
  {
  }

  /** Visiting a dict updates the stored parameters and appends the printed
      lines independently of each other, and never touches `name`. */
  lemma {:induction false} DictScanSplit(schema: Schema, s: Scan, d: Dict)
    ensures DictScan(schema, s, d)
      == Scan(s.name, ParamsAfter(schema, s.params, d), s.printed + PrintedFor(schema, d))
    decreases |d|
  {
    if d != [] {
      var item := d[0];
      var s' := ParamStep(schema, s, item);
      var line := if item.0 in schema.stored then [] else [UnexpectedLine(item.0)];
      DictScanSplit(schema, s', d[1..]);
      assert s'.name == s.name && s'.printed == s.printed + line;
      assert PrintedFor(schema, d) == line + PrintedFor(schema, d[1..]);
      ConcatAssoc(s.printed, line, PrintedFor(schema, d[1..]));
    }
  }

  lemma {:induction false} ParamsAfterAppend(schema: Schema, p: map<string, Scalar>, a: Dict, b: Dict)
    ensures ParamsAfter(schema, p, a + b) == ParamsAfter(schema, ParamsAfter(schema, p, a), b)
    decreases |a|
  {
    if a != [] {
      assert (a + b)[0] == a[0] && (a + b)[1..] == a[1..] + b;
      var key := a[0].0;
      ParamsAfterAppend(schema,
        if key in schema.stored then p[key := Coerce(schema, key, a[0].1)] else p, a[1..], b);
    } else {
      assert a + b == b;
    }
  }

  lemma {:induction false} PrintedForAppend(schema: Schema, a: Dict, b: Dict)
    ensures PrintedFor(schema, a + b) == PrintedFor(schema, a) + PrintedFor(schema, b)
    decreases |a|
  {
    if a != [] {
      assert (a + b)[0] == a[0] && (a + b)[1..] == a[1..] + b;
      PrintedForAppend(schema, a[1..], b);
      ConcatAssoc(if a[0].0 in schema.stored then [] else [UnexpectedLine(a[0].0)],
        PrintedFor(schema, a[1..]), PrintedFor(schema, b));
    } else {
      assert a + b == b;
    }
  }

  lemma {:induction false} DictScanAppend(schema: Schema, s: Scan, a: Dict, b: Dict)
    ensures DictScan(schema, s, a + b) == DictScan(schema, DictScan(schema, s, a), b)
  {
    var mid := DictScan(schema, s, a);
    DictScanSplit(schema, s, a + b);
    DictScanSplit(schema, s, a);
    DictScanSplit(schema, mid, b);
    ParamsAfterAppend(schema, s.params, a, b);
    PrintedForAppend(schema, a, b);
    ConcatAssoc(s.printed, PrintedFor(schema, a), PrintedFor(schema, b));
  }

  /** The nested loop over a parameter list visits the same items, in the
      same order, as one loop over all of them. */
  lemma {:induction false} ListScanIsFlat(schema: Schema, s: Scan, ds: seq<Dict>)
    ensures ListScan(schema, s, ds) == DictScan(schema, s, Flatten(ds))
    decreases |ds|
  {
    if ds != [] {
      ListScanIsFlat(schema, DictScan(schema, s, ds[0]), ds[1..]);
      DictScanAppend(schema, s, ds[0], Flatten(ds[1..]));
    }
  }

  // ---------------------------------------------------------------------
  // What the parameter pass promises

  /** A name the schema does not store never becomes a stored parameter. */
  lemma {:induction false} OnlyStoredNames(schema: Schema, p: map<string, Scalar>, items: Dict)
    ensures ParamsAfter(schema, p, items).Keys <= p.Keys + schema.stored
    decreases |items|
  {
    if items != [] {
      var key := items[0].0;
      OnlyStoredNames(schema,
        if key in schema.stored then p[key := Coerce(schema, key, items[0].1)] else p, items[1..]);
    }
  }

  /** A parameter name that never occurs leaves its attribute as it was. */
  lemma {:induction false} AbsentNameUnchanged(schema: Schema, p: map<string, Scalar>, items: Dict, key: string)
    requires forall j :: 0 <= j < |items| ==> items[j].0 != key
    ensures Lookup(ParamsAfter(schema, p, items), key) == Lookup(p, key)
    decreases |items|
  {
    if items != [] {
      var k := items[0].0;
      assert k != key;
      AbsentNameUnchanged(schema,
        if k in schema.stored then p[k := Coerce(schema, k, items[0].1)] else p, items[1..], key);
    }
  }

  /** For a stored name, the attribute holds the value of its last
      occurrence: a later pair overwrites an earlier one. */
  lemma {:induction false} LastOccurrenceWins(schema: Schema, p: map<string, Scalar>, items: Dict, i: nat)
    requires i < |items| && items[i].0 in schema.stored
    requires forall j :: i < j < |items| ==> items[j].0 != items[i].0
    ensures Lookup(ParamsAfter(schema, p, items), items[i].0)
      == Some(Coerce(schema, items[i].0, items[i].1))
    decreases |items|
  {
    var k := items[0].0;
    var p' := if k in schema.stored then p[k := Coerce(schema, k, items[0].1)] else p;
    if i == 0 {
      AbsentNameUnchanged(schema, p', items[1..], k);
    } else {
      LastOccurrenceWins(schema, p', items[1..], i - 1);
    }
  }

  /** An unrecognised item leaves every attribute as it would be without it;
      it only adds its printed line. */
  lemma UnrecognisedParamIgnored(schema: Schema, p: map<string, Scalar>, a: Dict, item: (string, Scalar), b: Dict)
    requires item.0 !in schema.stored
    ensures ParamsAfter(schema, p, a + [item] + b) == ParamsAfter(schema, p, a + b)
    ensures PrintedFor(schema, a + [item] + b)
      == PrintedFor(schema, a) + [UnexpectedLine(item.0)] + PrintedFor(schema, b)
  {
    ParamsAfterAppend(schema, p, a + [item], b);
    ParamsAfterAppend(schema, p, a, [item]);
    ParamsAfterAppend(schema, p, a, b);
    PrintedForAppend(schema, a + [item], b);
    PrintedForAppend(schema, a, [item]);
  }

  // ---------------------------------------------------------------------
  // What the top-level pass promises

  /** The name attribute is untouched by the parameter loops. */
  lemma NameOnlyFromNameKey(schema: Schema, s: Scan, e: (string, Value))
    requires e.0 != "name"
    ensures EntryStep(schema, s, e).0.name == s.name
  {
    if e.0 == "parameters" && e.1.DictList? {
      ListScanIsFlat(schema, s, e.1.dicts);
      DictScanSplit(schema, s, Flatten(e.1.dicts));
    }
  }

  /** One top-level key that raises nothing stores what a loop over its own
      parameter items stores. */
  lemma EntryStepIsFlat(schema: Schema, s: Scan, e: (string, Value))
    requires EntryStep(schema, s, e).1 == None
    ensures EntryStep(schema, s, e).0.params == ParamsAfter(schema, s.params, ItemsOf(e))
    ensures EntryStep(schema, s, e).0.printed == s.printed + PrintedFor(schema, ItemsOf(e))
  {
    if e.0 == "parameters" && e.1.DictList? {
      ListScanIsFlat(schema, s, e.1.dicts);
      DictScanSplit(schema, s, ItemsOf(e));
    }
  }

  /** A top-level key that raises nothing hands its state on to the rest of
      the pass. */
  lemma ModuleScanStep(schema: Schema, s: Scan, m: ModuleDict)
    requires m != [] && EntryStep(schema, s, m[0]).1 == None
    ensures ModuleScan(schema, s, m) == ModuleScan(schema, EntryStep(schema, s, m[0]).0, m[1..])
  {
  }

  /** A pass that raises nothing stores exactly what one flat loop over all
      of the declaration's parameter items stores, and prints its lines. */
  lemma {:induction false} ModuleScanIsFlat(schema: Schema, s: Scan, m: ModuleDict)
    requires ModuleScan(schema, s, m).1 == None
    ensures ModuleScan(schema, s, m).0.params == ParamsAfter(schema, s.params, ParamItems(m))
    ensures ModuleScan(schema, s, m).0.printed == s.printed + PrintedFor(schema, ParamItems(m))
    decreases |m|
  {
    if m != [] {
      var s' := EntryStep(schema, s, m[0]).0;
      assert EntryStep(schema, s, m[0]).1 == None;
      var head, tail := ItemsOf(m[0]), ParamItems(m[1..]);
      ModuleScanStep(schema, s, m);
      EntryStepIsFlat(schema, s, m[0]);
      ModuleScanIsFlat(schema, s', m[1..]);
      ParamsAfterAppend(schema, s.params, head, tail);
      PrintedForAppend(schema, head, tail);
      ConcatAssoc(s.printed, PrintedFor(schema, head), PrintedFor(schema, tail));
    }
  }

  /** A pass that raises nothing leaves `name` holding the value of the last
      "name" key. */
  lemma {:induction false} NameFromLastNameKey(schema: Schema, s: Scan, m: ModuleDict, i: nat)
    requires i < |m| && m[i].0 == "name"
    requires forall j :: i < j < |m| ==> m[j].0 != "name"
    requires ModuleScan(schema, s, m).1 == None
    ensures ModuleScan(schema, s, m).0.name == Some(m[i].1)
    decreases |m|
  {
    var s' := EntryStep(schema, s, m[0]).0;
    if i == 0 {
      NameUntouched(schema, s', m[1..]);
    } else {
      NameFromLastNameKey(schema, s', m[1..], i - 1);
    }
  }

  /** Without a "name" key, `name` is left as it was. */
  lemma {:induction false} NameUntouched(schema: Schema, s: Scan, m: ModuleDict)
    requires forall j :: 0 <= j < |m| ==> m[j].0 != "name"
    ensures ModuleScan(schema, s, m).0.name == s.name
    decreases |m|
  {
    if m != [] {
      NameOnlyFromNameKey(schema, s, m[0]);
      NameUntouched(schema, EntryStep(schema, s, m[0]).0, m[1..]);
    }
  }

  /** A top-level key other than "name" and "parameters" has no effect. */
  lemma {:induction false} OtherKeysIgnored(schema: Schema, s: Scan, a: ModuleDict, e: (string, Value), b: ModuleDict)
    requires e.0 != "name" && e.0 != "parameters"
    ensures ModuleScan(schema, s, a + [e] + b) == ModuleScan(schema, s, a + b)
    decreases |a|
  {
    if a == [] {
      assert a + [e] + b == [e] + b && a + b == b;
      assert ([e] + b)[0] == e && ([e] + b)[1..] == b;
      assert EntryStep(schema, s, e) == (s, None);
    } else {
      assert (a + [e] + b)[0] == a[0] && (a + [e] + b)[1..] == a[1..] + [e] + b;
      assert (a + b)[0] == a[0] && (a + b)[1..] == a[1..] + b;
      OtherKeysIgnored(schema, EntryStep(schema, s, a[0]).0, a[1..], e, b);
    }
  }

  /** In a declaration whose keys are distinct, a "parameters" value that is
      a non-empty string, a bool or an int makes the pass raise; an empty
      string is iterated without effect. */
  lemma {:induction false} MalformedParametersRaise(schema: Schema, s: Scan, m: ModuleDict, i: nat)
    requires DistinctKeys(m) && i < |m| && m[i].0 == "parameters" && m[i].1.Atom?
    ensures m[i].1.x != Str("") <==> ModuleScan(schema, s, m).1.Some?
    ensures ModuleScan(schema, s, m).1.Some? ==>
      ModuleScan(schema, s, m).1.value == (if m[i].1.x.Str? then NoIterItems else NotIterable)
    decreases |m|
  {
    assert m[0].0 != "parameters" || i == 0;
    var s' := EntryStep(schema, s, m[0]).0;
    if i == 0 {
      ScanWithoutParametersSucceeds(schema, s', m[1..]);
    } else {
      assert DistinctKeys(m[1..]) by {
        forall j, k | 0 <= j < k < |m[1..]| ensures m[1..][j].0 != m[1..][k].0 {
          assert m[1..][j] == m[j + 1] && m[1..][k] == m[k + 1];
        }
      }
      MalformedParametersRaise(schema, s', m[1..], i - 1);
    }
  }

  /** Without a "parameters" key nothing can raise. */
  lemma {:induction false} ScanWithoutParametersSucceeds(schema: Schema, s: Scan, m: ModuleDict)
    requires forall j :: 0 <= j < |m| ==> m[j].0 != "parameters"
    ensures ModuleScan(schema, s, m).1 == None
    decreases |m|
  {
    if m != [] {
      ScanWithoutParametersSucceeds(schema, EntryStep(schema, s, m[0]).0, m[1..]);
    }
  }

  // ---------------------------------------------------------------------
  // initializeLogger, and the whole constructor

  /** The level `initializeLogger` sets on the module's logger, the lines it
      prints, and the records that logger emits. */
  datatype LoggerSetup = LoggerSetup(level: Level, printed: seq<string>, records: seq<Record>)

  /** `logging.getLogger(self.__class__.__name__)`: both modules name their
      settings class `ModuleSettings`. */
  const SettingsLogger: string := "ModuleSettings"

  const UnknownLevelPrefix: string :=
    "Startup - bitCollector_main.RuntimeSettings.initializeRootLogger - WARNING - Unknown logging level \""

  const UnknownLevelSuffix: string := "\" Defaulting to DEBUG."

  function UnknownLevelLine(raw: string): string
  {
    UnknownLevelPrefix + raw + UnknownLevelSuffix
  }

  function StartedRecord(moduleTag: string): Record
  {
    Record(SettingsLogger, Debug, "Successfully started " + moduleTag + " logger!")
  }

  /** `initializeLogger` for the value of `self.logging_level` (`None` when
      the attribute was never assigned). */
  function SetupLogger(loggingLevel: Option<Scalar>, moduleTag: string): Result<LoggerSetup>
  {
    match loggingLevel
    case None => Err(MissingAttribute(LevelKey))
    case Some(Str(raw)) =>
      var chosen := LevelFor(raw);
      var level := if chosen.Some? then chosen.value else Debug;
      Ok(LoggerSetup(level,
        if chosen.None? then [UnknownLevelLine(raw)] else [],
        Emit(level, StartedRecord(moduleTag))))
    case Some(_) => Err(NoUpper)
  }

  /** `initializeLogger` raises exactly when `logging_level` was never
      assigned or does not hold a string. */
  lemma SetupLoggerFails(loggingLevel: Option<Scalar>, moduleTag: string)
    ensures SetupLogger(loggingLevel, moduleTag).Err? <==> loggingLevel.None? || !loggingLevel.value.Str?
    ensures loggingLevel.None? ==> SetupLogger(loggingLevel, moduleTag) == Err(MissingAttribute(LevelKey))
    ensures loggingLevel.Some? && !loggingLevel.value.Str? ==> SetupLogger(loggingLevel, moduleTag) == Err(NoUpper)
  {
  }

  /** A value that is a level's name in any letter case sets that level,
      prints nothing, and the ready message passes the new level only when it
      is DEBUG. */
  lemma {:induction false} SetupLoggerKnownLevel(raw: string, l: Level, moduleTag: string)
    requires Upper(raw) == LevelName(l)
    ensures SetupLogger(Some(Str(raw)), moduleTag).Ok?
    ensures SetupLogger(Some(Str(raw)), moduleTag).value.level == l
    ensures SetupLogger(Some(Str(raw)), moduleTag).value.printed == []
    ensures SetupLogger(Some(Str(raw)), moduleTag).value.records
      == (if l == Debug then [StartedRecord(moduleTag)] else [])
  {
    LevelForNames(raw, l);
  }

  /** Any other string falls back to DEBUG with exactly one printed warning,
      and the ready message is then emitted. */
  lemma {:induction false} SetupLoggerFallback(raw: string, moduleTag: string)
    requires forall k: Level :: Upper(raw) != LevelName(k)
    ensures SetupLogger(Some(Str(raw)), moduleTag)
      == Ok(LoggerSetup(Debug, [UnknownLevelLine(raw)], [StartedRecord(moduleTag)]))
  {
    LevelForNames(raw, Debug);
  }

  /** The state `__init__` leaves: the attributes and printed lines of the
      pass, and what `initializeLogger` did or raised. */
  datatype Constructed = Constructed(scan: Scan, setup: Result<LoggerSetup>)

  function Initialise(schema: Schema, moduleTag: string, s: Scan, m: ModuleDict): Constructed
  {
    var (s', err) := ModuleScan(schema, s, m);
    if err.Some? then Constructed(s', Err(err.value))
    else Constructed(s', SetupLogger(Lookup(s'.params, LevelKey), moduleTag))
  }

  /** Construction raises when no parameter named "logging_level" was supplied
      (and the attribute was not already set). */
  lemma MissingLevelFails(schema: Schema, moduleTag: string, s: Scan, m: ModuleDict)
    requires LevelKey !in s.params
    requires forall j :: 0 <= j < |ParamItems(m)| ==> ParamItems(m)[j].0 != LevelKey
    ensures Initialise(schema, moduleTag, s, m).setup.Err?
    ensures ModuleScan(schema, s, m).1 == None ==>
      Initialise(schema, moduleTag, s, m).setup == Err(MissingAttribute(LevelKey))
  {
    if ModuleScan(schema, s, m).1 == None {
      ModuleScanIsFlat(schema, s, m);
      AbsentNameUnchanged(schema, s.params, ParamItems(m), LevelKey);
    }
  }

  /** When the pass raises nothing and the last "logging_level" item holds a
      string, construction succeeds and the logger level is the one that
      string names, DEBUG when it names none. */
  lemma LevelFromLastSetting(schema: Schema, moduleTag: string, s: Scan, m: ModuleDict, i: nat, raw: string)
    requires LevelKey in schema.stored && LevelKey !in schema.asText
    requires ModuleScan(schema, s, m).1 == None
    requires i < |ParamItems(m)| && ParamItems(m)[i] == (LevelKey, Str(raw))
    requires forall j :: i < j < |ParamItems(m)| ==> ParamItems(m)[j].0 != LevelKey
    ensures Initialise(schema, moduleTag, s, m).setup.Ok?
    ensures Initialise(schema, moduleTag, s, m).setup.value.level
      == (if LevelFor(raw).Some? then LevelFor(raw).value else Debug)
  {
    ModuleScanIsFlat(schema, s, m);
    LastOccurrenceWins(schema, s.params, ParamItems(m), i);
  }
}
