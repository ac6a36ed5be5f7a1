# BitCollector in Dafny

BitCollector is a Python 2.7 framework that runs data-collection modules
against the local machine. This project models its core and proves
properties of that model:

- **the platform descriptor** (`bitCollector_main.py`). `Platform` copies
  the six fields of `platform.uname()`. It then classifies the system name
  by a case-insensitive substring test, `mac`, then `nix`, then `win`.
  According to that test it builds one `MacPlatform`, `NixPlatform` or
  `WinPlatform` from the matching OS query, or logs a warning
  (module `BitCollectorMain`);
- **the module import loop** `importBCModules`. It tries to import every
  name of its hard-coded list and logs one INFO or WARNING record per name,
  whatever happened before (module `BitCollectorMain`);
- **the settings class of each collector module** (`Test1.py`,
  `ChatHarvest.py`), as classes with the source's attributes:
  - `__init__` walks the module declaration
    `{name: ..., parameters: [{k: v}, ...]}`. It stores the recognised
    parameters, a later pair overwriting an earlier one. It prints a line
    for each unrecognised parameter and ignores it;
  - `initializeLogger` sets the module logger's level from `logging_level`,
    case-insensitively, falling back to DEBUG with a printed warning;
  - the two copies of this code share one description, parameterised by a
    `Schema` (module `Settings`). The classes are modules `Test1` and
    `ChatHarvest`;
- **`Test1.getHomeDirectory`**: choosing the home directory from the OS type
  and the environment;
- **`ChatHarvest.main`**: its return value.

Supporting modules:

- `Python`: the Python values, exceptions and `str` operations that the
  core uses;
- `Logging`: the five logging levels, log records, and the mapping from a
  level name to a level.

Inputs the model takes as parameters:

- a dict is given by its items in iteration order;
- the answers of `platform.uname()`, `mac_ver()`, `linux_distribution()`
  and `win32_ver()` are parameters;
- which modules `__import__` can load is a set of names;
- `os.environ` is a map.

Exceptions are values: `Result`, `Outcome` and `PyError`.

Where the code does something other than what its comments describe, the
model follows the code:

- The loops `for each in tuple: if each == "": each = "Unknown"` only
  rebind the loop variable. An empty field therefore stays empty. No
  default value is ever filled in.
- The Unix test looks for `nix` only. "Linux" is therefore classified as
  unknown, and "Darwin" is classified as Windows, because it contains
  `win`.
- No ambiguity between keywords is logged. The first match wins silently.
- An unrecognised parameter and an unknown level are reported by `print`,
  not through the logger. The model keeps these as printed lines, apart
  from the log records.
- A missing `logging_level` is not an error of its own. `initializeLogger`
  reads the unset attribute, which raises AttributeError.

## Model

| member | source | states |
|---|---|---|
| Python.StrOf | src/2.7/Modules/Test1.py:47 | `str(value)` of a str is itself, of a bool is "True"/"False", and of an int is non-empty text that starts with '-' iff the int is negative; its value is stated by `StrOfInt` |
| Python.NatDigitsValue | src/2.7/Modules/Test1.py:47 | reading the decimal digits of n back, most significant first, gives n, and they start with '0' only for n = 0 |
| Python.StrOfInt | src/2.7/Modules/Test1.py:47 | `str()` of an int i is canonical decimal text (digits only, no leading zero) reading back as i when i >= 0, and '-' followed by canonical decimal text reading back as -i when i < 0 |
| Python.CanonicalDecimalUnique | src/2.7/Modules/Test1.py:47 | canonical decimal text that reads back as n is exactly the digits of n, so the facts `StrOfInt` states determine `str()` of an int |
| Python.Upper | src/2.7/Modules/Test1.py:74 | `upper()` keeps the length and upper-cases each ASCII letter in place |
| Python.Lower | src/2.7/Main/bitCollector_main.py:77 | `lower()` keeps the length and lower-cases each ASCII letter in place |
| Python.UpperIdempotent | src/2.7/Modules/Test1.py:74-86 | upper-casing twice equals upper-casing once |
| Python.UpperOfLower | src/2.7/Modules/Test1.py:74-86 | upper-casing a lower-cased string gives the same as upper-casing the original |
| Python.Contains | src/2.7/Main/bitCollector_main.py:77 | the left-to-right scan that `re.search` with a literal pattern performs; what it finds is stated by `ContainsIffOccurs` |
| Python.ContainsIffOccurs | src/2.7/Main/bitCollector_main.py:77-83 | `re.search` with a literal pattern succeeds exactly when the pattern occurs at some index of the string |
| Logging.EmitByLevel | src/2.7/Modules/Test1.py:73-93 | a logger passes a record or nothing; lowering its level never loses a record it passed; a DEBUG logger passes every record; a DEBUG record passes only a DEBUG logger |
| Logging.LevelFor | src/2.7/Modules/Test1.py:74-91 | the elif chain on the upper-cased value; its result is stated by `LevelForNames`, `LevelForOwnName` and `LevelForIgnoresCase` |
| Logging.LevelNamed | src/2.7/Modules/Test1.py:74-88 | the comparisons of the upper-cased value with each level name in turn; stated through `LevelForNames` |
| Logging.LevelForNames | src/2.7/Modules/Test1.py:74-91 | the elif chain selects level l iff the upper-cased value is l's name, and selects nothing iff it is no level's name |
| Logging.LevelForOwnName | src/2.7/Modules/Test1.py:74-88 | every spelling of a level's name, in any letter case, selects that level |
| Logging.LevelForIgnoresCase | src/2.7/Modules/Test1.py:74-88 | the selection gives the same result for a value, its upper-cased form and its lower-cased form |
| Settings.ParamStep | src/2.7/Modules/Test1.py:46-56 | one parameter item: the if/elif chain that stores or prints; stated by `LastOccurrenceWins`, `OnlyStoredNames` and `UnrecognisedParamIgnored` |
| Settings.DictScan | src/2.7/Modules/Test1.py:44-56 | the loop over one parameter dict; stated by `DictScanSplit` and `DictScanAppend` |
| Settings.ListScan | src/2.7/Modules/Test1.py:42-56 | the loop over the parameter list, with the exceptions of a scalar "parameters" value; stated by `ListScanIsFlat` and `MalformedParametersRaise` |
| Settings.EntryStep | src/2.7/Modules/Test1.py:34-44 | one top-level key of the declaration; stated by `EntryStepIsFlat` and `NameOnlyFromNameKey` |
| Settings.ModuleScan | src/2.7/Modules/Test1.py:34-56 | the loop over the declaration's top-level keys; stated by `ModuleScanIsFlat`, `NameFromLastNameKey` and `OtherKeysIgnored` |
| Settings.SetupLogger | src/2.7/Modules/Test1.py:65-93 | `initializeLogger` on the stored `logging_level`; stated by `SetupLoggerFails`, `SetupLoggerKnownLevel` and `SetupLoggerFallback` |
| Settings.Initialise | src/2.7/Modules/Test1.py:32-59 | `__init__`: the declaration pass followed by `initializeLogger`; stated by `MissingLevelFails` and `LevelFromLastSetting` |
| Settings.DictScanSplit | src/2.7/Modules/Test1.py:44-56 | the loop over one parameter dict updates the stored parameters by the items in order and appends one printed line per unrecognised item, and does not change `name` |
| Settings.ParamsAfterAppend | src/2.7/Modules/Test1.py:42-53 | storing the items of a + b equals storing those of a and then those of b |
| Settings.PrintedForAppend | src/2.7/Modules/Test1.py:55-56 | the lines printed for a + b are those for a followed by those for b |
| Settings.DictScanAppend | src/2.7/Modules/Test1.py:44-56 | scanning a + b equals scanning a and then b |
| Settings.ListScanIsFlat | src/2.7/Modules/Test1.py:42-56 | the nested loops over the parameter list visit the same items in the same order as one loop over their concatenation |
| Settings.OnlyStoredNames | src/2.7/Modules/Test1.py:46-56 | no name outside the recognised ones ever becomes a stored attribute |
| Settings.AbsentNameUnchanged | src/2.7/Modules/Test1.py:46-56 | an attribute whose name occurs in no item keeps its previous value or stays unset |
| Settings.LastOccurrenceWins | src/2.7/Modules/Test1.py:42-53 | a recognised name's attribute holds the value of its last occurrence, coerced as the schema says (`str()` for `par1`) |
| Settings.UnrecognisedParamIgnored | src/2.7/Modules/Test1.py:55-56 | inserting an unrecognised item anywhere changes none of the stored attributes and adds exactly its own "Unexpected parameter" line at its place |
| Settings.NameOnlyFromNameKey | src/2.7/Modules/Test1.py:34-42 | a top-level key other than "name" never changes `name` |
| Settings.EntryStepIsFlat | src/2.7/Modules/Test1.py:40-56 | a top-level key that raises nothing stores and prints what a loop over its own parameter items does |
| Settings.ModuleScanIsFlat | src/2.7/Modules/Test1.py:34-56 | a pass that raises nothing stores and prints exactly what one loop over all parameter items of the declaration, in visiting order, does |
| Settings.NameFromLastNameKey | src/2.7/Modules/Test1.py:34-37 | after a pass that raises nothing, `name` holds the value of the last "name" key |
| Settings.NameUntouched | src/2.7/Modules/Test1.py:34-37 | without a "name" key, `name` keeps its previous value |
| Settings.OtherKeysIgnored | src/2.7/Modules/Test1.py:34-42 | inserting a top-level key other than "name" and "parameters" anywhere changes neither the outcome nor the state |
| Settings.MalformedParametersRaise | src/2.7/Modules/Test1.py:40-44 | a "parameters" value that is a scalar makes the pass raise iff it is not the empty string: AttributeError for a string, TypeError for a bool or an int |
| Settings.ScanWithoutParametersSucceeds | src/2.7/Modules/Test1.py:34-42 | a declaration without a "parameters" key never raises during the pass |
| Settings.SetupLoggerFails | src/2.7/Modules/Test1.py:74 | `initializeLogger` raises iff `logging_level` is unset (AttributeError on the attribute) or not a string (AttributeError, no `upper`) |
| Settings.SetupLoggerKnownLevel | src/2.7/Modules/Test1.py:74-93 | a value naming a level in any case sets that level and prints nothing, and the "Successfully started" record gets through only when that level is DEBUG |
| Settings.SetupLoggerFallback | src/2.7/Modules/Test1.py:89-93 | any other string sets DEBUG, prints exactly the "Unknown logging level" line, and emits the "Successfully started" record |
| Settings.MissingLevelFails | src/2.7/Modules/Test1.py:58-74 | without a `logging_level` parameter, construction raises, with AttributeError on `logging_level` when the pass itself raised nothing |
| Settings.LevelFromLastSetting | src/2.7/Modules/Test1.py:52-91 | when the last `logging_level` item holds a string, construction succeeds and sets the level that string names, DEBUG when it names none |
| Test1.ModuleSettings.constructor | src/2.7/Modules/Test1.py:25 | a fresh settings object has no attributes assigned, nothing printed and nothing logged |
| Test1.ModuleSettings.Init | src/2.7/Modules/Test1.py:32-59 | the attributes and printed lines are those of the declaration pass, followed by `initializeLogger`; on an exception in either, that exception is returned and the logger is left as it was |
| Test1.ModuleSettings.ScanEntry | src/2.7/Modules/Test1.py:34-44 | one top-level key leaves the state and the exception, if any, that the scan step for that key computes: "name" is assigned, "parameters" is iterated, any other key is skipped |
| Test1.ModuleSettings.ScanParameters | src/2.7/Modules/Test1.py:42-56 | the loop over the parameter list leaves the state the list scan computes and logs nothing |
| Test1.ModuleSettings.ScanDict | src/2.7/Modules/Test1.py:44-56 | the loop over one dict leaves the state the dict scan computes |
| Test1.ModuleSettings.StoreParam | src/2.7/Modules/Test1.py:46-56 | one item stores `par1` as `str(value)`, stores `par2` and `logging_level` as given, or else prints the "Unexpected parameter" line |
| Test1.ModuleSettings.InitializeLogger | src/2.7/Modules/Test1.py:65-93 | leaves the parsed attributes unchanged, and sets the logger level, printed lines and records as the level selection says, or returns the exception |
| Test1.StoredParameters | src/2.7/Modules/Test1.py:46-53 | `par1` (as `str`), `par2` and `logging_level` hold their last occurrence's value or stay unset, and no other parameter attribute appears |
| Test1.ConstructionNeedsLoggingLevel | src/2.7/Modules/Test1.py:59-74 | constructing from a declaration without a `logging_level` parameter always raises |
| Test1.GetHomeDirectory | src/2.7/Modules/Test1.py:104-123 | "mac"/"nix" give `HOME` or KeyError, "windows" gives `HOMEDRIVE + HOMEPATH` or KeyError on the first missing one, and everything else gives "unknown"; the entry record is always first, and a returned value is last reported at INFO; these are the calls made on `main_logger`, before its level filter |
| Test1.HomeDirectoryWarnings | src/2.7/Modules/Test1.py:109-122 | exactly one warning iff the OS type is none of "mac", "nix" and "windows", with different wording for "unknown" and for any other type |
| ChatHarvest.ModuleSettings.constructor | src/2.7/Modules/ChatHarvest.py:12 | a fresh settings object has no attributes assigned, nothing printed and nothing logged |
| ChatHarvest.ModuleSettings.Init | src/2.7/Modules/ChatHarvest.py:23-45 | the attributes and printed lines are those of the declaration pass, followed by `initializeLogger`; on an exception, that exception is returned and the logger is untouched |
| ChatHarvest.ModuleSettings.ScanEntry | src/2.7/Modules/ChatHarvest.py:25-35 | one top-level key leaves the state and the exception, if any, that the scan step for that key computes |
| ChatHarvest.ModuleSettings.ScanParameters | src/2.7/Modules/ChatHarvest.py:33-42 | the loop over the parameter list leaves the state the list scan computes |
| ChatHarvest.ModuleSettings.ScanDict | src/2.7/Modules/ChatHarvest.py:35-42 | the loop over one dict leaves the state the dict scan computes |
| ChatHarvest.ModuleSettings.StoreParam | src/2.7/Modules/ChatHarvest.py:37-42 | one item stores `harvest_skype` or `logging_level` unchanged, or else prints the "Unexpected parameter" line |
| ChatHarvest.ModuleSettings.InitializeLogger | src/2.7/Modules/ChatHarvest.py:51-79 | leaves the parsed attributes unchanged, and sets the logger level, printed lines and records as the level selection says, or returns the exception |
| ChatHarvest.StoredParameters | src/2.7/Modules/ChatHarvest.py:37-40 | `harvest_skype` and `logging_level` hold their last occurrence's value unchanged or stay unset, and nothing else is stored |
| ChatHarvest.ConstructionNeedsLoggingLevel | src/2.7/Modules/ChatHarvest.py:45-60 | constructing from a declaration without a `logging_level` parameter always raises |
| ChatHarvest.ModuleMain | src/2.7/Modules/ChatHarvest.py:92-104 | a failed `import bitCollector_main` raises ImportError first; otherwise it returns 0 iff construction succeeds and the switch is off, exceptions from construction propagate, and with the switch on it raises NameError on `self` |
| BitCollectorMain.NewMacPlatform | src/2.7/Main/bitCollector_main.py:104-116 | `MacPlatform.__init__`; its copying of the tuple is stated by `PlatformCopiesFields` |
| BitCollectorMain.NewNixPlatform | src/2.7/Main/bitCollector_main.py:131-143 | `NixPlatform.__init__`; its copying of the tuple is stated by `PlatformCopiesFields` |
| BitCollectorMain.NewWinPlatform | src/2.7/Main/bitCollector_main.py:159-172 | `WinPlatform.__init__`; its copying of the tuple is stated by `PlatformCopiesFields` |
| BitCollectorMain.Classify | src/2.7/Main/bitCollector_main.py:77-86 | the `re.search` tests on the lower-cased system name in order; stated by `ClassifyRule` |
| BitCollectorMain.NewPlatform | src/2.7/Main/bitCollector_main.py:58-86 | `Platform.__init__`; stated by `PlatformDetailMatchesFamily`, `PlatformCopiesFields`, `LinuxIsUnknown` and `DarwinIsWindows` |
| BitCollectorMain.ClassifyRule | src/2.7/Main/bitCollector_main.py:77-86 | the family is Mac iff "mac" occurs in the lower-cased system name, Unix iff "nix" does and "mac" does not, Windows iff only "win" of the three does, and Unknown iff none does |
| BitCollectorMain.PlatformDetailMatchesFamily | src/2.7/Main/bitCollector_main.py:76-86 | each detail attribute is set iff its family is selected, at most one is set, and exactly one warning is logged iff the family is Unknown |
| BitCollectorMain.PlatformCopiesFields | src/2.7/Main/bitCollector_main.py:63-73 | the six attributes equal entries 0-5 of the uname tuple, empty strings included, and each detail object copies its query's tuple positionally |
| BitCollectorMain.LinuxIsUnknown | src/2.7/Main/bitCollector_main.py:77-86 | "Linux" is classified Unknown, and no detail object is set |
| BitCollectorMain.DarwinIsWindows | src/2.7/Main/bitCollector_main.py:77-84 | "Darwin" is classified Windows, and `win_platform` is built from `win32_ver()` |
| BitCollectorMain.ImportBCModules | src/2.7/Main/bitCollector_main.py:177-189 | the loop logs the entry record, then one record per listed name |
| BitCollectorMain.ImportRecord | src/2.7/Main/bitCollector_main.py:185-189 | the record one import attempt logs; stated by `ImportLogShape` |
| BitCollectorMain.ImportLog | src/2.7/Main/bitCollector_main.py:184-189 | the records of the loop over a list of names; stated by `ImportLogShape`, `ImportLogAppend` and `ImportWarnings` |
| BitCollectorMain.FailedImports | src/2.7/Main/bitCollector_main.py:184-189 | the failed names are exactly the listed names that cannot be imported |
| BitCollectorMain.ImportLogShape | src/2.7/Main/bitCollector_main.py:184-189 | one record per name in list order: INFO "Successfully imported module: n" on success, WARNING "Unable to import module: n" on failure |
| BitCollectorMain.ImportLogAppend | src/2.7/Main/bitCollector_main.py:184-189 | what is logged for a list is what is logged for its first part, then its second: a failure does not affect later attempts |
| BitCollectorMain.ImportWarnings | src/2.7/Main/bitCollector_main.py:184-189 | the number of WARNING records equals the number of failed names, and the number of INFO records equals the number of successful ones |
| BitCollectorMain.DebugListLog | src/2.7/Main/bitCollector_main.py:181-189 | for the hard-coded list with "os", "math" and "time" importable, the WARNING records are for "foo" and "bar": 2 WARNING and 3 INFO records in all |

## Left out

- Log formatters and the file and console handlers are I/O. A log is a sequence of (logger name, level, message) records, with no timestamp, module or function name.
- The root logger's level is not modelled. It is set to DEBUG, and the platform and import loggers set no level of their own, so every record they log is kept.
- `platform.uname()`, `mac_ver()`, `linux_distribution()` and `win32_ver()` are foreign library calls. Their answers are inputs.
- `__import__` is dynamic loading. Which names it can load is an input set, and any exception it raises counts as a failure. `sys.path.append` is left out.
- `main()` and `parseConfig()` of `bitCollector_main.py` only wire the operations above together with logging, so they are not modelled.
- `main` of `Test1.py` is left out: its prints, `sys.argv`, `setLevel` with a string argument, and a reference to the non-existent `platform_details.os_type`.
- The class-body `self.logger` line and `import loggin` stop `ChatHarvest.py` from loading. The model covers its functions as if the file loaded with line 5 read as `import logging`, so that `logging.getLogger` in `initializeLogger` and `main` is bound; it claims nothing about module loading.
- Both settings classes use the logger named "ModuleSettings". The model does not capture that the two share one logger object, only which level each sets.
- Python 2 `unicode` values are treated as `str`. Lists, dicts, floats (such as `0.5`, which `str()` turns into "0.5") and `None` as parameter values are left out: scalars are strings, bools and ints.
- A parameter list item that is not a dict is left out: every item of "parameters" is a dict. A "parameters" value that is a scalar is modelled, including its exception.
- ChatHarvest.ModuleMain: whether `import bitCollector_main` succeeds is an input. The first such import in a process that started the framework as `__main__` re-runs that module's top-level logging setup (a new `example.csv` file handler that empties the file, and a second pair of root handlers); later imports reuse the cached module and re-run nothing. Those handler effects are not modelled. `logging.getLogger("module_root")` has no modelled effect.
- `framework_settings.harvest_skype` is only its truth value. The other arguments of `ChatHarvest.main` are unused and are left out.
- The code has no dispatcher, no run outcomes, no timeout and no threads. None are modelled.
- The code fills in no default settings and checks no required parameters beyond what raising shows. None are modelled.
- `upper()` and `lower()` are ASCII-only. Non-ASCII letters are unchanged.
