/** Log levels and log records as the core uses Python's `logging` package:
    the five named levels with their numeric severities, the records a logger
    emits, and the case-insensitive mapping from a configured level name to a
    level that both collector modules perform in `initializeLogger`. */
module Logging {
  import opened Python

  datatype Level = Debug | Info | Warning | Error | Critical

  /** The numeric value `logging` gives each level. */
  function Severity(l: Level): nat
  {
    match l
    case Debug => 10
    case Info => 20
    case Warning => 30
    case Error => 40
    case Critical => 50
  }

  /** The level's name as `logging` spells it. */
  function LevelName(l: Level): string
  {
    match l
    case Debug => "DEBUG"
    case Info => "INFO"
    case Warning => "WARNING"
    case Error => "ERROR"
    case Critical => "CRITICAL"
  }

  /** One record handed to the logging sink: the emitting logger's name, the
      record's level and its message. */
  datatype Record = Record(logger: string, level: Level, message: string)

  /** Number of records at level `l`. */
  function CountAt(log: seq<Record>, l: Level): (n: nat)
    ensures n <= |log|
  {
    if log == [] then 0 else (if log[0].level == l then 1 else 0) + CountAt(log[1..], l)
  }

  lemma {:induction false} CountAtAppend(a: seq<Record>, b: seq<Record>, l: Level)
    ensures CountAt(a + b, l) == CountAt(a, l) + CountAt(b, l)
  {
    if a == [] {
      assert a + b == b;
    } else {
      assert (a + b)[0] == a[0] && (a + b)[1..] == a[1..] + b;
      CountAtAppend(a[1..], b, l);
    }
  }

  /** A log with no record at level `l` counts none. */
  lemma {:induction false} CountAtAbsent(log: seq<Record>, l: Level)
    requires forall k :: 0 <= k < |log| ==> log[k].level != l
    ensures CountAt(log, l) == 0
  {
    if log != [] {
      CountAtAbsent(log[1..], l);
    }
  }

  /** What a logger whose own level is `threshold` passes on for a call at
      `rec.level`: the record when its level is at least the threshold. */
  function Emit(threshold: Level, rec: Record): seq<Record>
  {
    if Severity(threshold) <= Severity(rec.level) then [rec] else []
  }

  /** Lowering a logger's level never loses a record it passed, a DEBUG
      logger passes every record, and a DEBUG record passes only a DEBUG
      logger. */
  lemma EmitByLevel(t1: Level, t2: Level, rec: Record)
    ensures Severity(t1) <= Severity(t2) && Emit(t2, rec) == [rec] ==> Emit(t1, rec) == [rec]
    ensures Emit(Debug, rec) == [rec]
    ensures rec.level == Debug ==> (Emit(t1, rec) == [rec] <==> t1 == Debug)
    ensures Emit(t1, rec) != [rec] ==> Emit(t1, rec) == []
  {
  }

  /** The if/elif chain of `initializeLogger`: the configured value,
      upper-cased, compared with each level name in turn. `None` means no name
      matched. */
  function LevelFor(raw: string): Option<Level>
  {
    LevelNamed(Upper(raw))
  }

  /** The comparisons of that chain, on the already upper-cased value. */
  function LevelNamed(u: string): Option<Level>
  {
    if u == "DEBUG" then Some(Debug)
    else if u == "INFO" then Some(Info)
    else if u == "WARNING" then Some(Warning)
    else if u == "ERROR" then Some(Error)
    else if u == "CRITICAL" then Some(Critical)
    else None
  }

  /** A configured value selects level `l` exactly when it is `l`'s name up to
      letter case; otherwise it selects nothing. */
  lemma LevelForNames(raw: string, l: Level)
    ensures LevelFor(raw) == Some(l) <==> Upper(raw) == LevelName(l)
    ensures LevelFor(raw) == None <==> forall k: Level :: Upper(raw) != LevelName(k)
  {
    assert "DEBUG" != "INFO" && "DEBUG" != "WARNING" && "DEBUG" != "ERROR" && "DEBUG" != "CRITICAL";
    assert "INFO" != "WARNING" && "INFO" != "ERROR" && "INFO" != "CRITICAL";
    assert "WARNING" != "ERROR" && "WARNING" != "CRITICAL" && "ERROR" != "CRITICAL";
    if LevelFor(raw) == None {
      forall k: Level ensures Upper(raw) != LevelName(k) {
        assert LevelFor(raw) != Some(k);
      }
    } else {
      var k := LevelFor(raw).value;
      assert Upper(raw) == LevelName(k);
    }
  }

  /** Each level's own name, in any letter case, selects it. */
  lemma LevelForOwnName(l: Level, spelled: string)
    requires Upper(spelled) == LevelName(l)
    ensures LevelFor(spelled) == Some(l)
    ensures LevelFor(Lower(spelled)) == Some(l)
  {
    LevelForNames(spelled, l);
    UpperOfLower(spelled);
    LevelForNames(Lower(spelled), l);
  }

  /** The selection ignores letter case entirely. */
  lemma LevelForIgnoresCase(raw: string)
    ensures LevelFor(Upper(raw)) == LevelFor(raw)
    ensures LevelFor(Lower(raw)) == LevelFor(raw)
  {
    UpperIdempotent(raw);
    UpperOfLower(raw);
  }
}
