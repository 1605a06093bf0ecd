/**
 * The logging side of the application configuration: the log-level validator
 * and the guard and handler values of `configure_logger`. The logger is the
 * process-wide logger, modelled as an object holding its list of handlers.
 */
module AppConfig {
  import opened Text
  import opened Wrappers

  /** The level names the validator accepts, all upper case. */
  const ValidLevels: set<string> := {"TRACE", "DEBUG", "INFO", "SUCCESS", "WARNING", "ERROR", "CRITICAL"}

  const DefaultLogFolder: string := "logs"
  const DefaultRetentionDays: int := 10
  const FileRotation: string := "50 MB"

  /** `validate_log_level`: the upper-cased level is one of the seven names. */
  predicate ValidateLogLevel(level: string) {
    Upper(level) in ValidLevels
  }

  /** `level` spells `name` letter by letter, ignoring the case of ASCII letters. */
  predicate SpellsIgnoringCase(level: string, name: string) {
    |level| == |name| && forall i :: 0 <= i < |level| ==> UpperChar(level[i]) == UpperChar(name[i])
  }

  /** The validator accepts exactly the strings that spell one of the seven names in any mix of cases. */
  lemma ValidateLogLevelSpellsAName(level: string)
    ensures ValidateLogLevel(level) <==> exists name :: name in ValidLevels && SpellsIgnoringCase(level, name)
  {
    forall name | name in ValidLevels
      ensures SpellsIgnoringCase(level, name) <==> Upper(level) == name
    {
      CaseMappingsAbsorb(name);
      assert Upper(name) == name;
      if SpellsIgnoringCase(level, name) {
        assert Upper(level) == Upper(name);
      }
    }
  }

  /** Validation is case-insensitive: it gives the same answer for the upper- and lower-cased level. */
  lemma ValidateLogLevelIgnoresCase(level: string)
    ensures ValidateLogLevel(level) == ValidateLogLevel(Upper(level))
    ensures ValidateLogLevel(level) == ValidateLogLevel(Lower(level))
  {
    CaseMappingsAbsorb(level);
  }

  /** Accepted and refused spellings: loguru's names in any case, but not "WARN" nor the empty string. */
  lemma ValidateLogLevelExamples()
    ensures ValidateLogLevel("debug") && ValidateLogLevel("Warning") && ValidateLogLevel("CRITICAL")
    ensures !ValidateLogLevel("WARN") && !ValidateLogLevel("") && !ValidateLogLevel("verbose")
  {
    assert Upper("debug") == "DEBUG";
    assert Upper("Warning") == "WARNING";
    assert Upper("CRITICAL") == "CRITICAL";
    assert Upper("WARN") == "WARN";
    assert Upper("verbose") == "VERBOSE";
  }

  /** The retention string a log loader hands to the file handler: `f"{days} days"`. */
  function Retention(days: int): (r: string)
    ensures |r| > 5 && EndsWith(r, " days")
    ensures var n := r[..|r| - 5];
      |n| > 0 && (n[0] == '-' || IsDigit(n[0])) && (forall j :: 0 < j < |n| ==> IsDigit(n[j]))
      && SignedDecimalValue(n) == days
    ensures var n := r[..|r| - 5];
      (n[0] == '0' ==> n == "0") && (n[0] == '-' ==> |n| > 1 && n[1] != '0')
  {
    IntToDecimalRoundTrip(days);
    var r := IntToDecimal(days) + " days";
    assert r[..|r| - 5] == IntToDecimal(days);
    r
  }

  /** With the default retention period the file handler keeps logs for "10 days". */
  lemma DefaultRetentionIsTenDays()
    ensures Retention(DefaultRetentionDays) == "10 days"
  {
    assert NatToDecimal(10) == "10";
  }

  datatype Sink = LogFile(folder: string, file: string) | Stdout

  datatype Handler = Handler(sink: Sink, format: string, level: string, rotation: Option<string>, retention: Option<string>)

  datatype ConfigError = InvalidLogLevel(message: string)

  /** The process-wide loguru logger, seen as its list of handlers. */
  class Logger {
    var handlers: seq<Handler>

    constructor (handlers: seq<Handler>)
      ensures this.handlers == handlers
    {
      this.handlers := handlers;
    }
  }

  class LogLoader {
    const logFolder: string
    const logRetentionDays: int

    /** `LogLoader()` with its default folder and retention period. */
    constructor Default()
      ensures logFolder == "logs" && logRetentionDays == 10
    {
      logFolder := DefaultLogFolder;
      logRetentionDays := DefaultRetentionDays;
    }

    constructor (logFolder: string, logRetentionDays: int)
      ensures this.logFolder == logFolder && this.logRetentionDays == logRetentionDays
    {
      this.logFolder := logFolder;
      this.logRetentionDays := logRetentionDays;
    }

    /**
     * `configure_logger`: an invalid level is refused before the logger is
     * touched; a valid one replaces every handler by a rotating file handler
     * under the log folder and a stdout handler, both at the upper-cased level.
     */
    method ConfigureLogger(logger: Logger, logFile: string, logFormat: string, logLevel: string)
      returns (r: Outcome<ConfigError>)
      modifies logger
      ensures !ValidateLogLevel(logLevel) ==>
        r == Fail(InvalidLogLevel("Invalid logging level: " + logLevel + " is not supported."))
        && logger.handlers == old(logger.handlers)
      ensures ValidateLogLevel(logLevel) ==>
        r == Pass
        && logger.handlers == [
             Handler(LogFile(logFolder, logFile), logFormat, Upper(logLevel), Some(FileRotation), Some(Retention(logRetentionDays))),
             Handler(Stdout, logFormat, Upper(logLevel), None, None)]
      ensures forall h :: h in logger.handlers && h !in old(logger.handlers) ==> h.level in ValidLevels
    {
      if !ValidateLogLevel(logLevel) {
        return Fail(InvalidLogLevel("Invalid logging level: " + logLevel + " is not supported."));
      }
      logger.handlers := [];
      var level := Upper(logLevel);
      logger.handlers := logger.handlers
        + [Handler(LogFile(logFolder, logFile), logFormat, level, Some(FileRotation), Some(Retention(logRetentionDays)))];
      logger.handlers := logger.handlers + [Handler(Stdout, logFormat, level, None, None)];
      r := Pass;
    }
  }
}
