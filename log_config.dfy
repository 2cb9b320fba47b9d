/** llog/config.go: the level names of the configuration and the default
    logger settings. */
module LogConfig {

  import opened Text

  /** The zapcore levels the map can yield. */
  datatype Level = DebugLevel | InfoLevel | WarnLevel | ErrorLevel | FatalLevel

  /** zapcore's numeric value of a level. */
  function Code(l: Level): int {
    match l
    case DebugLevel => -1
    case InfoLevel => 0
    case WarnLevel => 1
    case ErrorLevel => 2
    case FatalLevel => 5
  }

  const levelMap: map<string, Level> := map[
    "debug" := DebugLevel,
    "info" := InfoLevel,
    "warn" := WarnLevel,
    "error" := ErrorLevel,
    "fatal" := FatalLevel
  ]

  /** `getLogLevel`. */
  function GetLogLevel(level: string): Level {
    if level == "" then InfoLevel
    else if ToLower(level) in levelMap then levelMap[ToLower(level)]
    else InfoLevel
  }

  /** The five names map to their levels in any letter case; the empty
      string and every other name map to Info. */
  lemma GetLogLevelSpec(level: string)
    ensures GetLogLevel(level) == DebugLevel <==> ToLower(level) == "debug"
    ensures GetLogLevel(level) == WarnLevel <==> ToLower(level) == "warn"
    ensures GetLogLevel(level) == ErrorLevel <==> ToLower(level) == "error"
    ensures GetLogLevel(level) == FatalLevel <==> ToLower(level) == "fatal"
    ensures GetLogLevel(level) == InfoLevel <==> ToLower(level) !in {"debug", "warn", "error", "fatal"}
    ensures GetLogLevel("") == InfoLevel && GetLogLevel("WARN") == WarnLevel
  {
    assert ToLower("WARN") == "warn";
  }

  /** The fields of `LogSetting`. */
  datatype LogSetting = LogSetting(
    console: bool, file: bool, filePath: string,
    maxSize: int, maxAge: int, maxBackups: int,
    compress: bool, localTime: bool, format: string,
    level: string, outputFormat: string)

  const DefaultConfig := LogSetting(true, true, "logs", 64, 7, 30, true, true, "%s.log", "debug", "text")
}
