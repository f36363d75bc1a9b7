/**
 * Log levels. The Level type and the built-in levels live in a file of the
 * repository that is not part of this model, so the built-in levels are opaque
 * constants here: nothing is assumed about their names, severities or colours.
 */
module Levels {
  /**
   * A severity tier. Color and Reset are the byte strings that Level.GetColor()
   * and Level.GetReset() return (the ANSI escape that starts and ends the line on
   * the console).
   */
  datatype Level = Level(Name: string, Severity: int, Color: string, Reset: string)

  const LevelDebug: Level
  const LevelInfo: Level
  const LevelWarn: Level
  const LevelError: Level
  const LevelFatal: Level
}
