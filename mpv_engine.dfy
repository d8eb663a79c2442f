/**
 * The narrow interface of the native libmpv engine as the player sees it.
 * The engine itself is opaque: what it answers to a property read is an input
 * of each operation, and what the player asks of it (property writes, option
 * writes, commands, surface attachment, teardown) is recorded as an
 * `EngineCall` in a log.
 */
module MpvEngine {

  /** An Android `Surface` handed to the engine; only its identity matters. */
  datatype Surface = Surface(handle: nat)

  /**
   * One element of a command array. `StartAt(ms)` stands for the string
   * "start=" followed by `ms / 1000.0` in Kotlin's rendering of a double,
   * which is not modelled.
   */
  datatype CommandArg = Arg(text: string) | StartAt(startPositionMs: int)

  datatype EngineCall =
    | SetPropertyBoolean(name: string, flag: bool)
    | SetPropertyString(name: string, text: string)
      /** the double `millis / 1000.0`, i.e. a time in seconds */
    | SetPropertyDouble(name: string, millis: int)
      /** a double property written with a value the player passes through unchanged */
    | SetPropertyReal(name: string, value: real)
    | SetOptionString(name: string, text: string)
    | Command(args: seq<CommandArg>)
    | AttachSurface(surface: Surface)
    | DetachSurface
    | RemoveObserver
    | Destroy

  /** Whether a call is a `loadfile` command. */
  predicate IsLoadfile(c: EngineCall) {
    c.Command? && |c.args| > 0 && c.args[0] == Arg("loadfile")
  }

  /**
   * The observed properties the player reacts to. Their engine names live in
   * a constants file that is not part of this model, so they are symbolic.
   */
  datatype PropertyName = PositionProperty | PausedProperty | DurationProperty | OtherProperty(name: string)

  // Event ids, numbered as libmpv's `mpv_event_id`.
  const EventEndFile: int := 7
  const EventFileLoaded: int := 8
  const EventVideoReconfig: int := 17
  const EventAudioReconfig: int := 18
  const EventPlaybackRestart: int := 21

  // End-of-file reasons, numbered as libmpv's `mpv_end_file_reason`.
  const EndFileReasonEof: int := 0
  const EndFileReasonStop: int := 2
  const EndFileReasonError: int := 4
}
