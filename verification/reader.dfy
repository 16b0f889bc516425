/** `midi_reader.process_message`: the early, hard-wired dispatcher. It builds
    the message's key, looks it up in a fixed table of three bindings and
    prints the command it finds; the `commands` argument is not consulted. */
module MidiReader {
  import opened Wrappers
  import opened Messages
  import opened Bindings

  const VolumeCommand: string := "pactl set-sink-volume @DEFAULT_SINK@ $((MIDI_VALUE * 512))"
  const RaiseHandCommand: string := "xdotool key ctrl+shift+h"
  const PitchCommand: string := "echo pitch changed"

  /** The fixed table, keyed as the source keys it. */
  function BuiltinTable(): map<CommandKey, string> {
    map[CommandKey(10, ControlChangeType, Some(9)) := VolumeCommand,
        CommandKey(10, ControlChangeType, Some(18)) := RaiseHandCommand,
        CommandKey(10, PitchWheelType, None) := PitchCommand]
  }

  /** `cmds.get(key)`. */
  function Lookup(table: map<CommandKey, string>, k: CommandKey): Option<string> {
    if k in table then Some(table[k]) else None
  }

  /** Which messages the table binds, read off the messages themselves:
      control 9 or 18 on channel 10, or any pitch wheel on channel 10. */
  predicate BuiltinBound(m: Message) {
    match m
    case ControlChange(channel, control, _, _) => channel == 10 && (control == 9 || control == 18)
    case PitchWheel(channel, _, _) => channel == 10
    case Other(_, _, _) => false
  }

  /** The command a bound message prints, again by message shape. */
  function BuiltinCommand(m: Message): string
    requires BuiltinBound(m)
  {
    match m
    case ControlChange(_, control, _, _) => if control == 9 then VolumeCommand else RaiseHandCommand
    case PitchWheel(_, _, _) => PitchCommand
  }

  /** `process_message(message, commands)`: the lines printed. At most one
      line, exactly for the bound messages, and it is the bound command. */
  function ProcessMessage(m: Message, commands: MessageDict): (out: seq<string>)
    ensures |out| <= 1
    ensures out != [] <==> BuiltinBound(m)
    ensures BuiltinBound(m) ==> out == [BuiltinCommand(m)]
  {
    match Lookup(BuiltinTable(), KeyOf(m))
    case None => []
    case Some(cmd) => if cmd != "" then [cmd] else []
  }

  /** Lookup is exact: a control change is bound only on channel 10 with
      control 9 or 18, whatever its value and time. */
  lemma ControlChangeExact(ch: Channel, ctl: DataByte, value: DataByte, time: int, commands: MessageDict)
    ensures ProcessMessage(ControlChange(ch, ctl, value, time), commands) != [] <==>
              ch == 10 && (ctl == 9 || ctl == 18)
    ensures ch == 10 && ctl == 9 ==>
              ProcessMessage(ControlChange(ch, ctl, value, time), commands) == [VolumeCommand]
  {
  }

  /** A pitch wheel on channel 10 prints its command whatever its pitch; on
      any other channel nothing is printed. */
  lemma PitchWheelAnyPitch(ch: Channel, pitch: Pitch, time: int, commands: MessageDict)
    ensures ProcessMessage(PitchWheel(ch, pitch, time), commands) ==
              if ch == 10 then [PitchCommand] else []
  {
  }

  /** What is printed depends on the message's slot only, never on its value,
      pitch or time, nor on the `commands` argument. */
  lemma ProcessMessageBySlot(m1: Message, m2: Message, c1: MessageDict, c2: MessageDict)
    requires SameSlot(m1, m2)
    ensures ProcessMessage(m1, c1) == ProcessMessage(m2, c2)
  {
    KeyOfIdentifiesSlot(m1, m2);
  }
}
