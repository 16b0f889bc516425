/** Incoming MIDI messages, the lookup key built from them, and the number a
    message carries. A message is a tagged variant: only a control change has
    a control number, and the value lives in `value` or `pitch` by tag. */
module Messages {
  import opened Wrappers

  /** The ranges the MIDI library checks when it builds a message. */
  type Channel = c: int | 0 <= c < 16
  type DataByte = b: int | 0 <= b < 128
  type Pitch = p: int | -8192 <= p < 8192

  /** The name of a message type other than the two routed ones (`note_on`,
      `program_change`, ...): a control change or a pitch wheel is always
      its own variant, so each type has exactly one representation. */
  type OtherName = s: string | s != "pitchwheel" && s != "control_change" witness "note_on"

  /** The `type` attribute of a message: the two routed kinds, and every other
      kind by its name. */
  datatype MsgType = PitchWheelType | ControlChangeType | OtherType(name: OtherName)

  datatype Message =
    | ControlChange(channel: Channel, control: DataByte, value: DataByte, time: int)
    | PitchWheel(channel: Channel, pitch: Pitch, time: int)
    | Other(name: OtherName, channel: Channel, time: int)

  /** The lookup key `(channel, type, control)`; `control` is None for every
      message without a control number. */
  datatype CommandKey = CommandKey(channel: Channel, kind: MsgType, control: Option<DataByte>)

  function TypeOf(m: Message): MsgType {
    match m
    case ControlChange(_, _, _, _) => ControlChangeType
    case PitchWheel(_, _, _) => PitchWheelType
    case Other(name, _, _) => OtherType(name)
  }

  /** `getattr(message, "control", None)`. */
  function ControlOf(m: Message): Option<DataByte> {
    if m.ControlChange? then Some(m.control) else None
  }

  /** `message.type`, the string the library gives every message. */
  function TypeName(t: MsgType): string {
    match t
    case PitchWheelType => "pitchwheel"
    case ControlChangeType => "control_change"
    case OtherType(name) => name
  }

  /** The type string determines the type: comparing `MsgType`s is comparing
      the `type` strings of the key tuple. */
  lemma TypeNameInjective(t1: MsgType, t2: MsgType)
    ensures TypeName(t1) == TypeName(t2) <==> t1 == t2
  {
  }

  /** The key of a message: channel, type and (when there is one) control. */
  function KeyOf(m: Message): (k: CommandKey)
    ensures k.channel == m.channel
    ensures k.control.Some? <==> m.ControlChange?
  {
    CommandKey(m.channel, TypeOf(m), ControlOf(m))
  }

  /** When two messages are the same binding slot, defined tag by tag: value,
      pitch and time never take part. */
  predicate SameSlot(m1: Message, m2: Message) {
    match (m1, m2)
    case (ControlChange(c1, k1, _, _), ControlChange(c2, k2, _, _)) => c1 == c2 && k1 == k2
    case (PitchWheel(c1, _, _), PitchWheel(c2, _, _)) => c1 == c2
    case (Other(n1, c1, _), Other(n2, c2, _)) => n1 == n2 && c1 == c2
    case _ => false
  }

  /** Two messages have the same key exactly when they are the same slot. */
  lemma KeyOfIdentifiesSlot(m1: Message, m2: Message)
    ensures KeyOf(m1) == KeyOf(m2) <==> SameSlot(m1, m2)
  {
  }

  /** Changing only the value, the pitch or the time keeps the key. */
  lemma KeyIgnoresValueAndTime(m: Message, value: DataByte, pitch: Pitch, time: int)
    ensures m.ControlChange? ==> KeyOf(m.(value := value, time := time)) == KeyOf(m)
    ensures m.PitchWheel? ==> KeyOf(m.(pitch := pitch, time := time)) == KeyOf(m)
    ensures m.Other? ==> KeyOf(m.(time := time)) == KeyOf(m)
  {
  }

  /** `get_value(message)`: the pitch of a pitch wheel, the value of a control
      change, and None (Python's implicit return) for every other type. */
  function GetValue(m: Message): (r: Option<int>)
    ensures r.Some? <==> (m.PitchWheel? || m.ControlChange?)
  {
    match m
    case PitchWheel(_, pitch, _) => Some(pitch)
    case ControlChange(_, _, value, _) => Some(value)
    case Other(_, _, _) => None
  }

  /** Reassembles a message from its key, its value and its time; None when the
      three do not fit together. */
  function Rebuild(k: CommandKey, v: Option<int>, time: int): Option<Message> {
    match k.kind
    case ControlChangeType =>
      if k.control.Some? && v.Some? && 0 <= v.value < 128
      then Some(ControlChange(k.channel, k.control.value, v.value, time)) else None
    case PitchWheelType =>
      if k.control.None? && v.Some? && -8192 <= v.value < 8192
      then Some(PitchWheel(k.channel, v.value, time)) else None
    case OtherType(name) =>
      if k.control.None? && v.None? then Some(Other(name, k.channel, time)) else None
  }

  /** Key and value split a message without loss: together with the time they
      give the message back. So the value is exactly what the key leaves out. */
  lemma RebuildKeyAndValue(m: Message)
    ensures Rebuild(KeyOf(m), GetValue(m), m.time) == Some(m)
  {
  }

  /** Every key-and-value pair that fits together comes from a message. */
  lemma RebuildIsInverse(k: CommandKey, v: Option<int>, time: int)
    requires Rebuild(k, v, time).Some?
    ensures KeyOf(Rebuild(k, v, time).value) == k
    ensures GetValue(Rebuild(k, v, time).value) == v
  {
  }
}
