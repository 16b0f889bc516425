/** `midi2cmd run` end to end on a small configuration: a control change
    bound to `echo $MIDI_VALUE` starts that command once, with the message's
    value in the environment. */
module DispatchExamples {
  import opened Wrappers
  import opened Text
  import opened Numerals
  import opened Messages
  import opened Bindings
  import opened Config
  import opened Rendering
  import opened ConfigExamples
  import opened Dispatch

  /** The configuration file: a port and one binding, indented by `indent`. */
  function EchoConfig(indent: string, tail: string): string {
    FileOf(["",
            indent + "port" + ": " + "Test Device",
            indent + "control_change channel=10 control=9" + ": " + "echo $MIDI_VALUE",
            tail])
  }

  function EchoTable(): MessageDict {
    Set(Empty(), ControlChange(10, 9, 0, 0), "echo $MIDI_VALUE")
  }

  lemma EchoCommandOneLine()
    ensures OneLine("echo $MIDI_VALUE")
  {
  }

  lemma EchoConfigReads(indent: string, tail: string)
    requires Blanks(indent) && Blanks(tail)
    ensures FromFile(EchoConfig(indent, tail)) == Ok(EchoSettings())
  {
    NamesOneLine();
    EchoCommandOneLine();
    PatternsShaped();
    Channel10Control9();
    PortBindingFile(indent + "port" + ": " + "Test Device",
                    indent + "control_change channel=10 control=9" + ": " + "echo $MIDI_VALUE",
                    indent, tail, "Test Device", "control_change channel=10 control=9", "echo $MIDI_VALUE",
                    ControlChange(10, 9, 0, 0));
  }

  /** One control change on channel 10, control 9 with value 64: exactly one
      command starts, `echo $MIDI_VALUE` as written, with `MIDI_VALUE` set to
      "64" and every other variable as it was. */
  lemma RunEchoExample(indent: string, tail: string, current: Env, time: int)
    requires Blanks(indent) && Blanks(tail)
    ensures RunCli("config.txt", map["config.txt" := EchoConfig(indent, tail)], None, {"Test Device"},
                   current, [ControlChange(10, 9, 64, time)])
            == Ok([Run(Spawn("echo $MIDI_VALUE", SpawnEnv(current, Some(64))))])
    ensures SpawnEnv(current, Some(64))[ValueVar] == "64"
    ensures forall k :: k in current && k != ValueVar ==> SpawnEnv(current, Some(64))[k] == current[k]
  {
    EchoConfigReads(indent, tail);
    EchoEnvironment(current);
    RunEchoOn(EchoConfig(indent, tail), current, time);
  }

  /** The run over any file that reads as the echo configuration. */
  lemma RunEchoOn(text: string, current: Env, time: int)
    requires FromFile(text) == Ok(EchoSettings())
    ensures RunCli("config.txt", map["config.txt" := text], None, {"Test Device"},
                   current, [ControlChange(10, 9, 64, time)])
            == Ok([Run(Spawn("echo $MIDI_VALUE", SpawnEnv(current, Some(64))))])
  {
    EchoEffects(current, time);
    RunCliOutcome("config.txt", map["config.txt" := text], None, {"Test Device"},
                  current, [ControlChange(10, 9, 64, time)]);
  }

  function EchoSettings(): ConfigTxt {
    ConfigTxt(Some("Test Device"), DefaultWindow, EchoTable())
  }

  /** The command handler on the one message: one spawn of the bound command. */
  lemma EchoEffects(current: Env, time: int)
    ensures StreamEffects([CommandHandler(EchoSettings())], current, [ControlChange(10, 9, 64, time)])
            == [Run(Spawn("echo $MIDI_VALUE", SpawnEnv(current, Some(64))))]
  {
    var cfg := EchoSettings();
    var m := ControlChange(10, 9, 64, time);
    assert Get(EchoTable(), m) == "echo $MIDI_VALUE";
    OneHandlerOneMessage(CommandHandler(cfg), current, m);
    assert GetValue(m) == Some(64);
    assert MapMessage(cfg, current, m) == [Spawn("echo $MIDI_VALUE", SpawnEnv(current, Some(64)))];
    assert Runs([Spawn("echo $MIDI_VALUE", SpawnEnv(current, Some(64)))])
           == [Run(Spawn("echo $MIDI_VALUE", SpawnEnv(current, Some(64))))];
  }

  /** The command's environment: `MIDI_VALUE` is "64", the rest unchanged. */
  lemma EchoEnvironment(current: Env)
    ensures SpawnEnv(current, Some(64))[ValueVar] == "64"
    ensures forall k :: k in current && k != ValueVar ==> SpawnEnv(current, Some(64))[k] == current[k]
  {
    ValueOf64();
  }

  lemma ValueOf64()
    ensures ValueText(Some(64)) == "64"
  {
    assert IntToString(64) == "64";
  }

  lemma OneHandlerOneMessage(h: Handler, current: Env, m: Message)
    ensures StreamEffects([h], current, [m]) == Handle(h, current, m)
  {
    assert [m][..0] == [];
    assert [h][..0] == [];
    assert MessageEffects([h], current, m) == [] + Handle(h, current, m);
    assert StreamEffects([h], current, [m]) == [] + MessageEffects([h], current, m);
  }

  /** A message of another slot starts nothing. */
  lemma RunOtherSlotExample(indent: string, tail: string, current: Env, m: Message)
    requires Blanks(indent) && Blanks(tail)
    requires !SameSlot(m, ControlChange(10, 9, 0, 0))
    ensures RunCli("config.txt", map["config.txt" := EchoConfig(indent, tail)], None, {"Test Device"},
                   current, [m]) == Ok([])
  {
    EchoConfigReads(indent, tail);
    var cfg := ConfigTxt(Some("Test Device"), DefaultWindow, EchoTable());
    assert Get(EchoTable(), m) == "";
    OneHandlerOneMessage(CommandHandler(cfg), current, m);
  }

  /** A port that does not open stops the run before any message is read. */
  lemma RunUnavailablePortExample(indent: string, tail: string, current: Env, stream: seq<Message>)
    requires Blanks(indent) && Blanks(tail)
    ensures RunCli("config.txt", map["config.txt" := EchoConfig(indent, tail)], None, {},
                   current, stream) == Err(BadParameter(PortMessage(Some("Test Device"))))
  {
    EchoConfigReads(indent, tail);
  }
}
