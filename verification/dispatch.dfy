/** The command-line side of midi2cmd: picking the port, checking it, loading
    the configuration, and turning each incoming message into at most one
    command run with the message's number in `MIDI_VALUE`. Spawning a process
    is an effect recorded in a trace; the environment, the file system, the
    ports that open and the message stream are parameters. */
module Dispatch {
  import opened Wrappers
  import opened Seqs
  import opened Text
  import opened Numerals
  import opened Messages
  import opened Bindings
  import opened Config

  /** The environment of a process: variable name to text. */
  type Env = map<string, string>

  /** The variable that carries the message's number. */
  const ValueVar: string := "MIDI_VALUE"

  /** One `subprocess.Popen(cmd, shell=True, env=env)`. */
  datatype Spawn = Spawn(cmd: string, env: Env)

  /** What the handlers do: echo a message, or start a command. */
  datatype Effect = Echo(message: Message) | Run(spawn: Spawn)

  /** `str(value)`: a number in decimal, and Python's `None` for a message
      that carries no number. */
  function ValueText(v: Option<int>): (s: string)
    ensures v.Some? ==> ParseInt(s) == Some(v.value)
    ensures v.None? ==> s == "None"
  {
    match v
    case None => "None"
    case Some(n) => ParseIntOfIntToString(n); IntToString(n)
  }

  /** `env = os.environ.copy(); env["MIDI_VALUE"] = str(value)`: the current
      environment with only `MIDI_VALUE` set. */
  function SpawnEnv(current: Env, value: Option<int>): (r: Env)
    ensures r.Keys == current.Keys + {ValueVar}
    ensures r[ValueVar] == ValueText(value)
    ensures forall k :: k in current && k != ValueVar ==> r[k] == current[k]
  {
    current[ValueVar := ValueText(value)]
  }

  /** `utils.process_message(message, cmd)`: nothing for the empty command,
      otherwise one spawn of the command as written, in the current
      environment with `MIDI_VALUE` set to the message's number. */
  function RunCommand(current: Env, m: Message, cmd: string): (r: seq<Spawn>)
    ensures |r| <= 1
    ensures r == [] <==> cmd == ""
    ensures r != [] ==> r[0].cmd == cmd
    ensures r != [] ==> r[0].env.Keys == current.Keys + {ValueVar}
    ensures r != [] ==> r[0].env[ValueVar] == ValueText(GetValue(m))
    ensures r != [] ==> forall k :: k in current && k != ValueVar ==> r[0].env[k] == current[k]
  {
    var env := SpawnEnv(current, GetValue(m));
    if cmd != "" then [Spawn(cmd, env)] else []
  }

  /** The number a spawned command reads back from `MIDI_VALUE` is the one
      the message carries: its value or its pitch. */
  lemma SpawnedValueReadsBack(current: Env, m: Message, cmd: string)
    requires cmd != "" && (m.ControlChange? || m.PitchWheel?)
    ensures ParseInt(RunCommand(current, m, cmd)[0].env[ValueVar]) ==
              Some(if m.ControlChange? then m.value else m.pitch)
  {
  }

  /** `msg_to_simple_cmd_mapper(cfg, message)`: the message's slot in
      `cfg.commands`, run when it is not empty. */
  function MapMessage(cfg: ConfigTxt, current: Env, m: Message): (r: seq<Spawn>)
    ensures r == [] <==> Get(cfg.commands, m) == ""
    ensures r != [] ==> r == [Spawn(Get(cfg.commands, m), SpawnEnv(current, GetValue(m)))]
  {
    RunCommand(current, m, Get(cfg.commands, m))
  }

  /** Against a configuration read from lines: a message starts a command
      exactly when some binding line names its slot with a non-empty command,
      and the command is the one on the last such line. */
  lemma MapMessageOfLines(lines: seq<string>, current: Env, m: Message)
    requires FromLines(lines).Ok?
    ensures MapMessage(FromLines(lines).value, current, m) != [] <==>
              LastCommand(lines, m).Some? && LastCommand(lines, m).value != ""
    ensures MapMessage(FromLines(lines).value, current, m) != [] ==>
              MapMessage(FromLines(lines).value, current, m)[0].cmd == LastCommand(lines, m).value
  {
    FromLinesSpec(lines);
  }

  /** The handlers `process_messages` is given. */
  datatype Handler = EchoHandler | CommandHandler(cfg: ConfigTxt)

  /** One handler called on one message. */
  function Handle(h: Handler, current: Env, m: Message): seq<Effect> {
    match h
    case EchoHandler => [Echo(m)]
    case CommandHandler(cfg) => Runs(MapMessage(cfg, current, m))
  }

  function Runs(spawns: seq<Spawn>): (r: seq<Effect>)
    ensures |r| == |spawns|
    ensures forall i :: 0 <= i < |r| ==> r[i] == Run(spawns[i])
    decreases |spawns|
  {
    if |spawns| == 0 then [] else [Run(spawns[0])] + Runs(spawns[1..])
  }

  /** Every handler, in order, on one message. */
  function MessageEffects(hs: seq<Handler>, current: Env, m: Message): seq<Effect>
    decreases |hs|
  {
    if |hs| == 0 then [] else MessageEffects(hs[..|hs| - 1], current, m) + Handle(hs[|hs| - 1], current, m)
  }

  /** Every message of the stream, in order, to every handler. */
  function StreamEffects(hs: seq<Handler>, current: Env, stream: seq<Message>): seq<Effect>
    decreases |stream|
  {
    if |stream| == 0 then []
    else StreamEffects(hs, current, stream[..|stream| - 1]) + MessageEffects(hs, current, stream[|stream| - 1])
  }

  /** `process_messages(port, handlers)` on the messages the port delivers:
      the effects of every message passed to every handler, in stream order
      and, for each message, in handler order. */
  method ProcessMessages(hs: seq<Handler>, current: Env, stream: seq<Message>) returns (effects: seq<Effect>)
    ensures effects == StreamEffects(hs, current, stream)
  {
    effects := [];
    var i := 0;
    while i < |stream|
      invariant 0 <= i <= |stream|
      invariant effects == StreamEffects(hs, current, stream[..i])
    {
      var m := stream[i];
      var j := 0;
      var inner: seq<Effect> := [];
      while j < |hs|
        invariant 0 <= j <= |hs|
        invariant inner == MessageEffects(hs[..j], current, m)
      {
        inner := inner + Handle(hs[j], current, m);
        MessageEffectsStep(hs, j, current, m);
        j := j + 1;
      }
      TakeAll(hs);
      StreamEffectsStep(hs, current, stream, i);
      effects := effects + inner;
      i := i + 1;
    }
    TakeAll(stream);
  }

  lemma MessageEffectsStep(hs: seq<Handler>, j: nat, current: Env, m: Message)
    requires j < |hs|
    ensures MessageEffects(hs[..j + 1], current, m) == MessageEffects(hs[..j], current, m) + Handle(hs[j], current, m)
  {
    TakeOneMore(hs, j);
  }

  lemma StreamEffectsStep(hs: seq<Handler>, current: Env, stream: seq<Message>, i: nat)
    requires i < |stream|
    ensures StreamEffects(hs, current, stream[..i + 1]) ==
              StreamEffects(hs, current, stream[..i]) + MessageEffects(hs, current, stream[i])
  {
    TakeOneMore(stream, i);
  }

  /** Reading a stream in two parts reads it whole. */
  lemma {:induction false} StreamEffectsAppend(hs: seq<Handler>, current: Env, s1: seq<Message>, s2: seq<Message>)
    ensures StreamEffects(hs, current, s1 + s2) == StreamEffects(hs, current, s1) + StreamEffects(hs, current, s2)
    decreases |s2|
  {
    if |s2| == 0 {
      assert s1 + s2 == s1;
    } else {
      StreamEffectsAppend(hs, current, s1, s2[..|s2| - 1]);
      StreamEffectsAppendStep(hs, current, s1, s2[..|s2| - 1], s2[|s2| - 1]);
      assert s2[..|s2| - 1] + [s2[|s2| - 1]] == s2;
    }
  }

  /** The step of the induction above: one more message at the end. */
  lemma StreamEffectsAppendStep(hs: seq<Handler>, current: Env, s1: seq<Message>, init: seq<Message>, last: Message)
    requires StreamEffects(hs, current, s1 + init) == StreamEffects(hs, current, s1) + StreamEffects(hs, current, init)
    ensures StreamEffects(hs, current, s1 + (init + [last])) ==
              StreamEffects(hs, current, s1) + StreamEffects(hs, current, init + [last])
  {
    var a, b, c := StreamEffects(hs, current, s1), StreamEffects(hs, current, init), MessageEffects(hs, current, last);
    ConcatAssociates(s1, init, [last]);
    StreamEffectsSnocAt(hs, current, s1 + init, last, s1 + (init + [last]));
    StreamEffectsSnoc(hs, current, init, last);
    ConcatAssociates(a, b, c);
  }


  lemma StreamEffectsSnocAt(hs: seq<Handler>, current: Env, s: seq<Message>, m: Message, whole: seq<Message>)
    requires whole == s + [m]
    ensures StreamEffects(hs, current, whole) == StreamEffects(hs, current, s) + MessageEffects(hs, current, m)
  {
    StreamEffectsSnoc(hs, current, s, m);
  }

  lemma StreamEffectsSnoc(hs: seq<Handler>, current: Env, s: seq<Message>, m: Message)
    ensures StreamEffects(hs, current, s + [m]) == StreamEffects(hs, current, s) + MessageEffects(hs, current, m)
  {
    assert (s + [m])[..|s|] == s;
  }

  /** Two handlers see each message one after the other. */
  lemma TwoHandlers(h1: Handler, h2: Handler, current: Env, m: Message)
    ensures MessageEffects([h1, h2], current, m) == Handle(h1, current, m) + Handle(h2, current, m)
  {
    assert [h1, h2][..1] == [h1];
    assert [h1][..0] == [];
    assert MessageEffects([h1], current, m) == [] + Handle(h1, current, m);
  }

  /** With only the echo handler (`dump`), the trace is the stream itself. */
  lemma {:induction false} EchoTrace(current: Env, stream: seq<Message>)
    ensures |StreamEffects([EchoHandler], current, stream)| == |stream|
    ensures forall i :: 0 <= i < |stream| ==> StreamEffects([EchoHandler], current, stream)[i] == Echo(stream[i])
    decreases |stream|
  {
    if |stream| > 0 {
      var init := stream[..|stream| - 1];
      EchoTrace(current, init);
      assert [EchoHandler][..0] == [];
      assert MessageEffects([EchoHandler], current, stream[|stream| - 1]) == [Echo(stream[|stream| - 1])];
    }
  }

  /** With only the command handler (`run`), the trace is the commands of the
      stream's messages in order, each message starting at most one. */
  lemma {:induction false} CommandTrace(cfg: ConfigTxt, current: Env, stream: seq<Message>)
    ensures |StreamEffects([CommandHandler(cfg)], current, stream)| <= |stream|
    ensures forall e :: e in StreamEffects([CommandHandler(cfg)], current, stream) ==>
              e.Run? && exists i :: 0 <= i < |stream| && e.spawn.cmd == Get(cfg.commands, stream[i]) != ""
    decreases |stream|
  {
    if |stream| > 0 {
      var init := stream[..|stream| - 1];
      var m := stream[|stream| - 1];
      CommandTrace(cfg, current, init);
      CommandHandlerOneMessage(cfg, current, m);
      var before := StreamEffects([CommandHandler(cfg)], current, init);
      var last := MessageEffects([CommandHandler(cfg)], current, m);
      assert StreamEffects([CommandHandler(cfg)], current, stream) == before + last;
      forall e: Effect | e in before + last
        ensures e.Run? && exists i :: 0 <= i < |stream| && e.spawn.cmd == Get(cfg.commands, stream[i]) != ""
      {
        if e in before {
          var i :| 0 <= i < |init| && e.spawn.cmd == Get(cfg.commands, init[i]) != "";
          assert init[i] == stream[i];
        } else {
          assert stream[|stream| - 1] == m;
        }
      }
    }
  }

  /** The command handler on one message: at most one effect, a run of the
      command bound to the message's slot. */
  lemma CommandHandlerOneMessage(cfg: ConfigTxt, current: Env, m: Message)
    ensures |MessageEffects([CommandHandler(cfg)], current, m)| <= 1
    ensures forall e :: e in MessageEffects([CommandHandler(cfg)], current, m) ==>
              e.Run? && e.spawn.cmd == Get(cfg.commands, m) != ""
  {
    assert [CommandHandler(cfg)][..0] == [];
    assert MessageEffects([CommandHandler(cfg)], current, m) == [] + Runs(MapMessage(cfg, current, m));
  }

  // The command line.

  /** The errors the command line reports. */
  datatype CliError =
    | BadParameter(message: string)
    | ConfigFailure(error: ConfigError)

  /** `port or cfg.port`: the port given on the command line unless it is
      missing or empty (both are false in Python), else the configured one. */
  function EffectivePort(cli: Option<string>, configured: Option<string>): (r: Option<string>)
    ensures cli.Some? && cli.value != "" ==> r == cli
    ensures (cli.None? || cli.value == "") ==> r == configured
  {
    match cli
    case Some(p) => if p != "" then cli else configured
    case None => configured
  }

  /** With no port on the command line, the port is the one on the
      configuration's last `port:` line. */
  lemma EffectivePortOfLines(lines: seq<string>)
    requires FromLines(lines).Ok?
    ensures EffectivePort(None, FromLines(lines).value.port) == LastPort(lines)
  {
    FromLinesSpec(lines);
  }

  /** The message of `validate_midi_port`; `None` is written as Python writes it. */
  function PortMessage(port: Option<string>): string {
    "Port '" + (match port case None => "None" case Some(p) => p) + "' is not available. Hint: use `midi2cmd list`."
  }

  /** A port check: its verdict and the ports it tried to open. */
  datatype Validation = Validation(result: Result<string, CliError>, attempts: seq<string>)

  /** `validate_midi_port(port)`, where `available` is the set of ports that
      open without an OSError. */
  function ValidateMidiPort(port: Option<string>, available: set<string>): (v: Validation)
    ensures port.None? ==> v.result == Err(BadParameter(PortMessage(None))) && v.attempts == []
    ensures port.Some? ==> v.attempts == [port.value]
    ensures port.Some? ==> (v.result.Ok? <==> port.value in available)
    ensures v.result.Ok? ==> port == Some(v.result.value)
    ensures v.result.Err? ==> v.result.error == BadParameter(PortMessage(port))
  {
    match port
    case None => Validation(Err(BadParameter(PortMessage(None))), [])
    case Some(p) =>
      if p in available then Validation(Ok(p), [p])
      else Validation(Err(BadParameter(PortMessage(port))), [p])
  }

  /** `load_config_txt(fname)` over a file system given as names to texts:
      a missing file is a BadParameter, a file that does not parse raises the
      parser's error, anything else is the parsed configuration. */
  function LoadConfigTxt(fname: string, files: map<string, string>): (r: Result<ConfigTxt, CliError>)
    ensures fname !in files <==> r == Err(BadParameter("Can't read file " + fname + "."))
    ensures fname in files ==> (r.Ok? <==> FromFile(files[fname]).Ok?)
    ensures fname in files && r.Ok? ==> r.value == FromFile(files[fname]).value
    ensures fname in files && r.Err? ==> r.error == ConfigFailure(FromFile(files[fname]).error)
  {
    if fname !in files then Err(BadParameter("Can't read file " + fname + "."))
    else
      match FromFile(files[fname])
      case Err(e) => Err(ConfigFailure(e))
      case Ok(cfg) => Ok(cfg)
  }

  /** `midi2cmd run`: load the configuration, choose and check the port, then
      run the command handler over the messages the port delivers. */
  function RunCli(fname: string, files: map<string, string>, cli: Option<string>, available: set<string>,
                  current: Env, stream: seq<Message>): (r: Result<seq<Effect>, CliError>)
    ensures fname !in files ==> r == Err(BadParameter("Can't read file " + fname + "."))
    ensures r.Ok? ==> fname in files && FromFile(files[fname]).Ok?
    ensures r.Ok? ==> EffectivePort(cli, FromFile(files[fname]).value.port).Some?
    ensures r.Ok? ==> EffectivePort(cli, FromFile(files[fname]).value.port).value in available
  {
    var cfg :- LoadConfigTxt(fname, files);
    var port := EffectivePort(cli, cfg.port);
    var p :- ValidateMidiPort(port, available).result;
    Ok(StreamEffects([CommandHandler(cfg)], current, stream))
  }

  /** What `midi2cmd run` reports, case by case: the file's absence, the
      parser's error, the port's rejection, or else the command handler's
      effects over the whole stream under the configuration read. */
  lemma RunCliOutcome(fname: string, files: map<string, string>, cli: Option<string>, available: set<string>,
                      current: Env, stream: seq<Message>)
    ensures fname in files && FromFile(files[fname]).Err? ==>
              RunCli(fname, files, cli, available, current, stream) == Err(ConfigFailure(FromFile(files[fname]).error))
    ensures fname in files && FromFile(files[fname]).Ok? ==>
              var cfg := FromFile(files[fname]).value;
              var port := EffectivePort(cli, cfg.port);
              RunCli(fname, files, cli, available, current, stream) ==
                if port.Some? && port.value in available then Ok(StreamEffects([CommandHandler(cfg)], current, stream))
                else Err(BadParameter(PortMessage(port)))
  {
  }

  /** What `midi2cmd dump` reports, case by case: the file's absence, the
      parser's error, the port's rejection, or else one echo per message. */
  lemma DumpCliOutcome(fname: string, files: map<string, string>, cli: Option<string>, available: set<string>,
                       current: Env, stream: seq<Message>)
    ensures fname in files && FromFile(files[fname]).Err? ==>
              DumpCli(fname, files, cli, available, current, stream) == Err(ConfigFailure(FromFile(files[fname]).error))
    ensures fname in files && FromFile(files[fname]).Ok? ==>
              var port := EffectivePort(cli, FromFile(files[fname]).value.port);
              DumpCli(fname, files, cli, available, current, stream) ==
                if port.Some? && port.value in available
                then Ok(seq(|stream|, i requires 0 <= i < |stream| => Echo(stream[i])))
                else Err(BadParameter(PortMessage(port)))
  {
  }

  /** `midi2cmd dump`: the same checks, then every message echoed. */
  function DumpCli(fname: string, files: map<string, string>, cli: Option<string>, available: set<string>,
                   current: Env, stream: seq<Message>): (r: Result<seq<Effect>, CliError>)
    ensures fname !in files ==> r == Err(BadParameter("Can't read file " + fname + "."))
    ensures r.Ok? ==> fname in files && FromFile(files[fname]).Ok?
    ensures r.Ok? ==> EffectivePort(cli, FromFile(files[fname]).value.port).Some?
    ensures r.Ok? ==> EffectivePort(cli, FromFile(files[fname]).value.port).value in available
    ensures r.Ok? ==> r.value == seq(|stream|, i requires 0 <= i < |stream| => Echo(stream[i]))
  {
    EchoTrace(current, stream);
    var cfg :- LoadConfigTxt(fname, files);
    var port := EffectivePort(cli, cfg.port);
    var p :- ValidateMidiPort(port, available).result;
    Ok(StreamEffects([EchoHandler], current, stream))
  }
}
