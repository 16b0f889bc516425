# midi2cmd binding engine, in Dafny

midi2cmd turns MIDI messages into shell commands. A text configuration binds message patterns
(`control_change channel=10 control=9`, `pitchwheel channel=10`) to commands. Each incoming message
is reduced to a key `(channel, type, control)` and looked up in the binding table. A non-empty
command is started with the message's number in the `MIDI_VALUE` environment variable.

This project models that engine as pure functions over immutable data and proves what the code
and its tests promise about it.

| file | module | what it models |
|---|---|---|
| `wrappers.dfy` | `Wrappers` | `Option` and `Result` |
| `seqs.dfy` | `Seqs` | small sequence facts the proofs share |
| `text.dfy` | `Text` | `str.strip()`, `str.split()` with no argument, `split(sep, 1)`, and line splitting |
| `numerals.dfy` | `Numerals` | `str(int)` and `int(str)` on decimal numerals |
| `messages.dfy` | `Messages` | MIDI messages as a tagged variant, `CommandKey`, and `get_value` |
| `reader.dfy` | `MidiReader` | `midi_reader.process_message`, the early dispatcher with its fixed table |
| `flatten.dfy` | `Flatten` | `dict_to_tuples` over nested dictionaries kept in insertion order |
| `bindings.dfy` | `Bindings` | `MessageDict`: get, set, `len` and `load` |
| `config.dfy` | `Config` | `ConfigTxt.from_file`: line classification, message patterns, `accumulate_window` |
| `rendering.dfy` | `Rendering` | writing a configuration as text, and reading it back |
| `dispatch.dfy` | `Dispatch` | `utils.process_message`, `msg_to_simple_cmd_mapper`, `process_messages`, port choice and checks, `load_config_txt`, the `run` and `dump` commands |
| `*_examples.dfy` | `…Examples` | the repository's test cases, stated as lemmas |

Some things the code reaches are given to the model as parameters:
- the environment is a map;
- the file system is a map from names to texts;
- the ports that open are a set;
- the port's messages are a finite sequence.

Starting a process is an effect (`Run(Spawn(cmd, env))`) in the trace that a run returns.

`ConfigTxt`, `MessageDict` and `dict_to_tuples` are imported by the code and the tests, but
`midi_reader.py` does not define the first two and `utils.py` does not define the third. They are
modelled from the behaviour the tests assert. Where the tests say nothing, the
model makes choices:
- `#` comment lines are skipped.
- Of several `port:` lines the last one wins.
- A line without a colon is an error.
- A binding pattern is a `control_change` or `pitchwheel` pattern in the MIDI library's text form,
  with integer attribute values. Missing attributes are 0. The library's ranges apply: channel
  below 16, control and value below 128, pitch in -8192..8191. Patterns of any other type are
  errors (see "Left out").

Where the code disagrees with itself:
- `console.py` imports `runcmd` from `utils`, but `utils.py` defines only `get_value` and
  `process_message(message, cmd)`. The model takes `runcmd(cmd, MIDI_VALUE=v)` to do what
  `utils.process_message` does.
- `test_utils.py` imports `dict_to_tuples` from `utils`, which does not define it either.

## Model

| member | source | states |
|---|---|---|
| Messages.KeyOf | src/midi2cmd/midi_reader.py:18 | the key keeps the message's channel and carries a control number exactly when the message is a control change |
| Messages.TypeNameInjective | src/midi2cmd/midi_reader.py:3 | two message types are equal if and only if their `type` strings are, so each type has one key |
| Messages.KeyOfIdentifiesSlot | src/midi2cmd/midi_reader.py:3 | two messages have the same `(channel, type, control)` key if and only if they are the same binding slot |
| Messages.KeyIgnoresValueAndTime | tests/test_midi_reader.py:14-33 | changing only a message's value, pitch or time never changes its key |
| Messages.GetValue | src/midi2cmd/utils.py:5-9 | there is a number exactly for pitch wheels and control changes, and None for every other type |
| Messages.RebuildKeyAndValue | src/midi2cmd/utils.py:6-9 | the key, the value `get_value` returns and the time give the message back, so the value is the pitch of a pitch wheel and the value of a control change |
| Messages.RebuildIsInverse | src/midi2cmd/utils.py:5-9 | every key and value that fit together are the key and `get_value` of some message |
| MidiReader.ProcessMessage | src/midi2cmd/midi_reader.py:6-21 | at most one line is printed; one is printed exactly for control 9 or 18 on channel 10 and for a pitch wheel on channel 10, and it is that binding's command |
| MidiReader.ControlChangeExact | src/midi2cmd/midi_reader.py:8-19 | a control change prints something if and only if it is on channel 10 with control 9 or 18, whatever its value and time |
| MidiReader.PitchWheelAnyPitch | src/midi2cmd/midi_reader.py:15-18 | a pitch wheel on channel 10 prints `echo pitch changed` for every pitch; on any other channel nothing is printed |
| MidiReader.ProcessMessageBySlot | src/midi2cmd/midi_reader.py:18-21 | the output depends only on the message's slot, never on value, pitch, time or the `commands` argument |
| Dispatch.ValueText | src/midi2cmd/utils.py:15 | `str(value)` reads back as the same number, and a missing value is written `None` |
| Dispatch.SpawnEnv | src/midi2cmd/utils.py:14-15 | the child's environment is the current one plus `MIDI_VALUE` set to `str(value)`; every other variable keeps its value |
| Dispatch.RunCommand | src/midi2cmd/utils.py:12-17 | an empty command starts nothing; any other starts exactly one process, with the command text unchanged and the environment above |
| Dispatch.SpawnedValueReadsBack | src/midi2cmd/utils.py:13-15 | the started command reads back from `MIDI_VALUE` the control change's value or the pitch wheel's pitch |
| Dispatch.MapMessage | src/midi2cmd/console.py:98-101 | nothing runs exactly when the message's slot in `cfg.commands` is empty; otherwise that command runs once, with `MIDI_VALUE` from `get_value` |
| Dispatch.MapMessageOfLines | src/midi2cmd/console.py:98-100 | under a configuration read from lines, a message starts a command if and only if the last binding line for its slot has a non-empty command, and it starts that one |
| Dispatch.ProcessMessages | src/midi2cmd/console.py:87-91 | the loop gives every message, in stream order, to every handler, in handler order |
| Dispatch.StreamEffectsAppend | src/midi2cmd/console.py:89-91 | reading a stream in two parts gives the effects of the first part followed by those of the second |
| Dispatch.TwoHandlers | src/midi2cmd/console.py:90-91 | with two handlers, each message goes to the first and then to the second |
| Dispatch.EchoTrace | src/midi2cmd/console.py:94-95 | the echo handler echoes every message once, in order, and does nothing else |
| Dispatch.CommandTrace | src/midi2cmd/console.py:83-84 | the command handler starts at most one process per message, and each started command is the non-empty binding of some message of the stream |
| Dispatch.CommandHandlerOneMessage | src/midi2cmd/console.py:98-101 | on one message the command handler starts at most one process, and its command is the message's non-empty binding |
| Dispatch.EffectivePort | src/midi2cmd/console.py:80 | the port is the command-line one unless that is missing or empty, and the configured one otherwise |
| Dispatch.EffectivePortOfLines | src/midi2cmd/console.py:79-80 | with no port on the command line, the port is the one on the configuration's last `port:` line |
| Dispatch.ValidateMidiPort | src/midi2cmd/console.py:12-24 | a None port is a BadParameter and no port is opened; otherwise the port is tried once and accepted if and only if it opens |
| Dispatch.LoadConfigTxt | src/midi2cmd/console.py:27-33 | a missing file is the BadParameter `Can't read file <name>.`; otherwise the result is whatever `ConfigTxt.from_file` gives for the file's text |
| Dispatch.RunCli | src/midi2cmd/console.py:69-84 | `run` fails when the file is missing; when it succeeds, the file parsed and the chosen port is present and opens |
| Dispatch.RunCliOutcome | src/midi2cmd/console.py:79-84 | `run` on a file that is present gives the parser's error, the port's BadParameter, or the command handler's effects over the whole stream |
| Dispatch.DumpCli | src/midi2cmd/console.py:52-66 | a successful `dump` has passed the same checks as `run`, and its result is one echo per message, in order |
| Dispatch.DumpCliOutcome | src/midi2cmd/console.py:52-66 | `dump` fails with the parser's error when the file does not parse and with the port's BadParameter when the port is rejected; otherwise it succeeds with one echo per message, in order |
| DispatchExamples.RunEchoExample | src/midi2cmd/console.py:79-84 | with `control_change channel=10 control=9: echo $MIDI_VALUE`, a control change with value 64 starts that command exactly once with `MIDI_VALUE=64` and every other variable unchanged |
| DispatchExamples.RunOtherSlotExample | src/midi2cmd/console.py:98-100 | under the same configuration, a message of any other slot starts nothing |
| DispatchExamples.RunUnavailablePortExample | src/midi2cmd/console.py:18-24 | when the configured port does not open, the run stops with that port's BadParameter |
| Bindings.Empty | tests/test_midi_reader.py:66-69 | a fresh table reads `""` for every message and has no entries |
| Bindings.Set | tests/test_midi_reader.py:6-11 | after `mc[m] = cmd`, every message of `m`'s slot reads `cmd` and every other message reads what it read before; the table grows only when the slot is new |
| Bindings.LaterSetWins | tests/test_midi_reader.py:14-63 | setting two messages of one slot leaves the later command for both, and the table does not grow |
| Bindings.PathKey | tests/test_midi_reader.py:83-89 | an accepted path is `(channel, "pitchwheel")` and names a pitch-wheel key, or `(channel, "control_change", control)` and names a control-change key with a control |
| Bindings.PathKeyCases | tests/test_midi_reader.py:83-89 | a path is accepted if and only if it has one of the two shapes with its numbers in range, and the key carries those numbers; any other shape is an unknown path, and a bad channel or control is reported by its text, the channel first |
| Bindings.ParseRangedPadded | tests/test_midi_reader.py:83-89 | a channel or control key reads as `int()` reads it: a number in range reads back whatever whitespace surrounds it |
| Bindings.LoadPairsSpec | tests/test_midi_reader.py:90-91 | loading pairs succeeds if and only if every path names a key; then each message reads the command of the last pair naming its key, or what it read before, and the table's keys (and so its size) are the old keys plus exactly the keys the paths name |
| Bindings.LoadSpec | tests/test_midi_reader.py:82-106 | `load` binds exactly the keys the channel dictionary's paths name, later pairs overriding earlier ones, and leaves every other slot as it was; the table's key set and `len` are the old keys plus the named keys |
| BindingsExamples.ChannelsFlatten | tests/test_midi_reader.py:83-89 | the test's channel dictionary flattens to its four paths in order |
| BindingsExamples.LoadExample | tests/test_midi_reader.py:90-106 | after loading the test's dictionary, the pitch wheel on channel 10 and controls 9 and 18 on channel 10 read their commands, control 1 on channel 2 reads `echo c2-1`, and control 1 on channel 3 reads `""`, for every value, pitch and time |
| Flatten.DictToTuplesLeaves | tests/test_utils.py:4-21 | a pair `(path, v)` is in the result if and only if following the non-empty `path` from the root reaches the leaf `v` |
| Flatten.TuplesSound | tests/test_utils.py:15-20 | every pair's path is non-empty and leads from the root to its value |
| Flatten.TuplesComplete | tests/test_utils.py:15-20 | every leaf reached through an entry is among that entry's pairs |
| Flatten.DictToTuplesLength | tests/test_utils.py:4-36 | the number of pairs is the number of non-dictionary leaves |
| Flatten.DictToTuplesAppend | tests/test_utils.py:28-31 | the pairs of earlier entries come before those of later entries |
| Flatten.SingleEntryTuples | tests/test_utils.py:24-36 | `{}` gives no pairs; a leaf entry gives `((key,), leaf)`; a dictionary entry gives its pairs with the key in front, none when empty |
| Flatten.NestedExample | tests/test_utils.py:4-21 | the nested test dictionary flattens depth first, in insertion order, to the four expected pairs |
| Flatten.FlatAndEmptyExamples | tests/test_utils.py:24-36 | `{"a": 1, "b": 2}` gives one single-key pair per entry; `{}` and `{"a": {}}` give none |
| Numerals.ParseIntOfIntToString | src/midi2cmd/utils.py:15 | `int(str(i)) == i` for every integer |
| Text.TrimIsFramedSlice | tests/test_config_accumulate_window.py:12-16 | stripping removes only whitespace and only at the two ends; the result starts and ends with non-whitespace |
| Text.TrimIdempotent | tests/test_config_accumulate_window.py:27 | stripping twice is stripping once |
| Text.SplitFirst | tests/test_config_accumulate_window.py:13-14 | splitting at the first colon: None if and only if there is no colon; otherwise the text is the head, the colon and the rest, with no colon in the head |
| Text.JoinSplit | tests/test_config_accumulate_window.py:12-15 | splitting a text into lines loses nothing: joining them back gives the text |
| Text.SplitJoin | tests/test_config_accumulate_window.py:12-15 | splitting joined lines that have no line break gives the lines back |
| Text.WordsOfJoinWords | tests/test_config_accumulate_window.py:14 | tokenising a space-joined list of words gives the words back |
| Config.ParseWindow | tests/test_config_accumulate_window.py:41-59 | an accepted window is strictly positive; a rejected one is a BadWindow error naming the text |
| Config.ParseWindowShape | tests/test_config_accumulate_window.py:44-48 | an accepted window, once stripped, is non-empty, has no leading minus, and holds only digits, points and a leading sign |
| Config.ParseWindowText | tests/test_config_accumulate_window.py:20-38 | every positive decimal reads back from the text it is written as |
| Config.ParsePattern | tests/test_config_accumulate_window.py:14 | an accepted pattern is a control change or a pitch wheel; a rejected one is a BadPattern error naming the text |
| Config.ParsePatternOfMessageText | tests/test_config_accumulate_window.py:93-94 | every control change and pitch wheel reads back from the MIDI library's text for it |
| Config.ParseShortControlChange | tests/test_config_accumulate_window.py:14 | `control_change channel=C control=K` is the slot of channel C and control K, with value and time 0 |
| Config.ParseShortPitchWheel | tests/test_config_accumulate_window.py:94 | `pitchwheel channel=C` is the pitch wheel slot of channel C, with pitch and time 0 |
| Config.ClassifyLine | tests/test_config_accumulate_window.py:12-16 | an indented `head: rest` line is a port line, a window line or a binding line by its stripped head, and the port and command are stripped |
| Config.StepSpec | tests/test_config_accumulate_window.py:62-85 | reading one line fails exactly when the line is rejected; a port line replaces the port, only the first window line sets the window, and a binding line sets one slot and nothing else |
| Config.ReadLinesWindow | tests/test_config_accumulate_window.py:62-73 | the window is set if and only if some line is a window line, and it is the first such line's value |
| Config.ReadLinesOk | tests/test_config_accumulate_window.py:51-59 | reading succeeds if and only if no line is rejected |
| Config.ReadLinesError | tests/test_config_accumulate_window.py:51-59 | a failed read reports the error of the first rejected line |
| Config.ReadLinesPort | tests/test_config_accumulate_window.py:76-85 | the port is the one on the last port line |
| Config.ReadLinesCommands | tests/test_config_accumulate_window.py:88-99 | every slot holds the command of the last binding line for that slot, and `""` if there is none |
| Config.ReadLinesKeys | tests/test_config_accumulate_window.py:96-99 | the table's keys are exactly the keys the binding lines name |
| Config.FromLinesSpec | tests/test_config_accumulate_window.py:10-99 | `from_file` fails exactly when a line is rejected, with the first such line's error; otherwise the port is the last port line's, the window the first window line's (0.5 when absent, always positive), each slot its last command, and there is one entry per bound key |
| Rendering.ReadRendered | tests/test_config_accumulate_window.py:88-99 | reading a written list of settings back never fails and gives the last port, the first window and each slot's last command |
| Rendering.FromFileRendered | tests/test_config_accumulate_window.py:62-99 | `from_file` on a written configuration file gives the last port, the first window (0.5 if none) and each slot's last command; the empty file gives the defaults |
| Rendering.ApplyAllSpec | tests/test_config_accumulate_window.py:62-85 | applying settings in order keeps the last port, the first window and each slot's last command |
| ConfigExamples.DefaultWindowExample | tests/test_config_accumulate_window.py:10-17 | with no window line the configuration reads with port `Test Device`, one binding, and the window 0.5 |
| ConfigExamples.WindowExample | tests/test_config_accumulate_window.py:30-38 | the window test file reads as its window value parses: the window if that value is valid, and that value's error otherwise |
| ConfigExamples.ValidWindowExample | tests/test_config_accumulate_window.py:20-38 | `1.5`, `2`, `0.1`, `0.75` and an indented `0.75` read as 1.5, 2.0, 0.1, 0.75 and 0.75 |
| ConfigExamples.InvalidWindowExample | tests/test_config_accumulate_window.py:41-59 | `-0.5`, `0`, `not_a_number`, `0,1` and `0.1 3` each fail the whole read with a BadWindow error naming the value |
| ConfigExamples.MultipleWindowsExample | tests/test_config_accumulate_window.py:62-73 | with two window lines, the first (0.5) is kept |
| ConfigExamples.WindowBeforePortExample | tests/test_config_accumulate_window.py:76-85 | a window line before the port line is read (1.2), and the port is `Test Device` |
| ConfigExamples.PreservedWithOtherSettingsExample | tests/test_config_accumulate_window.py:88-99 | port `My Device`, window 0.8 and two bindings are all read |

## Left out

- Device I/O. The model does not open, list or iterate MIDI ports (`open_input`, `get_input_names`, the `list` command). Which ports open is a set, and the messages a port delivers are a finite sequence.
- Processes. `subprocess.Popen` and `os.environ.copy()` are not modelled. A spawn is a recorded `(command, environment)` effect, and the current environment is a parameter. What the shell does with the command is not modelled.
- Output formatting. `echo_handler` and `typer.echo` formatting are not modelled. An echo is a recorded effect holding the message.
- The typer layer. Option parsing, default config paths (`user_config_dir`) and help text are not modelled. The model starts from the chosen file name and the command-line port.
- Other I/O errors. `load_config_txt` turns only `FileNotFoundError` into BadParameter. Every other I/O error (permissions, decoding) is not modelled: a file is either present with a text or absent.
- The debounce coalescer that `accumulate_window` configures. It is time- and thread-driven, and its code is not part of this model. The window is only parsed and kept.
- Floating-point windows. The window is kept as an exact decimal (digits and a scale), so `float` rounding is not modelled. Python float spellings other than plain decimals are read as errors: exponents, `inf`, `nan` and underscores.
- Other message types. Message types other than control change and pitch wheel are one `Other` variant with a name and a channel. The name is never `control_change` or `pitchwheel`. Their further attributes are not modelled, nor are messages without a channel (system messages).
- Integer keys in `load`. `MessageDict.load` is modelled for channel dictionaries whose keys are strings, as in the test. Integer keys in the same dictionary are not modelled.
- Config.ParsePattern: patterns of other message types. The MIDI library's text reader also accepts `note_on`,
  `program_change` and the other types, and a fractional `time` such as `time=0.5`. The model reads
  only control-change and pitch-wheel patterns with integer values. Any other pattern is a
  BadPattern error in the model. The source would instead bind the slot `(channel, type)`, which
  every message of that type on that channel then matches. The library's table of which
  attributes each type takes is not part of this model.
- Line breaks. `load_config_txt` opens the file in text mode, where a lone `\r` and `\r\n` also end
  a line. The model splits lines only at `\n`, so a lone `\r` stays inside its line, where
  stripping removes it only at the ends. Files with `\r` line breaks are not modelled.
- Non-ASCII digits. Python's `int()` also reads digits of other scripts (for example Arabic-Indic
  digits). The model reads ASCII digits, with underscores between them, only.
- Rendering. It is stated for settings whose texts have no line break and no surrounding whitespace, which is how a configuration is written. It is not a model of any source function.
