/** Writing a configuration out as lines the reader accepts, and reading it
    back: the partner of `ConfigTxt.from_file`. A setting written with
    `SettingLine` is classified as that setting, and a whole rendered
    configuration reads back with the last port, the first window and the
    last command of every slot. */
module Rendering {
  import opened Wrappers
  import opened Text
  import opened Numerals
  import opened Messages
  import opened Bindings
  import opened Config

  /** Text that fits on one line of the file as a value. */
  predicate OneLine(s: string) {
    Stripped(s) && '\n' !in s
  }

  /** One setting of a configuration file. */
  datatype Setting =
    | PortSetting(name: string)
    | WindowSetting(window: Decimal)
    | BindingSetting(message: Message, command: string)

  /** The settings a line can carry: a name and a command without spaces at
      the ends, a positive window, a message of a routed kind. */
  predicate Writable(st: Setting) {
    match st
    case PortSetting(name) => OneLine(name)
    case WindowSetting(d) => d.mantissa > 0
    case BindingSetting(m, command) => (m.ControlChange? || m.PitchWheel?) && OneLine(command)
  }

  predicate AllWritable(settings: seq<Setting>) {
    forall i :: 0 <= i < |settings| ==> Writable(settings[i])
  }

  function SettingLine(st: Setting): string
    requires Writable(st)
  {
    match st
    case PortSetting(name) => "port" + ": " + name
    case WindowSetting(d) => "accumulate_window" + ": " + WindowText(d)
    case BindingSetting(m, command) => MessageText(m) + ": " + command
  }

  function Render(settings: seq<Setting>): (lines: seq<string>)
    requires AllWritable(settings)
    ensures |lines| == |settings|
    decreases |settings|
  {
    if |settings| == 0 then []
    else Render(settings[..|settings| - 1]) + [SettingLine(settings[|settings| - 1])]
  }

  /** The name of the last port setting. */
  function SettingsPort(settings: seq<Setting>): Option<string>
    decreases |settings|
  {
    if |settings| == 0 then None
    else if settings[|settings| - 1].PortSetting? then Some(settings[|settings| - 1].name)
    else SettingsPort(settings[..|settings| - 1])
  }

  /** The window of the first window setting. */
  function SettingsWindow(settings: seq<Setting>): Option<Decimal>
    decreases |settings|
  {
    if |settings| == 0 then None
    else if settings[0].WindowSetting? then Some(settings[0].window)
    else SettingsWindow(settings[1..])
  }

  /** The command of the last binding setting in the slot of `m`. */
  function SettingsCommand(settings: seq<Setting>, m: Message): Option<string>
    decreases |settings|
  {
    if |settings| == 0 then None
    else
      var st := settings[|settings| - 1];
      if st.BindingSetting? && SameSlot(st.message, m) then Some(st.command)
      else SettingsCommand(settings[..|settings| - 1], m)
  }

  lemma KeywordsStripped()
    ensures Stripped("port") && Stripped("accumulate_window")
    ensures ':' !in "port" && ':' !in "accumulate_window"
  {
  }

  /** A message pattern's text has no colon and no line break, starts with
      its type name and ends with a digit of its time. */
  lemma MessageTextShape(m: Message)
    requires m.ControlChange? || m.PitchWheel?
    ensures ':' !in MessageText(m) && '\n' !in MessageText(m)
    ensures Stripped(MessageText(m))
    ensures |MessageText(m)| > 4 && (MessageText(m)[0] == 'c' || MessageText(m)[0] == 'p')
  {
    var ws := MessageWords(m);
    var t := MessageText(m);
    MessageWordsAvoid(m, ':');
    MessageWordsAvoid(m, '\n');
    JoinWordsAvoids(ws, ':');
    JoinWordsAvoids(ws, '\n');
    assert t == ws[0] + " " + JoinWords(ws[1..]);
    assert t[0] == ws[0][0];
    AttrNamesAreWords();
    AttrIsWord("time", m.time);
    IntToStringChars(m.time);
    JoinWordsEnd(ws);
  }

  lemma AttrTextAvoids(name: string, n: int, c: char)
    requires c !in name && c != '=' && c != '-' && !IsDigit(c)
    ensures c !in AttrText(name, n)
  {
    IntToStringChars(n);
  }

  /** Neither the colon nor the line break occurs in any word of a pattern. */
  lemma MessageWordsAvoid(m: Message, c: char)
    requires m.ControlChange? || m.PitchWheel?
    requires c == ':' || c == '\n'
    ensures forall k :: 0 <= k < |MessageWords(m)| ==> c !in MessageWords(m)[k]
  {
    match m
    case ControlChange(ch, ctl, v, t) =>
      AttrTextAvoids("channel", ch, c);
      AttrTextAvoids("control", ctl, c);
      AttrTextAvoids("value", v, c);
      AttrTextAvoids("time", t, c);
      AvoidsFive(MessageWords(m), c);
    case PitchWheel(ch, p, t) =>
      AttrTextAvoids("channel", ch, c);
      AttrTextAvoids("pitch", p, c);
      AttrTextAvoids("time", t, c);
      AvoidsFour(MessageWords(m), c);
  }

  lemma AvoidsFive(ws: seq<string>, c: char)
    requires |ws| == 5 && c !in ws[0] && c !in ws[1] && c !in ws[2] && c !in ws[3] && c !in ws[4]
    ensures forall k :: 0 <= k < |ws| ==> c !in ws[k]
  {
  }

  lemma AvoidsFour(ws: seq<string>, c: char)
    requires |ws| == 4 && c !in ws[0] && c !in ws[1] && c !in ws[2] && c !in ws[3]
    ensures forall k :: 0 <= k < |ws| ==> c !in ws[k]
  {
  }

  /** A written setting is read as that setting. */
  lemma ClassifySettingLine(st: Setting)
    requires Writable(st)
    ensures Classify(SettingLine(st)) ==
              match st
              case PortSetting(name) => PortLine(name)
              case WindowSetting(d) => WindowLine(" " + WindowText(d))
              case BindingSetting(m, command) => BindingLine(MessageText(m), command)
  {
    match st
    case PortSetting(name) => ClassifyPortLine(name);
    case WindowSetting(d) => ClassifyWindowLine(d);
    case BindingSetting(m, command) => ClassifyBindingLine(m, command);
  }

  lemma ClassifyPortLine(name: string)
    requires Stripped(name)
    ensures Classify("port" + ": " + name) == PortLine(name)
  {
    KeywordsStripped();
    ClassifyFramed("port", name);
  }

  lemma ClassifyWindowLine(d: Decimal)
    requires d.mantissa > 0
    ensures Classify("accumulate_window" + ": " + WindowText(d)) == WindowLine(" " + WindowText(d))
  {
    KeywordsStripped();
    WindowTextChars(d);
    ClassifyFramed("accumulate_window", WindowText(d));
  }

  lemma ClassifyBindingLine(m: Message, command: string)
    requires m.ControlChange? || m.PitchWheel?
    requires Stripped(command)
    ensures Classify(MessageText(m) + ": " + command) == BindingLine(MessageText(m), command)
  {
    var head := MessageText(m);
    MessageTextShape(m);
    assert head != "port" && head != "accumulate_window" by {
      assert |head| > 4 && head[0] != 'a';
    }
    ClassifyFramed(head, command);
  }

  /** `head: body` with a stripped head and body splits into the two. */
  lemma ClassifyFramed(head: string, body: string)
    requires Stripped(head) && Stripped(body) && ':' !in head && head[0] != '#'
    ensures Classify(head + ": " + body) ==
              if head == "port" then PortLine(body)
              else if head == "accumulate_window" then WindowLine(" " + body)
              else BindingLine(head, body)
  {
    var raw := head + ": " + body;
    assert raw == head + [':'] + (" " + body);
    assert raw[0] == head[0] && raw[|raw| - 1] == body[|body| - 1];
    TrimNoEnds(raw);
    ClassifyTrimmed(raw, head, " " + body);
    TrimSpaceBefore(body);
  }

  /** The value after `accumulate_window:` is stripped before it is read. */
  lemma ParseWindowSpaced(d: Decimal, t: string)
    requires d.mantissa > 0 && t == WindowText(d)
    ensures ParseWindow(" " + t) == Ok(d)
  {
    WindowTextChars(d);
    TrimSpaceBefore(t);
    TrimNoEnds(t);
    ParseWindowText(d);
    ParseWindowSameTrim(" " + t, t);
  }

  /** The window is read from the stripped text alone. */
  lemma ParseWindowSameTrim(a: string, b: string)
    requires Trim(a) == Trim(b) && ParseWindow(b).Ok?
    ensures ParseWindow(a) == ParseWindow(b)
  {
  }

  lemma {:induction false} SettingsWindowSnoc(settings: seq<Setting>, st: Setting)
    ensures SettingsWindow(settings + [st]) ==
              if SettingsWindow(settings).Some? then SettingsWindow(settings)
              else if st.WindowSetting? then Some(st.window)
              else None
    decreases |settings|
  {
    if |settings| == 0 {
      assert [] + [st] == [st];
      assert [st][1..] == [];
    } else {
      assert (settings + [st])[0] == settings[0];
      assert (settings + [st])[1..] == settings[1..] + [st];
      SettingsWindowSnoc(settings[1..], st);
    }
  }

  /** The settings applied one after another to the empty reader. */
  function ApplyAll(settings: seq<Setting>): Reader
    decreases |settings|
  {
    if |settings| == 0 then Start
    else Apply(ApplyAll(settings[..|settings| - 1]), settings[|settings| - 1])
  }

  lemma {:induction false} ReadRenderedApply(settings: seq<Setting>)
    requires AllWritable(settings)
    ensures ReadLines(Render(settings)) == Ok(ApplyAll(settings))
    decreases |settings|
  {
    if |settings| > 0 {
      var init := settings[..|settings| - 1];
      var st := settings[|settings| - 1];
      assert AllWritable(init) by {
        forall i | 0 <= i < |init| ensures Writable(init[i]) {
          assert init[i] == settings[i];
        }
      }
      var line := SettingLine(st);
      assert Render(settings) == Render(init) + [line];
      ReadRenderedApply(init);
      ReadLinesSnoc(Render(init), line);
      StepSetting(ApplyAll(init), st);
    }
  }

  /** Applying the settings keeps the last port, the first window and, in
      every slot, the last command. */
  lemma {:induction false} ApplyAllSpec(settings: seq<Setting>)
    ensures ApplyAll(settings).port == SettingsPort(settings)
    ensures ApplyAll(settings).window == SettingsWindow(settings)
    ensures forall m :: Get(ApplyAll(settings).commands, m) == SettingsCommand(settings, m).GetOr("")
    decreases |settings|
  {
    if |settings| > 0 {
      var init := settings[..|settings| - 1];
      var st := settings[|settings| - 1];
      assert settings == init + [st];
      ApplyAllSpec(init);
      SettingsWindowSnoc(init, st);
    }
  }

  /** Reading a rendered configuration back never fails, and gives the last
      port, the first window and, in every slot, the last command written. */
  lemma ReadRendered(settings: seq<Setting>)
    requires AllWritable(settings)
    ensures ReadLines(Render(settings)).Ok?
    ensures ReadLines(Render(settings)).value.port == SettingsPort(settings)
    ensures ReadLines(Render(settings)).value.window == SettingsWindow(settings)
    ensures forall m :: Get(ReadLines(Render(settings)).value.commands, m) == SettingsCommand(settings, m).GetOr("")
  {
    ReadRenderedApply(settings);
    ApplyAllSpec(settings);
  }

  /** The reader's state after a written setting: what each setting does. */
  function Apply(r: Reader, st: Setting): Reader {
    match st
    case PortSetting(name) => r.(port := Some(name))
    case WindowSetting(d) => if r.window.Some? then r else r.(window := Some(d))
    case BindingSetting(m, command) => r.(commands := Set(r.commands, m, command))
  }

  /** Reading a written setting does what the setting says. */
  lemma StepSetting(r: Reader, st: Setting)
    requires Writable(st)
    ensures Step(r, SettingLine(st)) == Ok(Apply(r, st))
  {
    match st
    case PortSetting(name) => StepPort(r, name);
    case WindowSetting(d) => StepWindow(r, d);
    case BindingSetting(m, command) => StepBinding(r, m, command);
  }

  lemma StepPort(r: Reader, name: string)
    requires Writable(PortSetting(name))
    ensures Step(r, SettingLine(PortSetting(name))) == Ok(Apply(r, PortSetting(name)))
  {
    ClassifySettingLine(PortSetting(name));
  }

  lemma StepWindow(r: Reader, d: Decimal)
    requires Writable(WindowSetting(d))
    ensures Step(r, SettingLine(WindowSetting(d))) == Ok(Apply(r, WindowSetting(d)))
  {
    ClassifySettingLine(WindowSetting(d));
    ParseWindowSpaced(d, WindowText(d));
    StepParsedWindow(r, SettingLine(WindowSetting(d)), " " + WindowText(d), d);
  }

  lemma StepParsedWindow(r: Reader, raw: string, text: string, d: Decimal)
    requires Classify(raw) == WindowLine(text)
    requires ParseWindow(text) == Ok(d)
    ensures Step(r, raw) == Ok(if r.window.Some? then r else r.(window := Some(d)))
  {
  }

  lemma StepBinding(r: Reader, m: Message, command: string)
    requires Writable(BindingSetting(m, command))
    ensures Step(r, SettingLine(BindingSetting(m, command))) == Ok(Apply(r, BindingSetting(m, command)))
  {
    ClassifySettingLine(BindingSetting(m, command));
    ParsePatternOfMessageText(m);
    StepParsedBinding(r, SettingLine(BindingSetting(m, command)), MessageText(m), command, m);
  }

  lemma StepParsedBinding(r: Reader, raw: string, pattern: string, command: string, m: Message)
    requires Classify(raw) == BindingLine(pattern, command)
    requires ParsePattern(pattern) == Ok(m)
    ensures Step(r, raw) == Ok(r.(commands := Set(r.commands, m, command)))
  {
  }

  /** No written line contains a line break. */
  lemma SettingLineOneLine(st: Setting)
    requires Writable(st)
    ensures '\n' !in SettingLine(st)
  {
    match st
    case PortSetting(name) =>
    case WindowSetting(d) =>
      WindowTextChars(d);
    case BindingSetting(m, command) =>
      MessageTextShape(m);
  }

  lemma {:induction false} RenderLinesOneLine(settings: seq<Setting>)
    requires AllWritable(settings)
    ensures forall k :: 0 <= k < |Render(settings)| ==> '\n' !in Render(settings)[k]
    decreases |settings|
  {
    if |settings| > 0 {
      var init := settings[..|settings| - 1];
      var st := settings[|settings| - 1];
      assert AllWritable(init) by {
        forall i | 0 <= i < |init| ensures Writable(init[i]) {
          assert init[i] == settings[i];
        }
      }
      RenderLinesOneLine(init);
      SettingLineOneLine(st);
    }
  }

  /** The file a list of settings is written to, one setting per line. */
  function RenderFile(settings: seq<Setting>): string
    requires AllWritable(settings)
  {
    Join(Render(settings), '\n')
  }

  /** `ConfigTxt.from_file` reads back every written configuration: the last
      port, the first window (0.5 seconds if none is written) and, in every
      slot, the last command. The empty file reads as the defaults: no port,
      0.5 seconds and no binding. */
  lemma FromFileRendered(settings: seq<Setting>)
    requires AllWritable(settings)
    ensures FromFile(RenderFile(settings)).Ok?
    ensures FromFile(RenderFile(settings)).value.port == SettingsPort(settings)
    ensures FromFile(RenderFile(settings)).value.accumulateWindow == SettingsWindow(settings).GetOr(DefaultWindow)
    ensures forall m :: Get(FromFile(RenderFile(settings)).value.commands, m) == SettingsCommand(settings, m).GetOr("")
  {
    if |settings| == 0 {
      assert RenderFile([]) == "";
      assert Lines("") == [""];
    } else {
      RenderLinesOneLine(settings);
      SplitJoin(Render(settings), '\n');
      ReadRendered(settings);
    }
  }
}
