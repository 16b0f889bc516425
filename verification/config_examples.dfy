/** The configurations the accumulate_window tests read, stated for any
    indentation of the setting lines and any blank last line (the tests
    indent by eight spaces and end with four). */
module ConfigExamples {
  import opened Wrappers
  import opened Text
  import opened Numerals
  import opened Messages
  import opened Bindings
  import opened Config
  import opened Rendering

  /** Indentation: spaces only. */
  predicate Blanks(s: string) {
    forall k :: 0 <= k < |s| ==> s[k] == ' '
  }

  /** A file whose lines are `lines`. */
  function FileOf(lines: seq<string>): string {
    Join(lines, '\n')
  }

  // Reading a few lines, one step at a time.

  function Then(r: Result<Reader, ConfigError>, raw: string): Result<Reader, ConfigError> {
    match r
    case Err(e) => Err(e)
    case Ok(x) => Step(x, raw)
  }

  lemma ReadFour(a: string, b: string, c: string, d: string)
    ensures ReadLines([a, b, c, d]) == Then(Then(Then(Step(Start, a), b), c), d)
  {
    ReadLinesSnoc([], a);
    ReadLinesSnoc([a], b);
    ReadLinesSnoc([a, b], c);
    ReadLinesSnoc([a, b, c], d);
    assert [] + [a] == [a] && [a] + [b] == [a, b] && [a, b] + [c] == [a, b, c] && [a, b, c] + [d] == [a, b, c, d];
  }

  lemma ReadFive(a: string, b: string, c: string, d: string, e: string)
    ensures ReadLines([a, b, c, d, e]) == Then(ReadLines([a, b, c, d]), e)
  {
    ReadLinesSnoc([a, b, c, d], e);
    assert [a, b, c, d] + [e] == [a, b, c, d, e];
  }

  lemma ReadSix(a: string, b: string, c: string, d: string, e: string, f: string)
    ensures ReadLines([a, b, c, d, e, f]) == Then(ReadLines([a, b, c, d, e]), f)
  {
    ReadLinesSnoc([a, b, c, d, e], f);
    assert [a, b, c, d, e] + [f] == [a, b, c, d, e, f];
  }

  lemma ReadSeven(a: string, b: string, c: string, d: string, e: string, f: string, g: string)
    ensures ReadLines([a, b, c, d, e, f, g]) == Then(ReadLines([a, b, c, d, e, f]), g)
  {
    ReadLinesSnoc([a, b, c, d, e, f], g);
    assert [a, b, c, d, e, f] + [g] == [a, b, c, d, e, f, g];
  }

  /** The file splits back into its lines when no line holds a line break. */
  lemma LinesOfFile(lines: seq<string>)
    requires |lines| > 0
    requires forall k :: 0 <= k < |lines| ==> '\n' !in lines[k]
    ensures Lines(FileOf(lines)) == lines
  {
    SplitJoin(lines, '\n');
  }

  // The lines of the examples.

  /** Blank lines, indented or not, are skipped. */
  lemma BlankLine(s: string)
    requires Blanks(s)
    ensures Classify(s) == Blank && '\n' !in s
  {
    TrimLeftSpaces(s, []);
    assert s + [] == s;
  }

  /** A setting line built of parts without line breaks has none. */
  lemma NoBreakLine(raw: string, indent: string, head: string, value: string)
    requires '\n' !in indent && '\n' !in head && '\n' !in value
    requires raw == indent + head + ": " + value
    ensures '\n' !in raw
  {
  }

  lemma Reassociate(indent: string, head: string, value: string)
    ensures indent + head + ": " + value == indent + (head + ": " + value)
  {
  }

  /** An indented `head: value` line is classified by its head. */
  lemma ClassifyAfterIndent(raw: string, indent: string, head: string, value: string)
    requires Blanks(indent) && Stripped(head) && head[0] != '#' && ':' !in head
    requires |value| > 0 && !IsSpace(value[|value| - 1])
    requires raw == indent + (head + ": " + value)
    ensures Classify(raw) ==
              if head == "port" then PortLine(Trim(" " + value))
              else if head == "accumulate_window" then WindowLine(" " + value)
              else BindingLine(head, Trim(" " + value))
  {
    HeadColonValue(head, value);
    IndentedTrim(indent, head + ": " + value);
    ClassifyTrimmed(raw, head, " " + value);
  }

  lemma HeadColonValue(head: string, value: string)
    requires |head| > 0 && |value| > 0
    ensures head + ": " + value == head + [':'] + (" " + value)
    ensures (head + ": " + value)[0] == head[0]
    ensures (head + ": " + value)[|head + ": " + value| - 1] == value[|value| - 1]
  {
  }

  /** Indentation is stripped from a line with no blank at either end. */
  lemma IndentedTrim(indent: string, line: string)
    requires Blanks(indent) && |line| > 0 && !IsSpace(line[0]) && !IsSpace(line[|line| - 1])
    ensures Trim(indent + line) == line
  {
    assert AllSpace(indent);
    TrimLeftSpaces(indent, line);
    TrimNoEnds(line);
  }

  lemma PortLineOf(raw: string, indent: string, name: string)
    requires Blanks(indent) && OneLine(name)
    requires raw == indent + "port" + ": " + name
    ensures Classify(raw) == PortLine(name)
  {
    KeywordsStripped();
    Reassociate(indent, "port", name);
    ClassifyAfterIndent(raw, indent, "port", name);
    TrimSpaceBefore(name);
  }

  lemma WindowLineOf(raw: string, indent: string, value: string)
    requires Blanks(indent) && '\n' !in value
    requires |value| > 0 && !IsSpace(value[|value| - 1])
    requires raw == indent + "accumulate_window" + ": " + value
    ensures Classify(raw) == WindowLine(" " + value)
  {
    KeywordsStripped();
    Reassociate(indent, "accumulate_window", value);
    ClassifyAfterIndent(raw, indent, "accumulate_window", value);
  }

  /** What a binding line's pattern must look like to be read as one. */
  predicate PatternShaped(pattern: string) {
    Stripped(pattern) && pattern[0] != '#' && ':' !in pattern && '\n' !in pattern
    && pattern != "port" && pattern != "accumulate_window"
  }

  lemma BindingLineOf(raw: string, indent: string, pattern: string, command: string)
    requires Blanks(indent) && PatternShaped(pattern) && OneLine(command)
    requires raw == indent + pattern + ": " + command
    ensures Classify(raw) == BindingLine(pattern, command)
  {
    Reassociate(indent, pattern, command);
    ClassifyAfterIndent(raw, indent, pattern, command);
    TrimSpaceBefore(command);
  }

  // The patterns of the examples.

  lemma Channel10Control9()
    ensures ParsePattern("control_change channel=10 control=9") == Ok(ControlChange(10, 9, 0, 0))
  {
    ParseShortControlChange(10, 9);
    Control9Text();
  }

  lemma Control9Text()
    ensures JoinWords(["control_change", AttrText("channel", 10), AttrText("control", 9)])
              == "control_change channel=10 control=9"
  {
    NumeralsOfTen();
    assert JoinWords(["control_change", "channel=10", "control=9"]) == "control_change channel=10 control=9";
  }

  lemma Channel10Control10()
    ensures ParsePattern("control_change channel=10 control=10") == Ok(ControlChange(10, 10, 0, 0))
  {
    ParseShortControlChange(10, 10);
    Control10Text();
  }

  lemma Control10Text()
    ensures JoinWords(["control_change", AttrText("channel", 10), AttrText("control", 10)])
              == "control_change channel=10 control=10"
  {
    NumeralsOfTen();
    assert JoinWords(["control_change", "channel=10", "control=10"]) == "control_change channel=10 control=10";
  }

  lemma Channel10PitchWheel()
    ensures ParsePattern("pitchwheel channel=10") == Ok(PitchWheel(10, 0, 0))
  {
    ParseShortPitchWheel(10);
    PitchWheelText();
  }

  lemma PitchWheelText()
    ensures JoinWords(["pitchwheel", AttrText("channel", 10)]) == "pitchwheel channel=10"
  {
    NumeralsOfTen();
    assert JoinWords(["pitchwheel", "channel=10"]) == "pitchwheel channel=10";
  }

  lemma NumeralsOfTen()
    ensures AttrText("channel", 10) == "channel=10"
    ensures AttrText("control", 9) == "control=9" && AttrText("control", 10) == "control=10"
  {
    assert IntToString(10) == "10" && IntToString(9) == "9";
  }

  lemma PatternsShaped()
    ensures PatternShaped("control_change channel=10 control=9")
    ensures PatternShaped("control_change channel=10 control=10")
    ensures PatternShaped("pitchwheel channel=10")
  {
    Control9Shaped();
    Control10Shaped();
    PitchWheelShaped();
  }

  lemma Control9Shaped()
    ensures PatternShaped("control_change channel=10 control=9")
  {
    AvoidsColonAndBreak("control_change channel=10 control=9");
  }

  lemma Control10Shaped()
    ensures PatternShaped("control_change channel=10 control=10")
  {
    AvoidsColonAndBreak("control_change channel=10 control=10");
  }

  /** Neither pattern of the examples holds a colon or a line break. */
  lemma AvoidsColonAndBreak(p: string)
    requires p == "control_change channel=10 control=9" || p == "control_change channel=10 control=10"
    ensures ':' !in p && '\n' !in p
  {
    if p == "control_change channel=10 control=9" {
      Control9NoColon();
      Control9NoBreak();
    } else {
      Control10NoColon();
      Control10NoBreak();
    }
  }

  lemma Control9NoColon()
    ensures ':' !in "control_change channel=10 control=9"
  {
  }

  lemma Control9NoBreak()
    ensures '\n' !in "control_change channel=10 control=9"
  {
  }

  lemma Control10NoColon()
    ensures ':' !in "control_change channel=10 control=10"
  {
  }

  lemma Control10NoBreak()
    ensures '\n' !in "control_change channel=10 control=10"
  {
  }

  lemma PitchWheelShaped()
    ensures PatternShaped("pitchwheel channel=10")
  {
  }

  lemma NamesOneLine()
    ensures OneLine("Test Device") && OneLine("My Device")
    ensures OneLine("echo foo") && OneLine("echo bar")
  {
  }

  lemma VolumeCommandOneLine()
    ensures OneLine("pactl set-sink-volume @DEFAULT_SINK@ $MIDI_VALUE")
  {
    VolumeHalves();
    VolumeFrontNoBreak();
    VolumeBackNoBreak();
    NoBreakConcat("pactl set-sink-volume", " @DEFAULT_SINK@ $MIDI_VALUE");
  }

  lemma VolumeHalves()
    ensures "pactl set-sink-volume @DEFAULT_SINK@ $MIDI_VALUE"
            == "pactl set-sink-volume" + " @DEFAULT_SINK@ $MIDI_VALUE"
  {
  }

  lemma VolumeFrontNoBreak()
    ensures '\n' !in "pactl set-sink-volume"
  {
  }

  lemma VolumeBackNoBreak()
    ensures '\n' !in " @DEFAULT_SINK@ $MIDI_VALUE"
  {
  }

  lemma NoBreakConcat(a: string, b: string)
    requires '\n' !in a && '\n' !in b
    ensures '\n' !in a + b
  {
  }

  lemma RaiseCommandOneLine()
    ensures OneLine("xdotool key XF86AudioRaiseVolume")
  {
  }

  // The configurations of the tests, first with every line abstract.

  /** Reading a file of lines without line breaks reads those lines. */
  lemma FromFileOf(lines: seq<string>)
    requires |lines| > 0
    requires forall k :: 0 <= k < |lines| ==> '\n' !in lines[k]
    ensures FromFile(FileOf(lines)) == FromLines(lines)
  {
    LinesOfFile(lines);
  }

  lemma FromFileOfFour(a: string, b: string, c: string, d: string)
    requires '\n' !in a && '\n' !in b && '\n' !in c && '\n' !in d
    ensures FromFile(FileOf([a, b, c, d])) == FromLines([a, b, c, d])
  {
    FromFileOf([a, b, c, d]);
  }

  lemma FromFileOfFive(a: string, b: string, c: string, d: string, e: string)
    requires '\n' !in a && '\n' !in b && '\n' !in c && '\n' !in d && '\n' !in e
    ensures FromFile(FileOf([a, b, c, d, e])) == FromLines([a, b, c, d, e])
  {
    FromFileOf([a, b, c, d, e]);
  }

  lemma FromFileOfSix(a: string, b: string, c: string, d: string, e: string, f: string)
    requires '\n' !in a && '\n' !in b && '\n' !in c && '\n' !in d && '\n' !in e && '\n' !in f
    ensures FromFile(FileOf([a, b, c, d, e, f])) == FromLines([a, b, c, d, e, f])
  {
    FromFileOf([a, b, c, d, e, f]);
  }

  lemma FromFileOfSeven(a: string, b: string, c: string, d: string, e: string, f: string, g: string)
    requires '\n' !in a && '\n' !in b && '\n' !in c && '\n' !in d && '\n' !in e && '\n' !in f && '\n' !in g
    ensures FromFile(FileOf([a, b, c, d, e, f, g])) == FromLines([a, b, c, d, e, f, g])
  {
    FromFileOf([a, b, c, d, e, f, g]);
  }

  /** A window line between a port line and a binding line. */
  lemma ReadPortWindowBinding(a: string, b: string, c: string, d: string, e: string,
                              name: string, w: string, pattern: string, command: string, m: Message)
    requires Classify(a) == Blank && Classify(e) == Blank
    requires Classify(b) == PortLine(name) && Classify(c) == WindowLine(w)
    requires Classify(d) == BindingLine(pattern, command) && ParsePattern(pattern) == Ok(m)
    ensures FromLines([a, b, c, d, e]) ==
              match ParseWindow(w)
              case Err(err) => Err(err)
              case Ok(x) => Ok(ConfigTxt(Some(name), x, Set(Empty(), m, command)))
  {
    ReadFour(a, b, c, d);
    ReadFive(a, b, c, d, e);
  }

  /** The window line first, then the port and a binding. */
  lemma ReadWindowPortBinding(a: string, b: string, c: string, d: string, e: string,
                              name: string, w: string, pattern: string, command: string, m: Message)
    requires Classify(a) == Blank && Classify(e) == Blank
    requires Classify(b) == WindowLine(w) && Classify(c) == PortLine(name)
    requires Classify(d) == BindingLine(pattern, command) && ParsePattern(pattern) == Ok(m)
    ensures FromLines([a, b, c, d, e]) ==
              match ParseWindow(w)
              case Err(err) => Err(err)
              case Ok(x) => Ok(ConfigTxt(Some(name), x, Set(Empty(), m, command)))
  {
    ReadFour(a, b, c, d);
    ReadFive(a, b, c, d, e);
  }

  /** No window line: a port line and a binding. */
  lemma ReadPortBinding(a: string, b: string, c: string, d: string,
                        name: string, pattern: string, command: string, m: Message)
    requires Classify(a) == Blank && Classify(d) == Blank
    requires Classify(b) == PortLine(name)
    requires Classify(c) == BindingLine(pattern, command) && ParsePattern(pattern) == Ok(m)
    ensures FromLines([a, b, c, d]) == Ok(ConfigTxt(Some(name), DefaultWindow, Set(Empty(), m, command)))
  {
    ReadFour(a, b, c, d);
  }

  /** Two bindings after the port and window lines. */
  lemma ReadPortWindowTwoBindings(a: string, b: string, c: string, d: string, e: string, f: string,
                                  name: string, w: string, p1: string, c1: string, m1: Message,
                                  p2: string, c2: string, m2: Message)
    requires Classify(a) == Blank && Classify(f) == Blank
    requires Classify(b) == PortLine(name) && Classify(c) == WindowLine(w)
    requires Classify(d) == BindingLine(p1, c1) && ParsePattern(p1) == Ok(m1)
    requires Classify(e) == BindingLine(p2, c2) && ParsePattern(p2) == Ok(m2)
    ensures FromLines([a, b, c, d, e, f]) ==
              match ParseWindow(w)
              case Err(err) => Err(err)
              case Ok(x) => Ok(ConfigTxt(Some(name), x, Set(Set(Empty(), m1, c1), m2, c2)))
  {
    ReadFour(a, b, c, d);
    ReadFive(a, b, c, d, e);
    ReadSix(a, b, c, d, e, f);
  }

  /** A second window line is not parsed at all once the first one was. */
  lemma ReadTwoWindows(a: string, b: string, c: string, d: string, e: string, f: string, g: string,
                       name: string, w1: string, w2: string, p1: string, c1: string, m1: Message,
                       p2: string, c2: string, m2: Message)
    requires Classify(a) == Blank && Classify(g) == Blank
    requires Classify(b) == PortLine(name) && Classify(c) == WindowLine(w1) && Classify(e) == WindowLine(w2)
    requires Classify(d) == BindingLine(p1, c1) && ParsePattern(p1) == Ok(m1)
    requires Classify(f) == BindingLine(p2, c2) && ParsePattern(p2) == Ok(m2)
    ensures FromLines([a, b, c, d, e, f, g]) ==
              match ParseWindow(w1)
              case Err(err) => Err(err)
              case Ok(x) => Ok(ConfigTxt(Some(name), x, Set(Set(Empty(), m1, c1), m2, c2)))
  {
    ReadFour(a, b, c, d);
    ReadFive(a, b, c, d, e);
    ReadSix(a, b, c, d, e, f);
    ReadSeven(a, b, c, d, e, f, g);
  }

  // The same configurations as indented text. Each line is a parameter
  // tied to its text, and what the reader sees of it (its classification,
  // the absence of line breaks) is established one line at a time.

  /** `raw` is the setting line `head: value` under `indent`. */
  predicate SettingAt(raw: string, indent: string, head: string, value: string) {
    raw == indent + head + ": " + value
  }

  /** A valid window value: no line break and no blank at its end. */
  predicate WindowValue(value: string) {
    '\n' !in value && |value| > 0 && !IsSpace(value[|value| - 1])
  }

  lemma PortBindingClassified(b: string, c: string, indent: string, name: string, pattern: string, command: string)
    requires Blanks(indent) && OneLine(name) && PatternShaped(pattern) && OneLine(command)
    requires SettingAt(b, indent, "port", name) && SettingAt(c, indent, pattern, command)
    ensures Classify(b) == PortLine(name) && Classify(c) == BindingLine(pattern, command)
  {
    PortLineOf(b, indent, name);
    BindingLineOf(c, indent, pattern, command);
  }

  lemma PortBindingUnbroken(b: string, c: string, indent: string, name: string, pattern: string, command: string)
    requires Blanks(indent) && OneLine(name) && PatternShaped(pattern) && OneLine(command)
    requires SettingAt(b, indent, "port", name) && SettingAt(c, indent, pattern, command)
    ensures '\n' !in b && '\n' !in c
  {
    KeywordsStripped();
    NoBreakLine(b, indent, "port", name);
    NoBreakLine(c, indent, pattern, command);
  }

  lemma WindowClassified(w: string, indent: string, value: string)
    requires Blanks(indent) && WindowValue(value) && SettingAt(w, indent, "accumulate_window", value)
    ensures Classify(w) == WindowLine(" " + value)
  {
    WindowLineOf(w, indent, value);
  }

  lemma WindowUnbroken(w: string, indent: string, value: string)
    requires Blanks(indent) && WindowValue(value) && SettingAt(w, indent, "accumulate_window", value)
    ensures '\n' !in w
  {
    KeywordsStripped();
    NoBreakLine(w, indent, "accumulate_window", value);
  }

  lemma BlankEnds(tail: string)
    requires Blanks(tail)
    ensures Classify("") == Blank && '\n' !in "" && Classify(tail) == Blank && '\n' !in tail
  {
    BlankLine("");
    BlankLine(tail);
  }

  /** A port line and a binding line: the window keeps its default. */
  lemma PortBindingFile(b: string, c: string, indent: string, tail: string,
                        name: string, pattern: string, command: string, m: Message)
    requires Blanks(indent) && Blanks(tail) && OneLine(name)
    requires PatternShaped(pattern) && OneLine(command) && ParsePattern(pattern) == Ok(m)
    requires SettingAt(b, indent, "port", name) && SettingAt(c, indent, pattern, command)
    ensures FromFile(FileOf(["", b, c, tail])) == Ok(ConfigTxt(Some(name), DefaultWindow, Set(Empty(), m, command)))
  {
    PortBindingClassified(b, c, indent, name, pattern, command);
    PortBindingUnbroken(b, c, indent, name, pattern, command);
    BlankEnds(tail);
    FromFileOfFour("", b, c, tail);
    ReadPortBinding("", b, c, tail, name, pattern, command, m);
  }

  /** A port line, a window line and a binding line. */
  lemma PortWindowBindingFile(b: string, w: string, c: string, indent: string, tail: string,
                              name: string, value: string, pattern: string, command: string, m: Message)
    requires Blanks(indent) && Blanks(tail) && OneLine(name) && WindowValue(value)
    requires PatternShaped(pattern) && OneLine(command) && ParsePattern(pattern) == Ok(m)
    requires SettingAt(b, indent, "port", name) && SettingAt(c, indent, pattern, command)
    requires SettingAt(w, indent, "accumulate_window", value)
    ensures FromFile(FileOf(["", b, w, c, tail])) ==
              match ParseWindow(" " + value)
              case Err(err) => Err(err)
              case Ok(x) => Ok(ConfigTxt(Some(name), x, Set(Empty(), m, command)))
  {
    PortBindingClassified(b, c, indent, name, pattern, command);
    PortBindingUnbroken(b, c, indent, name, pattern, command);
    WindowClassified(w, indent, value);
    WindowUnbroken(w, indent, value);
    BlankEnds(tail);
    FromFileOfFive("", b, w, c, tail);
    ReadPortWindowBinding("", b, w, c, tail, name, " " + value, pattern, command, m);
  }

  /** The window line before the port line. */
  lemma WindowPortBindingFile(w: string, b: string, c: string, indent: string, tail: string,
                              name: string, value: string, pattern: string, command: string, m: Message)
    requires Blanks(indent) && Blanks(tail) && OneLine(name) && WindowValue(value)
    requires PatternShaped(pattern) && OneLine(command) && ParsePattern(pattern) == Ok(m)
    requires SettingAt(b, indent, "port", name) && SettingAt(c, indent, pattern, command)
    requires SettingAt(w, indent, "accumulate_window", value)
    ensures FromFile(FileOf(["", w, b, c, tail])) ==
              match ParseWindow(" " + value)
              case Err(err) => Err(err)
              case Ok(x) => Ok(ConfigTxt(Some(name), x, Set(Empty(), m, command)))
  {
    PortBindingClassified(b, c, indent, name, pattern, command);
    PortBindingUnbroken(b, c, indent, name, pattern, command);
    WindowClassified(w, indent, value);
    WindowUnbroken(w, indent, value);
    BlankEnds(tail);
    FromFileOfFive("", w, b, c, tail);
    ReadWindowPortBinding("", w, b, c, tail, name, " " + value, pattern, command, m);
  }

  lemma BindingClassified(c: string, indent: string, pattern: string, command: string)
    requires Blanks(indent) && PatternShaped(pattern) && OneLine(command)
    requires SettingAt(c, indent, pattern, command)
    ensures Classify(c) == BindingLine(pattern, command)
  {
    BindingLineOf(c, indent, pattern, command);
  }

  lemma BindingUnbroken(c: string, indent: string, pattern: string, command: string)
    requires Blanks(indent) && PatternShaped(pattern) && OneLine(command)
    requires SettingAt(c, indent, pattern, command)
    ensures '\n' !in c
  {
    NoBreakLine(c, indent, pattern, command);
  }

  /** A port line, a window line and two binding lines. */
  lemma PortWindowTwoBindingsFile(b: string, w: string, c1: string, c2: string, indent: string, tail: string,
                                  name: string, value: string, p1: string, cmd1: string, m1: Message,
                                  p2: string, cmd2: string, m2: Message)
    requires Blanks(indent) && Blanks(tail) && OneLine(name) && WindowValue(value)
    requires PatternShaped(p1) && OneLine(cmd1) && ParsePattern(p1) == Ok(m1)
    requires PatternShaped(p2) && OneLine(cmd2) && ParsePattern(p2) == Ok(m2)
    requires SettingAt(b, indent, "port", name) && SettingAt(w, indent, "accumulate_window", value)
    requires SettingAt(c1, indent, p1, cmd1) && SettingAt(c2, indent, p2, cmd2)
    ensures FromFile(FileOf(["", b, w, c1, c2, tail])) ==
              match ParseWindow(" " + value)
              case Err(err) => Err(err)
              case Ok(x) => Ok(ConfigTxt(Some(name), x, Set(Set(Empty(), m1, cmd1), m2, cmd2)))
  {
    PortBindingClassified(b, c1, indent, name, p1, cmd1);
    PortBindingUnbroken(b, c1, indent, name, p1, cmd1);
    BindingClassified(c2, indent, p2, cmd2);
    BindingUnbroken(c2, indent, p2, cmd2);
    WindowClassified(w, indent, value);
    WindowUnbroken(w, indent, value);
    BlankEnds(tail);
    FromFileOfSix("", b, w, c1, c2, tail);
    ReadPortWindowTwoBindings("", b, w, c1, c2, tail, name, " " + value, p1, cmd1, m1, p2, cmd2, m2);
  }

  /** Two window lines, each followed by a binding line. */
  lemma TwoWindowsFile(b: string, w1: string, c1: string, w2: string, c2: string, indent: string, tail: string,
                       name: string, v1: string, v2: string, p1: string, cmd1: string, m1: Message,
                       p2: string, cmd2: string, m2: Message)
    requires Blanks(indent) && Blanks(tail) && OneLine(name) && WindowValue(v1) && WindowValue(v2)
    requires PatternShaped(p1) && OneLine(cmd1) && ParsePattern(p1) == Ok(m1)
    requires PatternShaped(p2) && OneLine(cmd2) && ParsePattern(p2) == Ok(m2)
    requires SettingAt(b, indent, "port", name)
    requires SettingAt(w1, indent, "accumulate_window", v1) && SettingAt(w2, indent, "accumulate_window", v2)
    requires SettingAt(c1, indent, p1, cmd1) && SettingAt(c2, indent, p2, cmd2)
    ensures FromFile(FileOf(["", b, w1, c1, w2, c2, tail])) ==
              match ParseWindow(" " + v1)
              case Err(err) => Err(err)
              case Ok(x) => Ok(ConfigTxt(Some(name), x, Set(Set(Empty(), m1, cmd1), m2, cmd2)))
  {
    PortBindingClassified(b, c1, indent, name, p1, cmd1);
    PortBindingUnbroken(b, c1, indent, name, p1, cmd1);
    BindingClassified(c2, indent, p2, cmd2);
    BindingUnbroken(c2, indent, p2, cmd2);
    WindowClassified(w1, indent, v1);
    WindowUnbroken(w1, indent, v1);
    WindowClassified(w2, indent, v2);
    WindowUnbroken(w2, indent, v2);
    BlankEnds(tail);
    FromFileOfSeven("", b, w1, c1, w2, c2, tail);
    ReadTwoWindows("", b, w1, c1, w2, c2, tail, name, " " + v1, " " + v2, p1, cmd1, m1, p2, cmd2, m2);
  }

  // The tests themselves, for any indentation and any blank last line.

  /** Without an `accumulate_window` line the window is 0.5 seconds. */
  lemma DefaultWindowExample(indent: string, tail: string)
    requires Blanks(indent) && Blanks(tail)
    ensures FromFile(FileOf(["",
                             indent + "port" + ": " + "Test Device",
                             indent + "control_change channel=10 control=9" + ": " + "echo foo",
                             tail]))
            == Ok(ConfigTxt(Some("Test Device"), DefaultWindow, Set(Empty(), ControlChange(10, 9, 0, 0), "echo foo")))
    ensures Seconds(DefaultWindow) == 0.5
  {
    NamesOneLine();
    PatternsShaped();
    Channel10Control9();
    PortBindingFile(indent + "port" + ": " + "Test Device",
                    indent + "control_change channel=10 control=9" + ": " + "echo foo",
                    indent, tail, "Test Device", "control_change channel=10 control=9", "echo foo",
                    ControlChange(10, 9, 0, 0));
    HalfSecond();
  }

  lemma HalfSecond()
    ensures Seconds(DefaultWindow) == 0.5
  {
  }

  /** The configuration of the window tests, with `value` after the colon. */
  function WindowTestFile(indent: string, value: string, tail: string): string {
    FileOf(["",
            indent + "port" + ": " + "Test Device",
            indent + "accumulate_window" + ": " + value,
            indent + "control_change channel=10 control=9" + ": " + "echo foo",
            tail])
  }

  /** The window test configuration reads as its window value parses: the
      port and the binding are read either way, and a bad value fails the
      whole read. */
  lemma WindowExample(indent: string, tail: string, value: string)
    requires Blanks(indent) && Blanks(tail) && WindowValue(value)
    ensures FromFile(WindowTestFile(indent, value, tail)) ==
              match ParseWindow(" " + value)
              case Err(err) => Err(err)
              case Ok(x) => Ok(ConfigTxt(Some("Test Device"), x, Set(Empty(), ControlChange(10, 9, 0, 0), "echo foo")))
  {
    NamesOneLine();
    PatternsShaped();
    Channel10Control9();
    PortWindowBindingFile(indent + "port" + ": " + "Test Device",
                          indent + "accumulate_window" + ": " + value,
                          indent + "control_change channel=10 control=9" + ": " + "echo foo",
                          indent, tail, "Test Device", value, "control_change channel=10 control=9", "echo foo",
                          ControlChange(10, 9, 0, 0));
  }

  /** Every valid value of the test is read, and as the number it writes. */
  lemma ValidWindowExample(indent: string, tail: string, value: string, expected: real)
    requires Blanks(indent) && Blanks(tail)
    requires || (value == "1.5" && expected == 1.5)
             || (value == "2" && expected == 2.0)
             || (value == "0.1" && expected == 0.1)
             || (value == "0.75" && expected == 0.75)
             || (value == "    0.75" && expected == 0.75)
    ensures FromFile(WindowTestFile(indent, value, tail)).Ok?
    ensures Seconds(FromFile(WindowTestFile(indent, value, tail)).value.accumulateWindow) == expected
  {
    ExampleValuesShaped();
    WindowExample(indent, tail, value);
    SecondsOfExamples();
    if value == "1.5" {
      WindowOneAndAHalf();
    } else if value == "2" {
      WindowTwo();
    } else if value == "0.1" {
      WindowOneTenth();
    } else if value == "0.75" {
      WindowThreeQuarters();
    } else {
      WindowIndentedThreeQuarters();
    }
  }

  lemma WindowOneAndAHalf()
    ensures ParseWindow(" " + "1.5") == Ok(Decimal(15, 1))
  {
    assert WindowText(Decimal(15, 1)) == "1.5";
    ParseWindowSpaced(Decimal(15, 1), "1.5");
  }

  lemma WindowTwo()
    ensures ParseWindow(" " + "2") == Ok(Decimal(2, 0))
  {
    assert WindowText(Decimal(2, 0)) == "2";
    ParseWindowSpaced(Decimal(2, 0), "2");
  }

  lemma WindowOneTenth()
    ensures ParseWindow(" " + "0.1") == Ok(Decimal(1, 1))
  {
    assert WindowText(Decimal(1, 1)) == "0.1";
    ParseWindowSpaced(Decimal(1, 1), "0.1");
  }

  lemma WindowThreeQuarters()
    ensures ParseWindow(" " + "0.75") == Ok(Decimal(75, 2))
  {
    assert WindowText(Decimal(75, 2)) == "0.75";
    ParseWindowSpaced(Decimal(75, 2), "0.75");
  }

  /** Extra blanks before the value are stripped with the first one. */
  lemma WindowIndentedThreeQuarters()
    ensures ParseWindow(" " + "    0.75") == Ok(Decimal(75, 2))
  {
    WindowThreeQuarters();
    SameTrimIndented();
    ParseWindowSameTrim(" " + "    0.75", " " + "0.75");
  }

  lemma SameTrimIndented()
    ensures Trim(" " + "    0.75") == Trim(" " + "0.75")
  {
    assert " " + "    0.75" == "     " + "0.75";
    IndentedTrim("     ", "0.75");
    IndentedTrim(" ", "0.75");
  }

  lemma ExampleValuesShaped()
    ensures WindowValue("1.5") && WindowValue("2") && WindowValue("0.1")
    ensures WindowValue("0.75") && WindowValue("    0.75")
  {
  }

  lemma SecondsOfExamples()
    ensures Seconds(Decimal(15, 1)) == 1.5 && Seconds(Decimal(2, 0)) == 2.0
    ensures Seconds(Decimal(1, 1)) == 0.1 && Seconds(Decimal(75, 2)) == 0.75
  {
  }

  /** Every invalid value of the test fails the read with that value. */
  lemma InvalidWindowExample(indent: string, tail: string, value: string)
    requires Blanks(indent) && Blanks(tail)
    requires value == "-0.5" || value == "0" || value == "not_a_number" || value == "0,1" || value == "0.1 3"
    ensures FromFile(WindowTestFile(indent, value, tail)) == Err(BadWindow(" " + value))
  {
    InvalidValuesShaped();
    WindowExample(indent, tail, value);
    if value == "-0.5" {
      RejectsNegative();
    } else if value == "0" {
      RejectsZero();
    } else if value == "not_a_number" {
      RejectsWord();
    } else if value == "0,1" {
      RejectsComma();
    } else {
      RejectsTwoNumbers();
    }
  }

  lemma InvalidValuesShaped()
    ensures WindowValue("-0.5") && WindowValue("0") && WindowValue("not_a_number")
    ensures WindowValue("0,1") && WindowValue("0.1 3")
  {
  }

  /** A window must be positive: a minus sign is refused. */
  lemma RejectsNegative()
    ensures ParseWindow(" " + "-0.5").Err?
  {
    TrimSpaceBefore("-0.5");
    ParseWindowShape(" " + "-0.5");
  }

  /** A window must be positive: zero is refused. */
  lemma RejectsZero()
    ensures ParseWindow(" " + "0").Err?
  {
    TrimSpaceBefore("0");
    ParseDecimalWhole("0");
  }

  lemma RejectsWord()
    ensures ParseWindow(" " + "not_a_number").Err?
  {
    TrimSpaceBefore("not_a_number");
    RejectsAt(" " + "not_a_number", "not_a_number", 0);
  }

  lemma RejectsComma()
    ensures ParseWindow(" " + "0,1").Err?
  {
    TrimSpaceBefore("0,1");
    RejectsAt(" " + "0,1", "0,1", 1);
  }

  lemma RejectsTwoNumbers()
    ensures ParseWindow(" " + "0.1 3").Err?
  {
    TrimSpaceBefore("0.1 3");
    RejectsAt(" " + "0.1 3", "0.1 3", 3);
  }

  /** A character that cannot appear in a number fails the parse. */
  lemma RejectsAt(text: string, t: string, k: nat)
    requires Trim(text) == t && k < |t|
    requires !IsDigit(t[k]) && t[k] != '.' && t[k] != '-' && t[k] != '+'
    ensures ParseWindow(text).Err?
  {
    ParseWindowRejectsChar(text, t, k);
  }

  /** Only the first window line is parsed: a second one is skipped, while
      the binding after it is still read. */
  lemma MultipleWindowsExample(indent: string, tail: string)
    requires Blanks(indent) && Blanks(tail)
    ensures FromFile(FileOf(["",
                             indent + "port" + ": " + "Test Device",
                             indent + "accumulate_window" + ": " + "0.5",
                             indent + "control_change channel=10 control=9" + ": " + "echo foo",
                             indent + "accumulate_window" + ": " + "2.0",
                             indent + "control_change channel=10 control=10" + ": " + "echo bar",
                             tail]))
            == Ok(ConfigTxt(Some("Test Device"), Decimal(5, 1),
                            Set(Set(Empty(), ControlChange(10, 9, 0, 0), "echo foo"), ControlChange(10, 10, 0, 0), "echo bar")))
    ensures Seconds(Decimal(5, 1)) == 0.5
  {
    NamesOneLine();
    PatternsShaped();
    Channel10Control9();
    Channel10Control10();
    OtherValuesShaped();
    WindowHalf();
    TwoWindowsFile(indent + "port" + ": " + "Test Device",
                   indent + "accumulate_window" + ": " + "0.5",
                   indent + "control_change channel=10 control=9" + ": " + "echo foo",
                   indent + "accumulate_window" + ": " + "2.0",
                   indent + "control_change channel=10 control=10" + ": " + "echo bar",
                   indent, tail, "Test Device", "0.5", "2.0",
                   "control_change channel=10 control=9", "echo foo", ControlChange(10, 9, 0, 0),
                   "control_change channel=10 control=10", "echo bar", ControlChange(10, 10, 0, 0));
    HalfSecond();
  }

  /** The window line may come before the port line. */
  lemma WindowBeforePortExample(indent: string, tail: string)
    requires Blanks(indent) && Blanks(tail)
    ensures FromFile(FileOf(["",
                             indent + "accumulate_window" + ": " + "1.2",
                             indent + "port" + ": " + "Test Device",
                             indent + "control_change channel=10 control=9" + ": " + "echo foo",
                             tail]))
            == Ok(ConfigTxt(Some("Test Device"), Decimal(12, 1), Set(Empty(), ControlChange(10, 9, 0, 0), "echo foo")))
    ensures Seconds(Decimal(12, 1)) == 1.2
  {
    NamesOneLine();
    PatternsShaped();
    Channel10Control9();
    OtherValuesShaped();
    WindowOneAndOneFifth();
    WindowPortBindingFile(indent + "accumulate_window" + ": " + "1.2",
                          indent + "port" + ": " + "Test Device",
                          indent + "control_change channel=10 control=9" + ": " + "echo foo",
                          indent, tail, "Test Device", "1.2", "control_change channel=10 control=9", "echo foo",
                          ControlChange(10, 9, 0, 0));
    OtherSeconds();
  }

  /** The window is read alongside the port and two bindings of different
      slots. */
  lemma PreservedWithOtherSettingsExample(indent: string, tail: string)
    requires Blanks(indent) && Blanks(tail)
    ensures FromFile(FileOf(["",
                             indent + "port" + ": " + "My Device",
                             indent + "accumulate_window" + ": " + "0.8",
                             indent + "control_change channel=10 control=9" + ": "
                               + "pactl set-sink-volume @DEFAULT_SINK@ $MIDI_VALUE",
                             indent + "pitchwheel channel=10" + ": " + "xdotool key XF86AudioRaiseVolume",
                             tail]))
            == Ok(ConfigTxt(Some("My Device"), Decimal(8, 1), VolumeBindings()))
    ensures Seconds(Decimal(8, 1)) == 0.8
    ensures Size(VolumeBindings()) == 2
  {
    NamesOneLine();
    VolumeCommandOneLine();
    RaiseCommandOneLine();
    PatternsShaped();
    Channel10Control9();
    Channel10PitchWheel();
    OtherValuesShaped();
    WindowFourFifths();
    PortWindowTwoBindingsFile(indent + "port" + ": " + "My Device",
                              indent + "accumulate_window" + ": " + "0.8",
                              indent + "control_change channel=10 control=9" + ": "
                                + "pactl set-sink-volume @DEFAULT_SINK@ $MIDI_VALUE",
                              indent + "pitchwheel channel=10" + ": " + "xdotool key XF86AudioRaiseVolume",
                              indent, tail, "My Device", "0.8",
                              "control_change channel=10 control=9",
                              "pactl set-sink-volume @DEFAULT_SINK@ $MIDI_VALUE", ControlChange(10, 9, 0, 0),
                              "pitchwheel channel=10", "xdotool key XF86AudioRaiseVolume", PitchWheel(10, 0, 0));
    OtherSeconds();
    VolumeBindingsSize();
  }

  /** The bindings of the last test. */
  function VolumeBindings(): MessageDict {
    Set(Set(Empty(), ControlChange(10, 9, 0, 0), "pactl set-sink-volume @DEFAULT_SINK@ $MIDI_VALUE"),
        PitchWheel(10, 0, 0), "xdotool key XF86AudioRaiseVolume")
  }

  lemma VolumeBindingsSize()
    ensures Size(VolumeBindings()) == 2
  {
    assert KeyOf(PitchWheel(10, 0, 0)) != KeyOf(ControlChange(10, 9, 0, 0));
  }

  lemma OtherValuesShaped()
    ensures WindowValue("0.5") && WindowValue("2.0") && WindowValue("1.2") && WindowValue("0.8")
  {
  }

  lemma WindowHalf()
    ensures ParseWindow(" " + "0.5") == Ok(Decimal(5, 1))
  {
    assert WindowText(Decimal(5, 1)) == "0.5";
    ParseWindowSpaced(Decimal(5, 1), "0.5");
  }

  lemma WindowOneAndOneFifth()
    ensures ParseWindow(" " + "1.2") == Ok(Decimal(12, 1))
  {
    assert WindowText(Decimal(12, 1)) == "1.2";
    ParseWindowSpaced(Decimal(12, 1), "1.2");
  }

  lemma WindowFourFifths()
    ensures ParseWindow(" " + "0.8") == Ok(Decimal(8, 1))
  {
    assert WindowText(Decimal(8, 1)) == "0.8";
    ParseWindowSpaced(Decimal(8, 1), "0.8");
  }

  lemma OtherSeconds()
    ensures Seconds(Decimal(12, 1)) == 1.2 && Seconds(Decimal(8, 1)) == 0.8
  {
  }
}
