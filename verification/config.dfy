/** `ConfigTxt.from_file`: the line-oriented configuration.

      port: <device name>
      accumulate_window: <positive decimal seconds>
      control_change channel=<int> control=<int>: <shell command>
      pitchwheel channel=<int>: <shell command>

    Lines are stripped; blank lines and `#` comments are skipped. A line is
    split at its first colon, so commands may contain colons. The last `port:`
    line names the port; the first `accumulate_window:` line sets the window
    (later ones are not read); every other line binds a message pattern. */
module Config {
  import opened Wrappers
  import opened Seqs
  import opened Text
  import opened Numerals
  import opened Messages
  import opened Bindings

  /** A decimal number `mantissa / 10^scale`, exactly as written. */
  datatype Decimal = Decimal(mantissa: int, scale: nat)

  function Seconds(d: Decimal): real {
    d.mantissa as real / Pow10(d.scale) as real
  }

  /** 0.5 seconds, used when no `accumulate_window` line is present. */
  const DefaultWindow: Decimal := Decimal(5, 1)

  datatype ConfigError =
    | MissingColon(line: string)
    | BadWindow(text: string)
    | BadPattern(text: string)

  datatype ConfigTxt = ConfigTxt(port: Option<string>, accumulateWindow: Decimal, commands: MessageDict)

  function Signed(negative: bool, n: nat): int {
    if negative then -(n as int) else n
  }

  /** A decimal literal: an optional sign, then digits with an optional
      fraction, at least one digit in all (`2`, `1.5`, `.5`, `3.`). */
  function ParseDecimal(t: string): (r: Option<Decimal>)
    ensures r.Some? ==> |t| > 0
  {
    var negative := |t| > 0 && t[0] == '-';
    var body := if |t| > 0 && (t[0] == '-' || t[0] == '+') then t[1..] else t;
    match SplitFirst(body, '.')
    case None =>
      if |body| > 0 && AllDigits(body) then Some(Decimal(Signed(negative, DigitsValue(body)), 0)) else None
    case Some((ip, fp)) =>
      if |ip| + |fp| > 0 && AllDigits(ip) && AllDigits(fp)
      then (DigitsValueAppend(ip, fp); Some(Decimal(Signed(negative, DigitsValue(ip + fp)), |fp|)))
      else None
  }

  /** The value of an `accumulate_window:` line: stripped, one decimal number,
      strictly positive; anything else is a ValueError. */
  function ParseWindow(text: string): (r: Result<Decimal, ConfigError>)
    ensures r.Ok? ==> r.value.mantissa > 0 && Seconds(r.value) > 0.0
    ensures r.Err? ==> r.error == BadWindow(text)
  {
    match ParseDecimal(Trim(text))
    case None => Err(BadWindow(text))
    case Some(d) => if d.mantissa > 0 then SecondsPositive(d); Ok(d) else Err(BadWindow(text))
  }

  /** A character a decimal literal may hold at position `k`. */
  predicate DecimalChar(t: string, k: nat)
    requires k < |t|
  {
    IsDigit(t[k]) || t[k] == '.' || (k == 0 && (t[k] == '-' || t[k] == '+'))
  }

  /** A literal that reads is made of digits, points and a leading sign, and
      a minus sign never gives a positive number. */
  lemma ParseDecimalShape(t: string)
    ensures ParseDecimal(t).Some? ==> forall k :: 0 <= k < |t| ==> DecimalChar(t, k)
    ensures ParseDecimal(t).Some? && t[0] == '-' ==> ParseDecimal(t).value.mantissa <= 0
  {
    if ParseDecimal(t).Some? {
      var signed := t[0] == '-' || t[0] == '+';
      var body := if signed then t[1..] else t;
      assert forall k :: 0 <= k < |body| ==> IsDigit(body[k]) || body[k] == '.' by {
        match SplitFirst(body, '.')
        case None =>
        case Some((ip, fp)) =>
          forall k | 0 <= k < |body| ensures IsDigit(body[k]) || body[k] == '.' {
            if k < |ip| { assert body[k] == ip[k]; }
            else if k > |ip| { assert body[k] == fp[k - |ip| - 1]; }
          }
      }
      forall k | 0 <= k < |t| ensures DecimalChar(t, k) {
        if signed && k > 0 { assert t[k] == body[k - 1]; }
        else if !signed { assert t[k] == body[k]; }
      }
    }
  }

  /** The window accepts only a numeral without a minus sign: every other
      character, a comma or a second word included, is rejected. */
  lemma ParseWindowShape(text: string)
    ensures ParseWindow(text).Ok? ==> |Trim(text)| > 0 && Trim(text)[0] != '-'
    ensures ParseWindow(text).Ok? ==> forall k :: 0 <= k < |Trim(text)| ==> DecimalChar(Trim(text), k)
  {
    ParseDecimalShape(Trim(text));
  }

  lemma ParseWindowRejectsChar(text: string, t: string, k: nat)
    requires Trim(text) == t && k < |t| && !DecimalChar(t, k)
    ensures ParseWindow(text).Err?
  {
    ParseWindowShape(text);
  }

  lemma SecondsPositive(d: Decimal)
    requires d.mantissa > 0
    ensures Seconds(d) > 0.0
  {
    var num := d.mantissa as real;
    var den := Pow10(d.scale) as real;
    assert num > 0.0 && den > 0.0;
    assert num / den > 0.0;
  }

  function Zeros(n: nat): (z: string)
    ensures |z| == n && forall k :: 0 <= k < n ==> z[k] == '0'
  {
    if n == 0 then "" else "0" + Zeros(n - 1)
  }

  /** How a positive window is written back: its digits, with a point
      `scale` places from the right, padded with leading zeros as needed. */
  function WindowText(d: Decimal): string
    requires d.mantissa > 0
  {
    var digits := NatToString(d.mantissa);
    if d.scale == 0 then digits
    else
      var padded := Zeros(if |digits| <= d.scale then d.scale + 1 - |digits| else 0) + digits;
      padded[..|padded| - d.scale] + "." + padded[|padded| - d.scale..]
  }

  lemma NoSpaceTrim(s: string)
    requires forall k :: 0 <= k < |s| ==> !IsSpace(s[k])
    ensures Trim(s) == s
  {
    assert TrimLeft(s) == s;
  }

  lemma DigitsHaveNoSpaceOrPoint(s: string)
    requires AllDigits(s)
    ensures forall k :: 0 <= k < |s| ==> !IsSpace(s[k]) && s[k] != '.' && s[k] != '-' && s[k] != '+'
  {
    forall k | 0 <= k < |s| ensures !IsSpace(s[k]) && s[k] != '.' && s[k] != '-' && s[k] != '+' {
      assert IsDigit(s[k]);
    }
  }

  lemma NoPointSplit(s: string)
    requires AllDigits(s)
    ensures SplitFirst(s, '.') == None
  {
    DigitsHaveNoSpaceOrPoint(s);
  }

  /** An unsigned whole number reads as itself at scale 0. */
  lemma ParseDecimalWhole(s: string)
    requires |s| > 0 && AllDigits(s)
    ensures ParseDecimal(s) == Some(Decimal(DigitsValue(s), 0))
  {
    NoPointSplit(s);
    assert IsDigit(s[0]);
  }

  lemma DigitsTrim(s: string)
    requires AllDigits(s)
    ensures Trim(s) == s
  {
    DigitsHaveNoSpaceOrPoint(s);
    NoSpaceTrim(s);
  }

  lemma FractionSplit(ip: string, fp: string)
    requires AllDigits(ip)
    ensures SplitFirst(ip + "." + fp, '.') == Some((ip, fp))
  {
    var text := ip + "." + fp;
    DigitsHaveNoSpaceOrPoint(ip);
    assert text[|ip|] == '.' && text[..|ip|] == ip && text[|ip| + 1..] == fp;
    assert IndexOf(text, '.') == Some(|ip|);
  }

  lemma FractionTrim(ip: string, fp: string)
    requires AllDigits(ip) && AllDigits(fp)
    ensures Trim(ip + "." + fp) == ip + "." + fp
  {
    var text := ip + "." + fp;
    DigitsHaveNoSpaceOrPoint(ip);
    DigitsHaveNoSpaceOrPoint(fp);
    forall k | 0 <= k < |text| ensures !IsSpace(text[k]) {
      if k < |ip| { assert text[k] == ip[k]; }
      else if k > |ip| { assert text[k] == fp[k - |ip| - 1]; }
    }
    NoSpaceTrim(text);
  }

  /** `ip.fp` reads as the digits of both parts, scaled by the fraction. */
  lemma ParseDecimalFraction(ip: string, fp: string)
    requires |ip| > 0 && AllDigits(ip) && AllDigits(fp)
    ensures AllDigits(ip + fp)
    ensures ParseDecimal(ip + "." + fp) == Some(Decimal(DigitsValue(ip + fp), |fp|))
  {
    var t := ip + "." + fp;
    assert t[0] == ip[0] && IsDigit(ip[0]);
    assert !(t[0] == '-' || t[0] == '+');
    FractionSplit(ip, fp);
    DigitsValueAppend(ip, fp);
    assert |ip| + |fp| > 0;
  }

  /** Every positive window reads back from its own text. */
  lemma ParseWindowText(d: Decimal)
    requires d.mantissa > 0
    ensures ParseWindow(WindowText(d)) == Ok(d)
  {
    if d.scale == 0 {
      ParseWindowWhole(d);
    } else {
      ParseWindowScaled(d);
    }
  }

  lemma ParseWindowWhole(d: Decimal)
    requires d.mantissa > 0 && d.scale == 0
    ensures ParseWindow(WindowText(d)) == Ok(d)
  {
    var digits := NatToString(d.mantissa);
    DigitsValueOfNatToString(d.mantissa);
    DigitsTrim(digits);
    ParseDecimalWhole(digits);
  }

  lemma ParseWindowScaled(d: Decimal)
    requires d.mantissa > 0 && d.scale > 0
    ensures ParseWindow(WindowText(d)) == Ok(d)
  {
    var digits := NatToString(d.mantissa);
    DigitsValueOfNatToString(d.mantissa);
    var z := Zeros(if |digits| <= d.scale then d.scale + 1 - |digits| else 0);
    var padded := z + digits;
    DigitsValueLeadingZeros(z, digits);
    var ip := padded[..|padded| - d.scale];
    var fp := padded[|padded| - d.scale..];
    assert AllDigits(ip) && AllDigits(fp) && DigitsValue(ip + fp) == d.mantissa by {
      assert padded == ip + fp;
    }
    assert WindowText(d) == ip + "." + fp;
    ParseWindowOfParts(d, ip, fp);
  }

  /** A positive window written as digits, a point and `scale` digits. */
  lemma ParseWindowOfParts(d: Decimal, ip: string, fp: string)
    requires d.mantissa > 0 && |ip| > 0 && AllDigits(ip) && AllDigits(fp)
    requires |fp| == d.scale && DigitsValue(ip + fp) == d.mantissa
    ensures ParseWindow(ip + "." + fp) == Ok(d)
  {
    FractionTrim(ip, fp);
    ParseDecimalFraction(ip, fp);
  }

  /** A window is written with digits and at most one point, and starts and
      ends with a digit. */
  lemma WindowTextChars(d: Decimal)
    requires d.mantissa > 0
    ensures |WindowText(d)| > 0
    ensures forall k :: 0 <= k < |WindowText(d)| ==> IsDigit(WindowText(d)[k]) || WindowText(d)[k] == '.'
    ensures IsDigit(WindowText(d)[0]) && IsDigit(WindowText(d)[|WindowText(d)| - 1])
  {
    var digits := NatToString(d.mantissa);
    if d.scale > 0 {
      var z := Zeros(if |digits| <= d.scale then d.scale + 1 - |digits| else 0);
      var padded := z + digits;
      DigitsValueLeadingZeros(z, digits);
      var ip := padded[..|padded| - d.scale];
      var fp := padded[|padded| - d.scale..];
      assert AllDigits(ip) && AllDigits(fp);
      assert WindowText(d) == ip + "." + fp;
      PointedChars(ip, fp);
    }
  }

  /** Digits, a point and digits: only digits and the point, with a digit at
      either end. */
  lemma PointedChars(ip: string, fp: string)
    requires |ip| > 0 && |fp| > 0 && AllDigits(ip) && AllDigits(fp)
    ensures var t := ip + "." + fp;
            && (forall k :: 0 <= k < |t| ==> IsDigit(t[k]) || t[k] == '.')
            && IsDigit(t[0]) && IsDigit(t[|t| - 1])
  {
    var t := ip + "." + fp;
    forall k | 0 <= k < |t| ensures IsDigit(t[k]) || t[k] == '.' {
      if k < |ip| { assert t[k] == ip[k]; }
      else if k > |ip| { assert t[k] == fp[k - |ip| - 1]; }
    }
    assert t[0] == ip[0];
    assert t[|t| - 1] == fp[|fp| - 1];
  }

  /** One `name=value` word of a message pattern, the value read by `int()`. */
  function ParseAttr(w: string): (r: Option<(string, int)>)
    ensures r.Some? ==> |r.value.0| < |w| && w[|r.value.0|] == '=' && '=' !in r.value.0
    ensures r.Some? ==> ParseInt(w[|r.value.0| + 1..]) == Some(r.value.1)
  {
    match SplitFirst(w, '=')
    case None => None
    case Some((name, text)) =>
      match ParseInt(text)
      case None => None
      case Some(n) => Some((name, n))
  }

  function ParseAttrs(ws: seq<string>): (r: Option<seq<(string, int)>>)
    ensures r.Some? ==> |r.value| == |ws|
    decreases |ws|
  {
    if |ws| == 0 then Some([])
    else
      match ParseAttr(ws[0])
      case None => None
      case Some(a) =>
        match ParseAttrs(ws[1..])
        case None => None
        case Some(rest) => Some([a] + rest)
  }

  /** The value given to `name`, the last one if it is given twice, or the
      library's default 0. */
  function Attr(attrs: seq<(string, int)>, name: string): int
    decreases |attrs|
  {
    if |attrs| == 0 then 0
    else if attrs[|attrs| - 1].0 == name then attrs[|attrs| - 1].1
    else Attr(attrs[..|attrs| - 1], name)
  }

  predicate NamesWithin(attrs: seq<(string, int)>, allowed: set<string>) {
    forall i :: 0 <= i < |attrs| ==> attrs[i].0 in allowed
  }

  /** A message pattern in the MIDI library's text form: the type, then
      `name=value` words. Only `control_change` and `pitchwheel` patterns
      with integer values are read; every other type is an error. Missing
      attributes are 0, unknown ones are an error, and channel, control,
      value and pitch must be in range. */
  function ParsePattern(text: string): (r: Result<Message, ConfigError>)
    ensures r.Ok? ==> r.value.ControlChange? || r.value.PitchWheel?
    ensures r.Err? ==> r.error == BadPattern(text)
  {
    var ws := Words(text);
    if |ws| == 0 then Err(BadPattern(text))
    else
      match ParseAttrs(ws[1..])
      case None => Err(BadPattern(text))
      case Some(attrs) =>
        match FromAttrs(ws[0], attrs)
        case None => Err(BadPattern(text))
        case Some(m) => Ok(m)
  }

  /** The control change or pitch wheel a type name and its attributes
      describe, with the MIDI library's range checks on channel, control,
      value and pitch; None for any other type name. */
  function FromAttrs(kind: string, attrs: seq<(string, int)>): (r: Option<Message>)
    ensures r.Some? ==> r.value.ControlChange? || r.value.PitchWheel?
    ensures r.Some? ==> r.value.channel == Attr(attrs, "channel") && r.value.time == Attr(attrs, "time")
  {
    var channel := Attr(attrs, "channel");
    var time := Attr(attrs, "time");
    if kind == "control_change" then
      var control := Attr(attrs, "control");
      var value := Attr(attrs, "value");
      if NamesWithin(attrs, {"channel", "control", "value", "time"})
         && 0 <= channel < 16 && 0 <= control < 128 && 0 <= value < 128
      then Some(ControlChange(channel, control, value, time))
      else None
    else if kind == "pitchwheel" then
      var pitch := Attr(attrs, "pitch");
      if NamesWithin(attrs, {"channel", "pitch", "time"})
         && 0 <= channel < 16 && -8192 <= pitch < 8192
      then Some(PitchWheel(channel, pitch, time))
      else None
    else None
  }

  /** One `name=value` word. */
  function AttrText(name: string, n: int): string {
    name + "=" + IntToString(n)
  }

  /** The words of a routed message in the MIDI library's text form. */
  function MessageWords(m: Message): seq<string>
    requires m.ControlChange? || m.PitchWheel?
  {
    match m
    case ControlChange(ch, ctl, v, t) =>
      ["control_change", AttrText("channel", ch), AttrText("control", ctl),
       AttrText("value", v), AttrText("time", t)]
    case PitchWheel(ch, p, t) =>
      ["pitchwheel", AttrText("channel", ch), AttrText("pitch", p), AttrText("time", t)]
  }

  /** How the MIDI library writes a routed message:
      `control_change channel=10 control=9 value=64 time=0`. */
  function MessageText(m: Message): string
    requires m.ControlChange? || m.PitchWheel?
  {
    JoinWords(MessageWords(m))
  }

  /** `str(n)` is digits, with a minus sign in front of negative numbers. */
  lemma IntToStringChars(n: int)
    ensures forall k :: 0 <= k < |IntToString(n)| ==>
              IsDigit(IntToString(n)[k]) || (k == 0 && IntToString(n)[k] == '-')
    ensures |IntToString(n)| > 0 && IsDigit(IntToString(n)[|IntToString(n)| - 1])
  {
    var t := IntToString(n);
    var digits := NatToString(if n < 0 then -n else n);
    forall k | 0 <= k < |t| ensures IsDigit(t[k]) || (k == 0 && t[k] == '-') {
      if n < 0 {
        if k > 0 { assert t[k] == digits[k - 1]; }
      }
    }
    if n < 0 { assert t[|t| - 1] == digits[|digits| - 1]; }
  }

  /** `name=<str(n)>` reads back as the pair `(name, n)`. */
  lemma ParseAttrText(name: string, n: int)
    requires '=' !in name
    ensures ParseAttr(AttrText(name, n)) == Some((name, n))
  {
    var w := AttrText(name, n);
    assert w[|name|] == '=' && w[..|name|] == name && w[|name| + 1..] == IntToString(n);
    assert IndexOf(w, '=') == Some(|name|);
    ParseIntOfIntToString(n);
  }

  lemma AttrIsWord(name: string, n: int)
    requires IsWord(name) && '=' !in name
    ensures IsWord(AttrText(name, n))
  {
    var w := AttrText(name, n);
    IntToStringChars(n);
    forall k | 0 <= k < |w| ensures !IsSpace(w[k]) {
      if k < |name| { assert w[k] == name[k]; }
      else if k > |name| { assert w[k] == IntToString(n)[k - |name| - 1]; }
    }
  }

  lemma TypeNamesAreWords()
    ensures IsWord("control_change") && IsWord("pitchwheel")
  {
  }

  lemma AttrNamesAreWords()
    ensures IsWord("channel") && '=' !in "channel"
    ensures IsWord("control") && '=' !in "control"
    ensures IsWord("value") && '=' !in "value"
    ensures IsWord("pitch") && '=' !in "pitch"
    ensures IsWord("time") && '=' !in "time"
  {
  }

  lemma WordsOfFive(ws: seq<string>)
    requires |ws| == 5
    requires IsWord(ws[0]) && IsWord(ws[1]) && IsWord(ws[2]) && IsWord(ws[3]) && IsWord(ws[4])
    ensures Words(JoinWords(ws)) == ws
  {
    WordsOfJoinWords(ws);
  }

  lemma WordsOfFour(ws: seq<string>)
    requires |ws| == 4
    requires IsWord(ws[0]) && IsWord(ws[1]) && IsWord(ws[2]) && IsWord(ws[3])
    ensures Words(JoinWords(ws)) == ws
  {
    WordsOfJoinWords(ws);
  }

  /** Splitting a message's text into words gives its words back. */
  lemma WordsOfMessageText(m: Message)
    requires m.ControlChange? || m.PitchWheel?
    ensures Words(MessageText(m)) == MessageWords(m)
  {
    var ws := MessageWords(m);
    TypeNamesAreWords();
    AttrNamesAreWords();
    AttrIsWord("channel", m.channel);
    AttrIsWord("time", m.time);
    if m.ControlChange? {
      AttrIsWord("control", m.control);
      AttrIsWord("value", m.value);
      assert ws[0] == "control_change";
      WordsOfFive(ws);
    } else {
      AttrIsWord("pitch", m.pitch);
      assert ws[0] == "pitchwheel";
      WordsOfFour(ws);
    }
  }

  lemma {:induction false} ParseAttrsEach(ws: seq<string>, attrs: seq<(string, int)>)
    requires |ws| == |attrs|
    requires forall i :: 0 <= i < |ws| ==> ParseAttr(ws[i]) == Some(attrs[i])
    ensures ParseAttrs(ws) == Some(attrs)
    decreases |ws|
  {
    if |ws| > 0 {
      forall i | 0 <= i < |ws[1..]|
        ensures ParseAttr(ws[1..][i]) == Some(attrs[1..][i])
      {
        assert ws[1..][i] == ws[i + 1] && attrs[1..][i] == attrs[i + 1];
      }
      ParseAttrsEach(ws[1..], attrs[1..]);
      ParseAttrsCons(ws[0], ws[1..], attrs[0], attrs[1..]);
      assert [ws[0]] + ws[1..] == ws;
      assert [attrs[0]] + attrs[1..] == attrs;
    }
  }

  /** One more word in front adds its attribute in front. */
  lemma ParseAttrsCons(w: string, rest: seq<string>, a: (string, int), parsed: seq<(string, int)>)
    requires ParseAttr(w) == Some(a) && ParseAttrs(rest) == Some(parsed)
    ensures ParseAttrs([w] + rest) == Some([a] + parsed)
  {
    assert ([w] + rest)[0] == w && ([w] + rest)[1..] == rest;
  }

  lemma ParseAttrsOfThree(w0: string, w1: string, w2: string, a0: (string, int), a1: (string, int), a2: (string, int))
    requires ParseAttr(w0) == Some(a0) && ParseAttr(w1) == Some(a1) && ParseAttr(w2) == Some(a2)
    ensures ParseAttrs([w0, w1, w2]) == Some([a0, a1, a2])
  {
    ParseAttrsOfTwo(w1, w2, a1, a2);
    ParseAttrsCons(w0, [w1, w2], a0, [a1, a2]);
    assert [w0] + [w1, w2] == [w0, w1, w2];
    assert [a0] + [a1, a2] == [a0, a1, a2];
  }

  lemma ParseAttrsOfFour(w0: string, w1: string, w2: string, w3: string,
                         a0: (string, int), a1: (string, int), a2: (string, int), a3: (string, int))
    requires ParseAttr(w0) == Some(a0) && ParseAttr(w1) == Some(a1)
    requires ParseAttr(w2) == Some(a2) && ParseAttr(w3) == Some(a3)
    ensures ParseAttrs([w0, w1, w2, w3]) == Some([a0, a1, a2, a3])
  {
    ParseAttrsOfThree(w1, w2, w3, a1, a2, a3);
    ParseAttrsCons(w0, [w1, w2, w3], a0, [a1, a2, a3]);
    assert [w0] + [w1, w2, w3] == [w0, w1, w2, w3];
    assert [a0] + [a1, a2, a3] == [a0, a1, a2, a3];
  }

  /** The attribute words of a control change read back as its attributes. */
  lemma AttrsOfControlChange(ch: Channel, ctl: DataByte, v: DataByte, t: int)
    ensures ParseAttrs(MessageWords(ControlChange(ch, ctl, v, t))[1..]) ==
              Some([("channel", ch as int), ("control", ctl as int), ("value", v as int), ("time", t)])
  {
    AttrNamesAreWords();
    ParseAttrText("channel", ch);
    ParseAttrText("control", ctl);
    ParseAttrText("value", v);
    ParseAttrText("time", t);
    assert MessageWords(ControlChange(ch, ctl, v, t))[1..] ==
             [AttrText("channel", ch), AttrText("control", ctl), AttrText("value", v), AttrText("time", t)];
    ParseAttrsOfFour(AttrText("channel", ch), AttrText("control", ctl), AttrText("value", v), AttrText("time", t),
                     ("channel", ch as int), ("control", ctl as int), ("value", v as int), ("time", t));
  }

  /** The attribute words of a pitch wheel read back as its attributes. */
  lemma AttrsOfPitchWheel(ch: Channel, p: Pitch, t: int)
    ensures ParseAttrs(MessageWords(PitchWheel(ch, p, t))[1..]) ==
              Some([("channel", ch as int), ("pitch", p as int), ("time", t)])
  {
    AttrNamesAreWords();
    ParseAttrText("channel", ch);
    ParseAttrText("pitch", p);
    ParseAttrText("time", t);
    assert MessageWords(PitchWheel(ch, p, t))[1..] ==
             [AttrText("channel", ch), AttrText("pitch", p), AttrText("time", t)];
    ParseAttrsOfThree(AttrText("channel", ch), AttrText("pitch", p), AttrText("time", t),
                      ("channel", ch as int), ("pitch", p as int), ("time", t));
  }

  lemma AttrNamesDistinct()
    ensures "channel" != "control" && "channel" != "value" && "channel" != "time"
    ensures "control" != "value" && "control" != "time" && "value" != "time"
    ensures "channel" != "pitch" && "pitch" != "time"
    ensures "control_change" != "pitchwheel"
  {
    assert "channel"[1] != "control"[1];
    assert "control_change"[0] != "pitchwheel"[0];
  }

  /** The last occurrence decides, so a name only the first element carries
      reads that element's number. */
  lemma AttrSnoc(attrs: seq<(string, int)>, x: (string, int), name: string)
    ensures Attr(attrs + [x], name) == if x.0 == name then x.1 else Attr(attrs, name)
  {
    assert (attrs + [x])[..|attrs|] == attrs;
  }

  lemma AttrOfFour(attrs: seq<(string, int)>)
    requires |attrs| == 4
    requires attrs[0].0 != attrs[1].0 && attrs[0].0 != attrs[2].0 && attrs[0].0 != attrs[3].0
    requires attrs[1].0 != attrs[2].0 && attrs[1].0 != attrs[3].0 && attrs[2].0 != attrs[3].0
    ensures Attr(attrs, attrs[0].0) == attrs[0].1 && Attr(attrs, attrs[1].0) == attrs[1].1
    ensures Attr(attrs, attrs[2].0) == attrs[2].1 && Attr(attrs, attrs[3].0) == attrs[3].1
  {
    AttrOfThree(attrs[..3]);
    assert attrs == attrs[..3] + [attrs[3]];
    AttrSnoc(attrs[..3], attrs[3], attrs[0].0);
    AttrSnoc(attrs[..3], attrs[3], attrs[1].0);
    AttrSnoc(attrs[..3], attrs[3], attrs[2].0);
  }

  lemma AttrOfThree(attrs: seq<(string, int)>)
    requires |attrs| == 3
    requires attrs[0].0 != attrs[1].0 && attrs[0].0 != attrs[2].0 && attrs[1].0 != attrs[2].0
    ensures Attr(attrs, attrs[0].0) == attrs[0].1 && Attr(attrs, attrs[1].0) == attrs[1].1
    ensures Attr(attrs, attrs[2].0) == attrs[2].1
  {
    var two := attrs[..2];
    assert attrs == two + [attrs[2]];
    AttrSnoc(two, attrs[2], attrs[0].0);
    AttrSnoc(two, attrs[2], attrs[1].0);
    assert two == [attrs[0]] + [attrs[1]];
    AttrSnoc([attrs[0]], attrs[1], attrs[0].0);
    AttrSnoc([], attrs[0], attrs[0].0);
    assert [] + [attrs[0]] == [attrs[0]];
  }

  lemma FromAttrsOfControlChange(ch: Channel, ctl: DataByte, v: DataByte, t: int)
    ensures FromAttrs("control_change", [("channel", ch as int), ("control", ctl as int), ("value", v as int), ("time", t)])
              == Some(ControlChange(ch, ctl, v, t))
  {
    AttrNamesDistinct();
    var attrs := [("channel", ch as int), ("control", ctl as int), ("value", v as int), ("time", t)];
    AttrOfFour(attrs);
    assert NamesWithin(attrs, {"channel", "control", "value", "time"});
  }

  lemma FromAttrsOfPitchWheel(ch: Channel, p: Pitch, t: int)
    ensures FromAttrs("pitchwheel", [("channel", ch as int), ("pitch", p as int), ("time", t)]) == Some(PitchWheel(ch, p, t))
  {
    AttrNamesDistinct();
    var attrs := [("channel", ch as int), ("pitch", p as int), ("time", t)];
    AttrOfThree(attrs);
    assert NamesWithin(attrs, {"channel", "pitch", "time"});
  }

  /** A control change reads back from its own text. */
  lemma ParseControlChangeText(ch: Channel, ctl: DataByte, v: DataByte, t: int)
    ensures ParsePattern(MessageText(ControlChange(ch, ctl, v, t))) == Ok(ControlChange(ch, ctl, v, t))
  {
    var m := ControlChange(ch, ctl, v, t);
    WordsOfMessageText(m);
    AttrsOfControlChange(ch, ctl, v, t);
    FromAttrsOfControlChange(ch, ctl, v, t);
  }

  /** A pitch wheel reads back from its own text. */
  lemma ParsePitchWheelText(ch: Channel, p: Pitch, t: int)
    ensures ParsePattern(MessageText(PitchWheel(ch, p, t))) == Ok(PitchWheel(ch, p, t))
  {
    var m := PitchWheel(ch, p, t);
    WordsOfMessageText(m);
    AttrsOfPitchWheel(ch, p, t);
    FromAttrsOfPitchWheel(ch, p, t);
  }

  /** The configuration reads back every routed message the library writes:
      the pattern grammar and the message text agree. */
  lemma ParsePatternOfMessageText(m: Message)
    requires m.ControlChange? || m.PitchWheel?
    ensures ParsePattern(MessageText(m)) == Ok(m)
  {
    match m
    case ControlChange(ch, ctl, v, t) => ParseControlChangeText(ch, ctl, v, t);
    case PitchWheel(ch, p, t) => ParsePitchWheelText(ch, p, t);
  }

  /** The short pattern `control_change channel=C control=K` binds the slot
      of channel C and control K: value and time are left at 0. */
  lemma ParseShortControlChange(ch: Channel, ctl: DataByte)
    ensures ParsePattern(JoinWords(["control_change", AttrText("channel", ch), AttrText("control", ctl)]))
              == Ok(ControlChange(ch, ctl, 0, 0))
  {
    var w1, w2 := AttrText("channel", ch), AttrText("control", ctl);
    var attrs := [("channel", ch as int), ("control", ctl as int)];
    assert Words(JoinWords(["control_change", w1, w2])) == ["control_change", w1, w2] by {
      TypeNamesAreWords();
      AttrNamesAreWords();
      AttrIsWord("channel", ch);
      AttrIsWord("control", ctl);
      WordsOfThree(["control_change", w1, w2]);
    }
    assert ParseAttrs([w1, w2]) == Some(attrs) by {
      AttrNamesAreWords();
      ParseAttrText("channel", ch);
      ParseAttrText("control", ctl);
      ParseAttrsOfTwo(w1, w2, attrs[0], attrs[1]);
    }
    FromAttrsShortControlChange(ch, ctl);
    PatternOfWords(JoinWords(["control_change", w1, w2]), ["control_change", w1, w2], [w1, w2], attrs);
  }

  /** The short pattern `pitchwheel channel=C` binds the pitch wheel slot of
      channel C: pitch and time are left at 0. */
  lemma ParseShortPitchWheel(ch: Channel)
    ensures ParsePattern(JoinWords(["pitchwheel", AttrText("channel", ch)])) == Ok(PitchWheel(ch, 0, 0))
  {
    var w1 := AttrText("channel", ch);
    var attrs := [("channel", ch as int)];
    assert Words(JoinWords(["pitchwheel", w1])) == ["pitchwheel", w1] by {
      TypeNamesAreWords();
      AttrNamesAreWords();
      AttrIsWord("channel", ch);
      WordsOfJoinWords(["pitchwheel", w1]);
    }
    assert ParseAttrs([w1]) == Some(attrs) by {
      AttrNamesAreWords();
      ParseAttrText("channel", ch);
      ParseAttrsCons(w1, [], ("channel", ch as int), []);
      assert [w1] + [] == [w1];
      assert [("channel", ch as int)] + [] == attrs;
    }
    FromAttrsShortPitchWheel(ch);
    PatternOfWords(JoinWords(["pitchwheel", w1]), ["pitchwheel", w1], [w1], attrs);
  }

  /** A text whose words are a type name and attribute words reads as the
      message those describe. */
  lemma PatternOfWords(text: string, ws: seq<string>, rest: seq<string>, attrs: seq<(string, int)>)
    requires Words(text) == ws && |ws| > 0 && ws[1..] == rest
    requires ParseAttrs(rest) == Some(attrs) && FromAttrs(ws[0], attrs).Some?
    ensures ParsePattern(text) == Ok(FromAttrs(ws[0], attrs).value)
  {
  }

  lemma WordsOfThree(ws: seq<string>)
    requires |ws| == 3 && IsWord(ws[0]) && IsWord(ws[1]) && IsWord(ws[2])
    ensures Words(JoinWords(ws)) == ws
  {
    WordsOfJoinWords(ws);
  }

  lemma ParseAttrsOfTwo(w0: string, w1: string, a0: (string, int), a1: (string, int))
    requires ParseAttr(w0) == Some(a0) && ParseAttr(w1) == Some(a1)
    ensures ParseAttrs([w0, w1]) == Some([a0, a1])
  {
    assert [w1][0] == w1 && [w1][1..] == [];
    assert [a1] + [] == [a1];
    assert ParseAttrs([w1]) == Some([a1]);
    assert [w0, w1][0] == w0 && [w0, w1][1..] == [w1];
    assert [a0] + [a1] == [a0, a1];
  }

  lemma FromAttrsShortControlChange(ch: Channel, ctl: DataByte)
    ensures FromAttrs("control_change", [("channel", ch as int), ("control", ctl as int)]) == Some(ControlChange(ch, ctl, 0, 0))
  {
    AttrNamesDistinct();
    var attrs := [("channel", ch as int), ("control", ctl as int)];
    AttrSnoc([("channel", ch as int)], ("control", ctl as int), "channel");
    AttrSnoc([("channel", ch as int)], ("control", ctl as int), "value");
    AttrSnoc([("channel", ch as int)], ("control", ctl as int), "time");
    AttrSnoc([], ("channel", ch as int), "channel");
    AttrSnoc([], ("channel", ch as int), "value");
    AttrSnoc([], ("channel", ch as int), "time");
    assert [("channel", ch as int)] + [("control", ctl as int)] == attrs;
    assert [] + [("channel", ch as int)] == [("channel", ch as int)];
    assert NamesWithin(attrs, {"channel", "control", "value", "time"});
  }

  lemma FromAttrsShortPitchWheel(ch: Channel)
    ensures FromAttrs("pitchwheel", [("channel", ch as int)]) == Some(PitchWheel(ch, 0, 0))
  {
    AttrNamesDistinct();
    AttrSnoc([], ("channel", ch as int), "channel");
    AttrSnoc([], ("channel", ch as int), "pitch");
    AttrSnoc([], ("channel", ch as int), "time");
    assert [] + [("channel", ch as int)] == [("channel", ch as int)];
    assert NamesWithin([("channel", ch as int)], {"channel", "pitch", "time"});
  }

  /** What one line of the file says once it is stripped: nothing (blank or a
      `#` comment), the port, the window, a binding, or a line without the
      colon every setting needs. */
  datatype Line =
    | Blank
    | PortLine(name: string)
    | WindowLine(text: string)
    | BindingLine(pattern: string, command: string)
    | NoColon(text: string)

  /** Splits a stripped line at its first colon; the part before the colon,
      stripped, says which setting the line is. */
  function Classify(raw: string): (r: Line)
    ensures r.Blank? <==> Trim(raw) == [] || Trim(raw)[0] == '#'
    ensures r.NoColon? <==> !r.Blank? && ':' !in Trim(raw)
    ensures r.NoColon? ==> r.text == Trim(raw)
  {
    var line := Trim(raw);
    if |line| == 0 || line[0] == '#' then Blank
    else
      match SplitFirst(line, ':')
      case None => NoColon(line)
      case Some((head, rest)) =>
        var key := Trim(head);
        if key == "port" then PortLine(Trim(rest))
        else if key == "accumulate_window" then WindowLine(rest)
        else BindingLine(head, Trim(rest))
  }

  /** How a line is classified, read from the way it is written: indentation,
      a stripped head without a colon, the colon, and the rest. */
  lemma ClassifyLine(indent: string, head: string, rest: string)
    requires AllSpace(indent)
    requires Stripped(head) && head[0] != '#' && ':' !in head
    requires rest == [] || !IsSpace(rest[|rest| - 1])
    ensures Classify(indent + head + ":" + rest) ==
              if head == "port" then PortLine(Trim(rest))
              else if head == "accumulate_window" then WindowLine(rest)
              else BindingLine(head, Trim(rest))
  {
    TrimSetting(indent, head, rest);
    ClassifyTrimmed(indent + head + ":" + rest, head, rest);
  }

  /** Stripping a setting line removes the indentation and nothing else. */
  lemma TrimSetting(indent: string, head: string, rest: string)
    requires AllSpace(indent)
    requires Stripped(head)
    requires rest == [] || !IsSpace(rest[|rest| - 1])
    ensures Trim(indent + head + ":" + rest) == head + [':'] + rest
  {
    var line := head + [':'] + rest;
    assert indent + head + ":" + rest == indent + line;
    TrimLeftSpaces(indent, line);
    LineEnds(head, rest);
    TrimNoEnds(line);
  }

  lemma LineEnds(head: string, rest: string)
    requires Stripped(head)
    requires rest == [] || !IsSpace(rest[|rest| - 1])
    ensures !IsSpace((head + [':'] + rest)[0])
    ensures !IsSpace((head + [':'] + rest)[|head + [':'] + rest| - 1])
  {
    var line := head + [':'] + rest;
    assert line[0] == head[0];
    if rest == [] {
      assert line[|line| - 1] == ':';
    } else {
      assert line[|line| - 1] == rest[|rest| - 1];
    }
  }

  lemma ClassifyTrimmed(raw: string, head: string, rest: string)
    requires Trim(raw) == head + [':'] + rest
    requires Stripped(head) && head[0] != '#' && ':' !in head
    ensures Classify(raw) ==
              if head == "port" then PortLine(Trim(rest))
              else if head == "accumulate_window" then WindowLine(rest)
              else BindingLine(head, Trim(rest))
  {
    SplitFirstAt(head, ':', rest);
    TrimNoEnds(head);
  }

  /** What has been read so far: the window stays None until the first
      `accumulate_window:` line. */
  datatype Reader = Reader(port: Option<string>, window: Option<Decimal>, commands: MessageDict)

  const Start: Reader := Reader(None, None, Empty())

  /** Reads one line: a port line replaces the port, only the first window
      line is parsed, a binding line sets its pattern's slot, and a malformed
      line stops the whole read. */
  function Step(r: Reader, raw: string): Result<Reader, ConfigError> {
    StepLine(r, Classify(raw))
  }

  /** The step on a line already classified. */
  function StepLine(r: Reader, c: Line): Result<Reader, ConfigError> {
    match c
    case Blank => Ok(r)
    case NoColon(line) => Err(MissingColon(line))
    case PortLine(name) => Ok(r.(port := Some(name)))
    case WindowLine(text) =>
      if r.window.Some? then Ok(r)
      else
        (match ParseWindow(text)
         case Err(e) => Err(e)
         case Ok(w) => Ok(r.(window := Some(w))))
    case BindingLine(pattern, command) =>
      match ParsePattern(pattern)
      case Err(e) => Err(e)
      case Ok(m) => Ok(r.(commands := Set(r.commands, m, command)))
  }

  /** Reads the lines in order, stopping at the first error. */
  function ReadLines(lines: seq<string>): Result<Reader, ConfigError>
    decreases |lines|
  {
    if |lines| == 0 then Ok(Start)
    else
      match ReadLines(lines[..|lines| - 1])
      case Err(e) => Err(e)
      case Ok(r) => Step(r, lines[|lines| - 1])
  }

  function FromLines(lines: seq<string>): Result<ConfigTxt, ConfigError> {
    match ReadLines(lines)
    case Err(e) => Err(e)
    case Ok(r) => Ok(ConfigTxt(r.port, r.window.GetOr(DefaultWindow), r.commands))
  }

  /** `ConfigTxt.from_file(f)` on the file's text. */
  function FromFile(text: string): Result<ConfigTxt, ConfigError> {
    FromLines(Lines(text))
  }

  // Declarative readings of a configuration, one question at a time.

  /** The name on the last `port:` line. */
  function LastPort(lines: seq<string>): Option<string>
    decreases |lines|
  {
    if |lines| == 0 then None
    else
      match Classify(lines[|lines| - 1])
      case PortLine(name) => Some(name)
      case _ => LastPort(lines[..|lines| - 1])
  }

  /** The value text of the first `accumulate_window:` line. */
  function FirstWindow(lines: seq<string>): Option<string>
    decreases |lines|
  {
    if |lines| == 0 then None
    else
      match Classify(lines[0])
      case WindowLine(text) => Some(text)
      case _ => FirstWindow(lines[1..])
  }

  /** The command of the last binding line whose pattern is in the slot of `m`. */
  function LastCommand(lines: seq<string>, m: Message): Option<string>
    decreases |lines|
  {
    if |lines| == 0 then None
    else
      match Classify(lines[|lines| - 1])
      case BindingLine(pattern, command) =>
        if ParsePattern(pattern).Ok? && SameSlot(ParsePattern(pattern).value, m) then Some(command)
        else LastCommand(lines[..|lines| - 1], m)
      case _ => LastCommand(lines[..|lines| - 1], m)
  }

  /** The keys the binding lines name. */
  function BoundKeys(lines: seq<string>): set<CommandKey>
    decreases |lines|
  {
    if |lines| == 0 then {}
    else
      var earlier := BoundKeys(lines[..|lines| - 1]);
      match Classify(lines[|lines| - 1])
      case BindingLine(pattern, _) =>
        if ParsePattern(pattern).Ok? then earlier + {KeyOf(ParsePattern(pattern).value)} else earlier
      case _ => earlier
  }

  /** Why a line is rejected after the lines `before` it, if it is: a missing
      colon, a bad pattern, or a bad value on the first window line. */
  function LineError(before: seq<string>, raw: string): Option<ConfigError> {
    ClassError(before, Classify(raw))
  }

  function ClassError(before: seq<string>, c: Line): Option<ConfigError> {
    match c
    case NoColon(line) => Some(MissingColon(line))
    case WindowLine(text) =>
      if FirstWindow(before).None? && ParseWindow(text).Err? then Some(BadWindow(text)) else None
    case BindingLine(pattern, _) =>
      if ParsePattern(pattern).Err? then Some(BadPattern(pattern)) else None
    case _ => None
  }

  predicate AllLinesOk(lines: seq<string>) {
    forall i :: 0 <= i < |lines| ==> LineError(lines[..i], lines[i]).None?
  }

  lemma {:induction false} FirstWindowSnoc(lines: seq<string>, raw: string)
    ensures FirstWindow(lines + [raw]) ==
              if FirstWindow(lines).Some? then FirstWindow(lines)
              else if Classify(raw).WindowLine? then Some(Classify(raw).text)
              else None
    decreases |lines|
  {
    if |lines| == 0 {
      assert [] + [raw] == [raw];
      assert [raw][1..] == [];
    } else {
      assert (lines + [raw])[0] == lines[0];
      assert (lines + [raw])[1..] == lines[1..] + [raw];
      FirstWindowSnoc(lines[1..], raw);
    }
  }

  lemma ReadLinesSnoc(init: seq<string>, raw: string)
    ensures ReadLines(init + [raw]) ==
              match ReadLines(init) case Err(e) => Err(e) case Ok(r) => Step(r, raw)
  {
    assert (init + [raw])[..|init|] == init;
  }

  /** One step keeps the reader in line with the declarative readings. */
  lemma StepSpec(r: Reader, before: seq<string>, raw: string)
    requires r.window.Some? <==> FirstWindow(before).Some?
    ensures Step(r, raw).Ok? <==> LineError(before, raw).None?
    ensures Step(r, raw).Err? ==> Some(Step(r, raw).error) == LineError(before, raw)
    ensures Step(r, raw).Ok? ==> Step(r, raw).value.port == (if Classify(raw).PortLine? then Some(Classify(raw).name) else r.port)
    ensures Step(r, raw).Ok? && r.window.None? && Classify(raw).WindowLine? ==>
              Step(r, raw).value.window == Some(ParseWindow(Classify(raw).text).value)
    ensures Step(r, raw).Ok? && (r.window.Some? || !Classify(raw).WindowLine?) ==>
              Step(r, raw).value.window == r.window
    ensures Step(r, raw).Ok? && Classify(raw).BindingLine? ==>
              var m := ParsePattern(Classify(raw).pattern).value;
              && Step(r, raw).value.commands.table.Keys == r.commands.table.Keys + {KeyOf(m)}
              && forall m' :: Get(Step(r, raw).value.commands, m') ==
                                if SameSlot(m, m') then Classify(raw).command else Get(r.commands, m')
    ensures Step(r, raw).Ok? && !Classify(raw).BindingLine? ==> Step(r, raw).value.commands == r.commands
  {
    StepLineSpec(r, before, Classify(raw));
  }

  lemma StepLineSpec(r: Reader, before: seq<string>, c: Line)
    requires r.window.Some? <==> FirstWindow(before).Some?
    ensures StepLine(r, c).Ok? <==> ClassError(before, c).None?
    ensures StepLine(r, c).Err? ==> Some(StepLine(r, c).error) == ClassError(before, c)
    ensures StepLine(r, c).Ok? ==> StepLine(r, c).value.port == (if c.PortLine? then Some(c.name) else r.port)
    ensures StepLine(r, c).Ok? && r.window.None? && c.WindowLine? ==>
              StepLine(r, c).value.window == Some(ParseWindow(c.text).value)
    ensures StepLine(r, c).Ok? && (r.window.Some? || !c.WindowLine?) ==>
              StepLine(r, c).value.window == r.window
    ensures StepLine(r, c).Ok? && c.BindingLine? ==>
              var m := ParsePattern(c.pattern).value;
              && StepLine(r, c).value.commands.table.Keys == r.commands.table.Keys + {KeyOf(m)}
              && forall m' :: Get(StepLine(r, c).value.commands, m') ==
                                if SameSlot(m, m') then c.command else Get(r.commands, m')
    ensures StepLine(r, c).Ok? && !c.BindingLine? ==> StepLine(r, c).value.commands == r.commands
  {
    match c
    case BindingLine(pattern, command) =>
      if ParsePattern(pattern).Ok? {
        KeyOfSlot(ParsePattern(pattern).value);
      }
    case _ =>
  }

  /** The window is read from the first window line, and only from it. */
  lemma {:induction false} ReadLinesWindow(lines: seq<string>)
    ensures ReadLines(lines).Ok? ==> (ReadLines(lines).value.window.Some? <==> FirstWindow(lines).Some?)
    ensures ReadLines(lines).Ok? && FirstWindow(lines).Some? ==>
              ParseWindow(FirstWindow(lines).value) == Ok(ReadLines(lines).value.window.value)
    decreases |lines|
  {
    if |lines| > 0 {
      var init := lines[..|lines| - 1];
      var raw := lines[|lines| - 1];
      LastSplit(lines);
      ReadLinesSnoc(init, raw);
      ReadLinesWindow(init);
      FirstWindowSnoc(init, raw);
      if ReadLines(lines).Ok? {
        StepSpec(ReadLines(init).value, init, raw);
      }
    }
  }

  /** Reading succeeds exactly when no line is rejected. */
  lemma {:induction false} ReadLinesOk(lines: seq<string>)
    ensures ReadLines(lines).Ok? <==> AllLinesOk(lines)
    decreases |lines|
  {
    if |lines| > 0 {
      var init := lines[..|lines| - 1];
      var raw := lines[|lines| - 1];
      LastSplit(lines);
      ReadLinesSnoc(init, raw);
      ReadLinesOk(init);
      if ReadLines(init).Ok? {
        ReadLinesWindow(init);
        StepSpec(ReadLines(init).value, init, raw);
      }
      AllLinesOkSnoc(init, raw);
    }
  }

  lemma AllLinesOkSnoc(init: seq<string>, raw: string)
    ensures AllLinesOk(init + [raw]) <==> AllLinesOk(init) && LineError(init, raw).None?
  {
    var lines := init + [raw];
    assert forall i :: 0 <= i < |init| ==> lines[..i] == init[..i] && lines[i] == init[i];
    assert lines[..|init|] == init && lines[|init|] == raw;
  }

  /** A failed read reports the error of the first rejected line. */
  lemma {:induction false} ReadLinesError(lines: seq<string>)
    ensures ReadLines(lines).Err? ==>
              exists i :: 0 <= i < |lines| && AllLinesOk(lines[..i])
                          && LineError(lines[..i], lines[i]) == Some(ReadLines(lines).error)
    decreases |lines|
  {
    if |lines| > 0 && ReadLines(lines).Err? {
      var init := lines[..|lines| - 1];
      var raw := lines[|lines| - 1];
      LastSplit(lines);
      ReadLinesSnoc(init, raw);
      var e := ReadLines(lines).error;
      if ReadLines(init).Ok? {
        ReadLinesOk(init);
        ReadLinesWindow(init);
        StepSpec(ReadLines(init).value, init, raw);
        var i := |init|;
        FrontOfSnoc(init, raw);
        assert AllLinesOk(lines[..i]) && LineError(lines[..i], lines[i]) == Some(e);
      } else {
        assert e == ReadLines(init).error;
        ReadLinesError(init);
        var i :| 0 <= i < |init| && AllLinesOk(init[..i]) && LineError(init[..i], init[i]) == Some(e);
        PrefixOfSnoc(init, raw, i);
        assert AllLinesOk(lines[..i]) && LineError(lines[..i], lines[i]) == Some(e);
      }
    }
  }

  /** The port is the one on the last port line. */
  lemma {:induction false} ReadLinesPort(lines: seq<string>)
    ensures ReadLines(lines).Ok? ==> ReadLines(lines).value.port == LastPort(lines)
    decreases |lines|
  {
    if |lines| > 0 {
      var init := lines[..|lines| - 1];
      var raw := lines[|lines| - 1];
      LastSplit(lines);
      ReadLinesSnoc(init, raw);
      ReadLinesPort(init);
      if ReadLines(lines).Ok? {
        ReadLinesWindow(init);
        StepSpec(ReadLines(init).value, init, raw);
      }
    }
  }

  /** Every slot holds the command of the last binding line in that slot. */
  lemma {:induction false} ReadLinesCommands(lines: seq<string>)
    ensures ReadLines(lines).Ok? ==>
              forall m :: Get(ReadLines(lines).value.commands, m) == LastCommand(lines, m).GetOr("")
    decreases |lines|
  {
    if |lines| > 0 && ReadLines(lines).Ok? {
      var init := lines[..|lines| - 1];
      var raw := lines[|lines| - 1];
      LastSplit(lines);
      ReadLinesSnoc(init, raw);
      ReadLinesCommands(init);
      ReadLinesWindow(init);
      StepSpec(ReadLines(init).value, init, raw);
      forall m ensures Get(ReadLines(lines).value.commands, m) == LastCommand(lines, m).GetOr("") {
        LastCommandSnoc(init, raw, m);
      }
    }
  }

  lemma LastCommandSnoc(init: seq<string>, raw: string, m: Message)
    ensures LastCommand(init + [raw], m) ==
              if Classify(raw).BindingLine? && ParsePattern(Classify(raw).pattern).Ok?
                 && SameSlot(ParsePattern(Classify(raw).pattern).value, m)
              then Some(Classify(raw).command) else LastCommand(init, m)
  {
    assert (init + [raw])[..|init|] == init;
  }

  /** The bound keys are exactly the ones the binding lines name. */
  lemma {:induction false} ReadLinesKeys(lines: seq<string>)
    ensures ReadLines(lines).Ok? ==> ReadLines(lines).value.commands.table.Keys == BoundKeys(lines)
    decreases |lines|
  {
    if |lines| > 0 && ReadLines(lines).Ok? {
      var init := lines[..|lines| - 1];
      var raw := lines[|lines| - 1];
      LastSplit(lines);
      ReadLinesSnoc(init, raw);
      ReadLinesKeys(init);
      ReadLinesWindow(init);
      StepSpec(ReadLines(init).value, init, raw);
    }
  }

  /** `ConfigTxt.from_file` as a whole: it fails exactly when some line is
      rejected (with that line's error), and otherwise the port is the last
      port line's, the window the first window line's (0.5 seconds when
      there is none, and always positive), each slot holds its last command,
      and there is one entry per key the binding lines name. */
  lemma FromLinesSpec(lines: seq<string>)
    ensures FromLines(lines).Ok? <==> AllLinesOk(lines)
    ensures FromLines(lines).Err? ==>
              exists i :: 0 <= i < |lines| && AllLinesOk(lines[..i])
                          && LineError(lines[..i], lines[i]) == Some(FromLines(lines).error)
    ensures FromLines(lines).Ok? ==> FromLines(lines).value.port == LastPort(lines)
    ensures FromLines(lines).Ok? && FirstWindow(lines).None? ==>
              FromLines(lines).value.accumulateWindow == DefaultWindow
    ensures FromLines(lines).Ok? && FirstWindow(lines).Some? ==>
              ParseWindow(FirstWindow(lines).value) == Ok(FromLines(lines).value.accumulateWindow)
    ensures FromLines(lines).Ok? ==> Seconds(FromLines(lines).value.accumulateWindow) > 0.0
    ensures FromLines(lines).Ok? ==>
              forall m :: Get(FromLines(lines).value.commands, m) == LastCommand(lines, m).GetOr("")
    ensures FromLines(lines).Ok? ==> Size(FromLines(lines).value.commands) == |BoundKeys(lines)|
  {
    ReadLinesOk(lines);
    ReadLinesError(lines);
    ReadLinesWindow(lines);
    ReadLinesPort(lines);
    ReadLinesCommands(lines);
    ReadLinesKeys(lines);
    if FromLines(lines).Ok? {
      var w := FromLines(lines).value.accumulateWindow;
      if FirstWindow(lines).None? {
        SecondsPositive(DefaultWindow);
      } else {
        assert w.mantissa > 0;
        SecondsPositive(w);
      }
    }
  }

  lemma KeyOfSlot(m: Message)
    ensures forall m' :: SameSlot(m, m') <==> KeyOf(m') == KeyOf(m)
  {
    forall m' ensures SameSlot(m, m') <==> KeyOf(m') == KeyOf(m) {
      KeyOfIdentifiesSlot(m, m');
    }
  }
}
