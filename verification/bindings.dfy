/** `MessageDict`: the binding table. It is indexed by messages but stores
    one slot per key, so messages that differ only in value, pitch or time
    share a slot; a slot never set reads as the empty command. */
module Bindings {
  import opened Wrappers
  import opened Numerals
  import Text
  import opened Messages
  import opened Flatten

  datatype MessageDict = MessageDict(table: map<CommandKey, string>)

  /** `MessageDict()`: no slot is bound. */
  function Empty(): (r: MessageDict)
    ensures forall m :: Get(r, m) == ""
    ensures Size(r) == 0
  {
    MessageDict(map[])
  }

  /** `mc[message]`: the command bound to the message's key, or "". */
  function Get(d: MessageDict, m: Message): string {
    var k := KeyOf(m);
    if k in d.table then d.table[k] else ""
  }

  /** `len(mc)`: the number of bound keys. */
  function Size(d: MessageDict): nat {
    |d.table|
  }

  /** Binds a key directly. */
  function Bind(d: MessageDict, k: CommandKey, cmd: string): (r: MessageDict)
    ensures r.table.Keys == d.table.Keys + {k}
    ensures forall m :: Get(r, m) == if KeyOf(m) == k then cmd else Get(d, m)
  {
    MessageDict(d.table[k := cmd])
  }

  /** `mc[message] = cmd`: the message's slot now holds `cmd`, every other
      slot is unchanged, and the table grows only if the slot was new. */
  function Set(d: MessageDict, m: Message, cmd: string): (r: MessageDict)
    ensures forall m' :: Get(r, m') == if SameSlot(m, m') then cmd else Get(d, m')
    ensures Size(r) == if KeyOf(m) in d.table then Size(d) else Size(d) + 1
  {
    forall m' ensures KeyOf(m') == KeyOf(m) <==> SameSlot(m, m') {
      KeyOfIdentifiesSlot(m', m);
    }
    Bind(d, KeyOf(m), cmd)
  }

  /** Setting two messages of one slot: the later set wins for both. */
  lemma LaterSetWins(d: MessageDict, m1: Message, m2: Message, c1: string, c2: string)
    requires SameSlot(m1, m2)
    ensures Get(Set(Set(d, m1, c1), m2, c2), m1) == c2
    ensures Get(Set(Set(d, m1, c1), m2, c2), m2) == c2
    ensures Size(Set(Set(d, m1, c1), m2, c2)) == Size(Set(d, m1, c1))
  {
    KeyOfIdentifiesSlot(m1, m2);
    KeyOfIdentifiesSlot(m2, m2);
  }

  /** The reasons `load` rejects a channel dictionary. */
  datatype LoadError =
    | BadChannel(text: string)
    | BadControl(text: string)
    | UnknownPath(path: seq<string>)

  /** `int(text)` checked against a range, as the library checks channel and
      control numbers. `int()` ignores whitespace around the numeral, so the
      text is stripped first. */
  function ParseRanged(text: string, hi: int): (r: Option<int>)
    ensures r.Some? <==> ParseInt(Text.Trim(text)).Some? && 0 <= ParseInt(Text.Trim(text)).value < hi
    ensures r.Some? ==> r.value == ParseInt(Text.Trim(text)).value
  {
    match ParseInt(Text.Trim(text))
    case Some(n) => if 0 <= n < hi then Some(n) else None
    case None => None
  }

  /** A number in range, written by `str` and padded with whitespace on
      either side, reads back as that number. */
  lemma ParseRangedPadded(pre: string, n: int, post: string, hi: int)
    requires Text.AllSpace(pre) && Text.AllSpace(post) && 0 <= n < hi
    ensures ParseRanged(pre + IntToString(n) + post, hi) == Some(n)
  {
    var digits := IntToString(n);
    assert !Text.IsSpace(digits[0]) && !Text.IsSpace(digits[|digits| - 1]);
    Text.TrimFramed(pre, digits, post);
    ParseIntOfIntToString(n);
  }

  /** A number in range, as `str` writes it, reads back as that number. */
  lemma ParseRangedOfIntToString(n: int, hi: int)
    requires 0 <= n < hi
    ensures ParseRanged(IntToString(n), hi) == Some(n)
  {
    assert "" + IntToString(n) + "" == IntToString(n);
    assert Text.AllSpace("");
    ParseRangedPadded("", n, "", hi);
  }

  /** The key a flattened path of the channel dictionary names:
      `(channel, "pitchwheel")` or `(channel, "control_change", control)`. */
  function PathKey(p: seq<string>): (r: Result<CommandKey, LoadError>)
    ensures r.Ok? ==> r.value.kind == PitchWheelType || r.value.kind == ControlChangeType
    ensures r.Ok? && r.value.kind == ControlChangeType ==>
              |p| == 3 && p[1] == "control_change" && r.value.control.Some?
    ensures r.Ok? && r.value.kind == PitchWheelType ==> |p| == 2 && p[1] == "pitchwheel" && r.value.control.None?
  {
    if |p| == 2 && p[1] == "pitchwheel" then
      match ParseRanged(p[0], 16)
      case None => Err(BadChannel(p[0]))
      case Some(ch) => Ok(CommandKey(ch, PitchWheelType, None))
    else if |p| == 3 && p[1] == "control_change" then
      match ParseRanged(p[0], 16)
      case None => Err(BadChannel(p[0]))
      case Some(ch) =>
        match ParseRanged(p[2], 128)
        case None => Err(BadControl(p[2]))
        case Some(ctl) => Ok(CommandKey(ch, ControlChangeType, Some(ctl)))
    else Err(UnknownPath(p))
  }

  /** When `load` accepts a path, and how it rejects the others: a
      `pitchwheel` path with a channel in range and a `control_change` path
      with a channel and a control in range are accepted; any other shape is
      an unknown path; a bad number is reported by its text, the channel
      first. */
  lemma PathKeyCases(p: seq<string>)
    ensures PathKey(p).Ok? ==> |p| >= 2 && ParseRanged(p[0], 16) == Some(PathKey(p).value.channel)
    ensures PathKey(p).Ok? && PathKey(p).value.control.Some? ==>
              |p| == 3 && ParseRanged(p[2], 128) == Some(PathKey(p).value.control.value)
    ensures (PathKey(p).Ok? && PathKey(p).value.kind == PitchWheelType) <==>
              (|p| == 2 && p[1] == "pitchwheel" && ParseRanged(p[0], 16).Some?)
    ensures (PathKey(p).Ok? && PathKey(p).value.kind == ControlChangeType) <==>
              (|p| == 3 && p[1] == "control_change" && ParseRanged(p[0], 16).Some? && ParseRanged(p[2], 128).Some?)
    ensures (!(|p| == 2 && p[1] == "pitchwheel") && !(|p| == 3 && p[1] == "control_change")) ==>
              PathKey(p) == Err(UnknownPath(p))
    ensures (((|p| == 2 && p[1] == "pitchwheel") || (|p| == 3 && p[1] == "control_change"))
             && ParseRanged(p[0], 16).None?) ==> PathKey(p) == Err(BadChannel(p[0]))
    ensures (|p| == 3 && p[1] == "control_change" && ParseRanged(p[0], 16).Some? && ParseRanged(p[2], 128).None?)
            ==> PathKey(p) == Err(BadControl(p[2]))
  {
  }

  /** Binds every flattened pair in order. */
  function LoadPairs(d: MessageDict, pairs: seq<Pair<string, string>>): Result<MessageDict, LoadError>
    decreases |pairs|
  {
    if |pairs| == 0 then Ok(d)
    else
      match PathKey(pairs[0].0)
      case Err(e) => Err(e)
      case Ok(k) => LoadPairs(Bind(d, k, pairs[0].1), pairs[1..])
  }

  /** `mc.load(channels)` for `{channel: {"pitchwheel": cmd,
      "control_change": {control: cmd}}}`. */
  function Load(d: MessageDict, channels: seq<Entry<string, string>>): Result<MessageDict, LoadError> {
    LoadPairs(d, DictToTuples(channels))
  }

  /** The command of the last pair naming key `k`, if any pair does. */
  function LastBinding(pairs: seq<Pair<string, string>>, k: CommandKey): Option<string>
    decreases |pairs|
  {
    if |pairs| == 0 then None
    else if PathKey(pairs[|pairs| - 1].0) == Ok(k) then Some(pairs[|pairs| - 1].1)
    else LastBinding(pairs[..|pairs| - 1], k)
  }

  predicate AllPathsValid(pairs: seq<Pair<string, string>>) {
    forall i :: 0 <= i < |pairs| ==> PathKey(pairs[i].0).Ok?
  }

  lemma {:induction false} LoadPairsSnoc(d: MessageDict, pairs: seq<Pair<string, string>>, x: Pair<string, string>)
    ensures LoadPairs(d, pairs + [x]) ==
              match LoadPairs(d, pairs)
              case Err(e) => Err(e)
              case Ok(d') => (match PathKey(x.0) case Err(e) => Err(e) case Ok(k) => Ok(Bind(d', k, x.1)))
    decreases |pairs|
  {
    if |pairs| == 0 {
      assert pairs + [x] == [x];
    } else {
      assert (pairs + [x])[1..] == pairs[1..] + [x];
      match PathKey(pairs[0].0)
      case Err(_) =>
      case Ok(k) => LoadPairsSnoc(Bind(d, k, pairs[0].1), pairs[1..], x);
    }
  }

  /** The keys the paths of `pairs` name. */
  function PathKeys(pairs: seq<Pair<string, string>>): set<CommandKey> {
    set i | 0 <= i < |pairs| && PathKey(pairs[i].0).Ok? :: PathKey(pairs[i].0).value
  }

  lemma PathKeysSnoc(pairs: seq<Pair<string, string>>, x: Pair<string, string>, k: CommandKey)
    requires PathKey(x.0) == Ok(k)
    ensures PathKeys(pairs + [x]) == PathKeys(pairs) + {k}
  {
    var all := pairs + [x];
    forall i | 0 <= i < |pairs| ensures all[i] == pairs[i] {}
    assert all[|pairs|] == x;
  }

  /** A successful load binds the keys the table had and exactly the keys
      its paths name. */
  lemma {:induction false} LoadPairsKeys(d: MessageDict, pairs: seq<Pair<string, string>>)
    ensures LoadPairs(d, pairs).Ok? ==> LoadPairs(d, pairs).value.table.Keys == d.table.Keys + PathKeys(pairs)
    decreases |pairs|
  {
    if |pairs| == 0 {
      assert PathKeys(pairs) == {};
    } else {
      var init := pairs[..|pairs| - 1];
      var x := pairs[|pairs| - 1];
      assert pairs == init + [x];
      LoadPairsSnoc(d, init, x);
      LoadPairsKeys(d, init);
      if LoadPairs(d, pairs).Ok? {
        PathKeysSnoc(init, x, PathKey(x.0).value);
      }
    }
  }

  /** Loading succeeds exactly when every path names a key; then each message
      reads the command of the last pair naming its key, and a message no pair
      names keeps what it had. */
  lemma LoadPairsSpec(d: MessageDict, pairs: seq<Pair<string, string>>)
    ensures LoadPairs(d, pairs).Ok? <==> AllPathsValid(pairs)
    ensures LoadPairs(d, pairs).Ok? ==>
              forall m :: Get(LoadPairs(d, pairs).value, m) == LastBinding(pairs, KeyOf(m)).GetOr(Get(d, m))
    ensures LoadPairs(d, pairs).Ok? ==> LoadPairs(d, pairs).value.table.Keys == d.table.Keys + PathKeys(pairs)
    ensures LoadPairs(d, pairs).Ok? ==> Size(LoadPairs(d, pairs).value) == |d.table.Keys + PathKeys(pairs)|
  {
    LoadPairsOk(d, pairs);
    LoadPairsReads(d, pairs);
    LoadPairsKeys(d, pairs);
  }

  lemma {:induction false} LoadPairsOk(d: MessageDict, pairs: seq<Pair<string, string>>)
    ensures LoadPairs(d, pairs).Ok? <==> AllPathsValid(pairs)
    decreases |pairs|
  {
    if |pairs| > 0 {
      var init := pairs[..|pairs| - 1];
      var x := pairs[|pairs| - 1];
      assert pairs == init + [x];
      LoadPairsSnoc(d, init, x);
      LoadPairsOk(d, init);
      if AllPathsValid(pairs) {
        assert forall i :: 0 <= i < |init| ==> init[i] == pairs[i];
        assert AllPathsValid(init);
      } else if AllPathsValid(init) {
        assert PathKey(x.0).Err?;
      }
    }
  }

  lemma {:induction false} LoadPairsReads(d: MessageDict, pairs: seq<Pair<string, string>>)
    ensures LoadPairs(d, pairs).Ok? ==>
              forall m :: Get(LoadPairs(d, pairs).value, m) == LastBinding(pairs, KeyOf(m)).GetOr(Get(d, m))
    decreases |pairs|
  {
    if |pairs| > 0 {
      var init := pairs[..|pairs| - 1];
      var x := pairs[|pairs| - 1];
      assert pairs == init + [x];
      LoadPairsSnoc(d, init, x);
      LoadPairsReads(d, init);
    }
  }

  /** `load` binds exactly the keys its paths name, later pairs overriding
      earlier ones, and leaves every other slot as it was. */
  lemma LoadSpec(d: MessageDict, channels: seq<Entry<string, string>>, m: Message)
    ensures Load(d, channels).Ok? <==> AllPathsValid(DictToTuples(channels))
    ensures Load(d, channels).Ok? ==>
              Get(Load(d, channels).value, m) == LastBinding(DictToTuples(channels), KeyOf(m)).GetOr(Get(d, m))
    ensures Load(d, channels).Ok? ==>
              Load(d, channels).value.table.Keys == d.table.Keys + PathKeys(DictToTuples(channels))
    ensures Load(d, channels).Ok? ==> Size(Load(d, channels).value) == |d.table.Keys + PathKeys(DictToTuples(channels))|
  {
    LoadPairsSpec(d, DictToTuples(channels));
  }
}
