/** The binding table's load example: a channel dictionary with a pitch
    wheel and two controls on channel 10 and one control on channel 2. */
module BindingsExamples {
  import opened Wrappers
  import opened Numerals
  import opened Messages
  import opened Flatten
  import opened Bindings

  /** `{c10: {pw: vp, cc: {k9: v9, k18: v18}}, c2: {cc: {k1: v1}}}` flattens
      to its four leaves, depth first, whatever the keys and leaves are. */
  lemma ChannelsFlatten<K, V>(c10: K, c2: K, pw: K, cc: K, k9: K, k18: K, k1: K,
                              vp: V, v9: V, v18: V, v1: V)
    ensures DictToTuples([Entry(c10, Dict([Entry(pw, Leaf(vp)),
                                           Entry(cc, Dict([Entry(k9, Leaf(v9)), Entry(k18, Leaf(v18))]))])),
                          Entry(c2, Dict([Entry(cc, Dict([Entry(k1, Leaf(v1))]))]))])
            == [([c10, pw], vp), ([c10, cc, k9], v9), ([c10, cc, k18], v18), ([c2, cc, k1], v1)]
  {
    var controls := [Entry(k9, Leaf(v9)), Entry(k18, Leaf(v18))];
    var ten := [Entry(pw, Leaf(vp)), Entry(cc, Dict(controls))];
    var two := [Entry(cc, Dict([Entry(k1, Leaf(v1))]))];
    TwoLeaves(k9, k18, v9, v18);
    TenFlattens(pw, cc, vp, controls, [([k9], v9), ([k18], v18)]);
    assert [cc] + [k9] == [cc, k9] && [cc] + [k18] == [cc, k18];
    TwoFlattens(cc, k1, v1);
    TopFlattens(c10, c2, ten, two, [([pw], vp), ([cc, k9], v9), ([cc, k18], v18)], [([cc, k1], v1)]);
  }

  lemma TwoFlattens<K, V>(cc: K, k1: K, v1: V)
    ensures DictToTuples([Entry(cc, Dict([Entry(k1, Leaf(v1))]))]) == [([cc, k1], v1)]
  {
    SingleEntryTuples(k1, Leaf(v1));
    SingleEntryTuples(cc, Dict([Entry(k1, Leaf(v1))]));
    assert [cc] + [k1] == [cc, k1];
  }

  lemma TopFlattens<K, V>(c10: K, c2: K, ten: seq<Entry<K, V>>, two: seq<Entry<K, V>>,
                          p10: seq<Pair<K, V>>, p2: seq<Pair<K, V>>)
    requires DictToTuples(ten) == p10 && |p10| == 3 && |p10[0].0| == 1 && |p10[1].0| == 2 && |p10[2].0| == 2
    requires DictToTuples(two) == p2 && |p2| == 1 && |p2[0].0| == 2
    ensures DictToTuples([Entry(c10, Dict(ten)), Entry(c2, Dict(two))])
            == [([c10, p10[0].0[0]], p10[0].1), ([c10, p10[1].0[0], p10[1].0[1]], p10[1].1),
                ([c10, p10[2].0[0], p10[2].0[1]], p10[2].1), ([c2, p2[0].0[0], p2[0].0[1]], p2[0].1)]
  {
    assert [Entry(c10, Dict(ten)), Entry(c2, Dict(two))] == [Entry(c10, Dict(ten))] + [Entry(c2, Dict(two))];
    DictToTuplesAppend([Entry(c10, Dict(ten))], [Entry(c2, Dict(two))]);
    assert DictToTuples([Entry(c10, Dict(ten))])
           == [([c10, p10[0].0[0]], p10[0].1), ([c10, p10[1].0[0], p10[1].0[1]], p10[1].1),
               ([c10, p10[2].0[0], p10[2].0[1]], p10[2].1)] by {
      SingleEntryTuples(c10, Dict(ten));
      PrefixedThree(c10, p10);
    }
    assert DictToTuples([Entry(c2, Dict(two))]) == [([c2, p2[0].0[0], p2[0].0[1]], p2[0].1)] by {
      SingleEntryTuples(c2, Dict(two));
      assert [c2] + p2[0].0 == [c2, p2[0].0[0], p2[0].0[1]];
    }
  }

  lemma PrefixedThree<K, V>(k: K, p: seq<Pair<K, V>>)
    requires |p| == 3 && |p[0].0| == 1 && |p[1].0| == 2 && |p[2].0| == 2
    ensures Prefixed(k, p) == [([k, p[0].0[0]], p[0].1), ([k, p[1].0[0], p[1].0[1]], p[1].1),
                               ([k, p[2].0[0], p[2].0[1]], p[2].1)]
  {
    assert [k] + p[0].0 == [k, p[0].0[0]];
    assert [k] + p[1].0 == [k, p[1].0[0], p[1].0[1]];
    assert [k] + p[2].0 == [k, p[2].0[0], p[2].0[1]];
  }

  lemma TwoLeaves<K, V>(k1: K, k2: K, v1: V, v2: V)
    ensures DictToTuples([Entry(k1, Leaf(v1)), Entry(k2, Leaf(v2))]) == [([k1], v1), ([k2], v2)]
  {
    DictToTuplesAppend([Entry(k1, Leaf(v1))], [Entry(k2, Leaf(v2))]);
    assert [Entry(k1, Leaf(v1)), Entry(k2, Leaf(v2))] == [Entry(k1, Leaf(v1))] + [Entry(k2, Leaf(v2))];
    SingleEntryTuples(k1, Leaf(v1));
    SingleEntryTuples(k2, Leaf(v2));
  }

  lemma TenFlattens<K, V>(pw: K, cc: K, vp: V, controls: seq<Entry<K, V>>, pairs: seq<Pair<K, V>>)
    requires DictToTuples(controls) == pairs && |pairs| == 2
    ensures DictToTuples([Entry(pw, Leaf(vp)), Entry(cc, Dict(controls))])
            == [([pw], vp), ([cc] + pairs[0].0, pairs[0].1), ([cc] + pairs[1].0, pairs[1].1)]
  {
    DictToTuplesAppend([Entry(pw, Leaf(vp))], [Entry(cc, Dict(controls))]);
    assert [Entry(pw, Leaf(vp)), Entry(cc, Dict(controls))] == [Entry(pw, Leaf(vp))] + [Entry(cc, Dict(controls))];
    SingleEntryTuples(pw, Leaf(vp));
    SingleEntryTuples(cc, Dict(controls));
  }

  /** Loading four pairs whose paths name keys binds the keys in order. */
  lemma LoadFour(d: MessageDict, a: Pair<string, string>, b: Pair<string, string>,
                 c: Pair<string, string>, e: Pair<string, string>,
                 ka: CommandKey, kb: CommandKey, kc: CommandKey, ke: CommandKey)
    requires PathKey(a.0) == Ok(ka) && PathKey(b.0) == Ok(kb)
    requires PathKey(c.0) == Ok(kc) && PathKey(e.0) == Ok(ke)
    ensures LoadPairs(d, [a, b, c, e]) == Ok(Bind(Bind(Bind(Bind(d, ka, a.1), kb, b.1), kc, c.1), ke, e.1))
  {
    var d1 := Bind(d, ka, a.1);
    var d2 := Bind(d1, kb, b.1);
    var d3 := Bind(d2, kc, c.1);
    assert [e][1..] == [];
    assert LoadPairs(d3, [e]) == Ok(Bind(d3, ke, e.1));
    assert [c, e][1..] == [e];
    assert LoadPairs(d2, [c, e]) == LoadPairs(d3, [e]);
    assert [b, c, e][1..] == [c, e];
    assert LoadPairs(d1, [b, c, e]) == LoadPairs(d2, [c, e]);
    assert [a, b, c, e][1..] == [b, c, e];
    assert LoadPairs(d, [a, b, c, e]) == LoadPairs(d1, [b, c, e]);
  }

  lemma PitchPath()
    ensures PathKey(["10", "pitchwheel"]) == Ok(CommandKey(10, PitchWheelType, None))
  {
    RangedOfExample();
  }

  lemma ControlPaths()
    ensures PathKey(["10", "control_change", "9"]) == Ok(CommandKey(10, ControlChangeType, Some(9)))
    ensures PathKey(["10", "control_change", "18"]) == Ok(CommandKey(10, ControlChangeType, Some(18)))
    ensures PathKey(["2", "control_change", "1"]) == Ok(CommandKey(2, ControlChangeType, Some(1)))
  {
    RangedOfExample();
    ControlPath("10", "9", 10, 9);
    ControlPath("10", "18", 10, 18);
    ControlPath("2", "1", 2, 1);
  }

  lemma ControlPath(channel: string, control: string, ch: Channel, ctl: DataByte)
    requires ParseRanged(channel, 16) == Some(ch as int) && ParseRanged(control, 128) == Some(ctl as int)
    ensures PathKey([channel, "control_change", control]) == Ok(CommandKey(ch, ControlChangeType, Some(ctl)))
  {
    var p := [channel, "control_change", control];
    assert p[0] == channel && p[1] == "control_change" && p[2] == control;
  }

  /** The example's numerals, as channel and control keys. */
  lemma RangedOfExample()
    ensures ParseRanged("10", 16) == Some(10) && ParseRanged("2", 16) == Some(2)
    ensures ParseRanged("9", 128) == Some(9) && ParseRanged("18", 128) == Some(18) && ParseRanged("1", 128) == Some(1)
  {
    assert IntToString(10) == "10" && IntToString(9) == "9" && IntToString(18) == "18";
    assert IntToString(2) == "2" && IntToString(1) == "1";
    ParseRangedOfIntToString(10, 16);
    ParseRangedOfIntToString(2, 16);
    ParseRangedOfIntToString(9, 128);
    ParseRangedOfIntToString(18, 128);
    ParseRangedOfIntToString(1, 128);
  }

  /** The channel dictionary of the example. */
  function ExampleChannels(): seq<Entry<string, string>> {
    [Entry("10", Dict([Entry("pitchwheel", Leaf("echo pitch")),
                       Entry("control_change", Dict([Entry("9", Leaf("echo control9")),
                                                     Entry("18", Leaf("echo control18"))]))])),
     Entry("2", Dict([Entry("control_change", Dict([Entry("1", Leaf("echo c2-1"))]))]))]
  }

  /** The table the example loads. */
  function ExampleTable(): MessageDict {
    Bind(Bind(Bind(Bind(Empty(), CommandKey(10, PitchWheelType, None), "echo pitch"),
                   CommandKey(10, ControlChangeType, Some(9)), "echo control9"),
              CommandKey(10, ControlChangeType, Some(18)), "echo control18"),
         CommandKey(2, ControlChangeType, Some(1)), "echo c2-1")
  }

  lemma LoadsExampleTable()
    ensures Load(Empty(), ExampleChannels()) == Ok(ExampleTable())
  {
    ChannelsFlatten("10", "2", "pitchwheel", "control_change", "9", "18", "1",
                    "echo pitch", "echo control9", "echo control18", "echo c2-1");
    PitchPath();
    ControlPaths();
    LoadFour(Empty(), (["10", "pitchwheel"], "echo pitch"),
             (["10", "control_change", "9"], "echo control9"),
             (["10", "control_change", "18"], "echo control18"),
             (["2", "control_change", "1"], "echo c2-1"),
             CommandKey(10, PitchWheelType, None), CommandKey(10, ControlChangeType, Some(9)),
             CommandKey(10, ControlChangeType, Some(18)), CommandKey(2, ControlChangeType, Some(1)));
  }

  /** `mc.load(channels)` on the example, then reading five messages: the
      four listed slots read their commands (numbers given as text become
      numbers), and a slot not listed reads "". Value, pitch and time are
      whatever the messages carry. */
  lemma LoadExample(pitch: Pitch, value: DataByte, time: int)
    ensures Load(Empty(), ExampleChannels()).Ok?
    ensures Get(Load(Empty(), ExampleChannels()).value, PitchWheel(10, pitch, time)) == "echo pitch"
    ensures Get(Load(Empty(), ExampleChannels()).value, ControlChange(10, 9, value, time)) == "echo control9"
    ensures Get(Load(Empty(), ExampleChannels()).value, ControlChange(10, 18, value, time)) == "echo control18"
    ensures Get(Load(Empty(), ExampleChannels()).value, ControlChange(2, 1, value, time)) == "echo c2-1"
    ensures Get(Load(Empty(), ExampleChannels()).value, ControlChange(3, 1, value, time)) == ""
  {
    LoadsExampleTable();
    ExampleTableReads(pitch, value, time);
  }

  lemma ExampleTableReads(pitch: Pitch, value: DataByte, time: int)
    ensures Get(ExampleTable(), PitchWheel(10, pitch, time)) == "echo pitch"
    ensures Get(ExampleTable(), ControlChange(10, 9, value, time)) == "echo control9"
    ensures Get(ExampleTable(), ControlChange(10, 18, value, time)) == "echo control18"
    ensures Get(ExampleTable(), ControlChange(2, 1, value, time)) == "echo c2-1"
    ensures Get(ExampleTable(), ControlChange(3, 1, value, time)) == ""
  {
    ExampleTableKeys();
    ExampleKeys(pitch, value, time);
  }

  lemma ExampleKeys(pitch: Pitch, value: DataByte, time: int)
    ensures KeyOf(PitchWheel(10, pitch, time)) == CommandKey(10, PitchWheelType, None)
    ensures KeyOf(ControlChange(10, 9, value, time)) == CommandKey(10, ControlChangeType, Some(9))
    ensures KeyOf(ControlChange(10, 18, value, time)) == CommandKey(10, ControlChangeType, Some(18))
    ensures KeyOf(ControlChange(2, 1, value, time)) == CommandKey(2, ControlChangeType, Some(1))
    ensures KeyOf(ControlChange(3, 1, value, time)) == CommandKey(3, ControlChangeType, Some(1))
  {
  }

  /** The example table as a map from keys to commands. */
  lemma ExampleTableKeys()
    ensures ExampleTable().table == map[CommandKey(10, PitchWheelType, None) := "echo pitch",
                                        CommandKey(10, ControlChangeType, Some(9)) := "echo control9",
                                        CommandKey(10, ControlChangeType, Some(18)) := "echo control18",
                                        CommandKey(2, ControlChangeType, Some(1)) := "echo c2-1"]
  {
  }
}
