/**
 The poll list the adapter builds at construction: a table of named poll
 commands, filtered by the comma-separated poll string of the monitor
 settings, or the whole table when there are no monitor settings.
 */
module PollList {
  import opened Wrappers
  import opened ViscaTypes
  import opened Config
  import Text

  /** The named poll commands the poll string may select, in the order the dictionary initializer lists them. */
  const PollTable: seq<(string, PollCommand)> := [
    ("AE", AEPoll),
    ("Aperture", AperturePoll),
    ("BackLight", BackLightPoll),
    ("BGain", BGainPoll),
    ("ExpComp", ExpCompPoll),
    ("FocusAuto", FocusAutoPoll),
    ("FocusPosition", FocusPositionPoll),
    ("Gain", GainPoll),
    ("Iris", IrisPoll),
    ("Mute", MutePoll),
    ("PTZPosition", PanTiltPositionPoll),
    ("Power", PowerPoll),
    ("RGain", RGainPoll),
    ("Shutter", ShutterPoll),
    ("Title", TitlePoll),
    ("WB", WBModePoll),
    ("WD", WideDynamicModePoll),
    ("ZoomPosition", ZoomPositionPoll)]

  /** The command a table associates with `name` (its first entry for that name). */
  function Lookup(table: seq<(string, PollCommand)>, name: string): Option<PollCommand> {
    if table == [] then None
    else if table[0].0 == name then Some(table[0].1)
    else Lookup(table[1..], name)
  }

  /** The table viewed as a dictionary from name to command. */
  function TableMap(table: seq<(string, PollCommand)>): map<string, PollCommand> {
    if table == [] then map[] else TableMap(table[1..])[table[0].0 := table[0].1]
  }

  /** The table's values, in table order. */
  function TableValues(table: seq<(string, PollCommand)>): seq<PollCommand> {
    seq(|table|, i requires 0 <= i < |table| => table[i].1)
  }

  /** Looking a name up in the table is looking it up in the dictionary the table describes. */
  lemma {:induction false} LookupIsTableMap(table: seq<(string, PollCommand)>, name: string)
    ensures Lookup(table, name).Some? <==> name in TableMap(table)
    ensures Lookup(table, name).Some? ==> Lookup(table, name).value == TableMap(table)[name]
  {
    if table != [] {
      LookupIsTableMap(table[1..], name);
    }
  }

  /** The monitor intervals used when there are no monitor settings (ms). */
  const DefaultPollInterval := 10000
  const DefaultTimeToWarning := 20000
  const DefaultTimeToError := 30000

  /** The arguments the communication monitor is built with. */
  datatype MonitorSetup = MonitorSetup(pollInterval: int, timeToWarning: int, timeToError: int)

  /** The poll commands one token of the poll string selects: its table entry, if the trimmed token names one. */
  function PollsForToken(table: seq<(string, PollCommand)>, token: string): seq<PollCommand> {
    match Lookup(table, Text.Trim(token))
    case Some(c) => [c]
    case None => []
  }

  /** The poll commands a sequence of tokens selects, token by token. */
  function PollsFor(table: seq<(string, PollCommand)>, tokens: seq<string>): seq<PollCommand> {
    if tokens == [] then [] else PollsForToken(table, tokens[0]) + PollsFor(table, tokens[1..])
  }

  /** The poll list for the given monitor settings. */
  function ConfiguredPolls(table: seq<(string, PollCommand)>, monitor: Option<MonitorProperties>): seq<PollCommand> {
    match monitor
    case None => TableValues(table)
    case Some(props) =>
      match props.pollString
      case None => []
      case Some(pollString) => if pollString == [] then [] else PollsFor(table, Text.Split(pollString, ','))
  }

  /** Selection distributes over concatenation: order and repetitions of the tokens carry over to the poll list. */
  lemma {:induction false} PollsForAppend(table: seq<(string, PollCommand)>, a: seq<string>, b: seq<string>)
    ensures PollsFor(table, a + b) == PollsFor(table, a) + PollsFor(table, b)
  {
    if a == [] {
      assert a + b == b;
    } else {
      assert (a + b)[0] == a[0] && (a + b)[1..] == a[1..] + b;
      PollsForAppend(table, a[1..], b);
    }
  }

  /** Selecting one more token extends the selection by that token's commands. */
  lemma PollsForPrefix(table: seq<(string, PollCommand)>, tokens: seq<string>, i: nat)
    requires i < |tokens|
    ensures PollsFor(table, tokens[..i + 1]) == PollsFor(table, tokens[..i]) + PollsForToken(table, tokens[i])
  {
    var t, before := tokens[i], tokens[..i];
    assert tokens[..i + 1] == before + [t];
    PollsForAppend(table, before, [t]);
    PollsForSingle(table, t);
  }

  lemma PollsForSingle(table: seq<(string, PollCommand)>, token: string)
    ensures PollsFor(table, [token]) == PollsForToken(table, token)
  {
    assert [token][1..] == [];
    assert PollsFor(table, [token]) == PollsForToken(table, token) + PollsFor(table, []);
  }

  /** A command is in the poll list exactly when some token, trimmed, names it in the table. */
  lemma {:induction false} PollsForMembers(table: seq<(string, PollCommand)>, tokens: seq<string>, c: PollCommand)
    ensures c in PollsFor(table, tokens) <==>
      exists i :: 0 <= i < |tokens| && Lookup(table, Text.Trim(tokens[i])) == Some(c)
  {
    if tokens != [] {
      PollsForMembers(table, tokens[1..], c);
      if c in PollsFor(table, tokens[1..]) {
        var i :| 0 <= i < |tokens[1..]| && Lookup(table, Text.Trim(tokens[1..][i])) == Some(c);
        assert tokens[1..][i] == tokens[i + 1];
      }
      if exists i :: 0 <= i < |tokens| && Lookup(table, Text.Trim(tokens[i])) == Some(c) {
        var i :| 0 <= i < |tokens| && Lookup(table, Text.Trim(tokens[i])) == Some(c);
        if i > 0 {
          assert tokens[1..][i - 1] == tokens[i];
        }
      }
    }
  }

  /** When every token names a table entry, the poll list has one command per token, in token order. */
  lemma {:induction false} PollsForAllKnown(table: seq<(string, PollCommand)>, tokens: seq<string>)
    requires forall i :: 0 <= i < |tokens| ==> Lookup(table, Text.Trim(tokens[i])).Some?
    ensures |PollsFor(table, tokens)| == |tokens|
    ensures forall i :: 0 <= i < |tokens| ==> PollsFor(table, tokens)[i] == Lookup(table, Text.Trim(tokens[i])).value
  {
    if tokens != [] {
      PollsForAllKnown(table, tokens[1..]);
    }
  }

  /** With monitor settings but a null or empty poll string nothing is polled; without monitor settings everything is. */
  lemma ConfiguredPollsDefaults(table: seq<(string, PollCommand)>, monitor: Option<MonitorProperties>)
    ensures monitor.None? ==> ConfiguredPolls(table, monitor) == TableValues(table)
    ensures monitor.Some? && (monitor.value.pollString.None? || monitor.value.pollString == Some([]))
            ==> ConfiguredPolls(table, monitor) == []
  {
  }

  /** Without monitor settings the adapter polls all 18 commands of the table, each once, in table order. */
  lemma DefaultPollsAreTheWholeTable()
    ensures ConfiguredPolls(PollTable, None) == [
      AEPoll, AperturePoll, BackLightPoll, BGainPoll, ExpCompPoll, FocusAutoPoll,
      FocusPositionPoll, GainPoll, IrisPoll, MutePoll, PanTiltPositionPoll, PowerPoll,
      RGainPoll, ShutterPoll, TitlePoll, WBModePoll, WideDynamicModePoll, ZoomPositionPoll]
  {
  }

  /**
   A poll string written as names separated by commas selects, in order and
   with repetitions, the table entries of those names once trimmed, skipping
   the names the table does not know.
   */
  lemma PollStringSelects(table: seq<(string, PollCommand)>, props: MonitorProperties, names: seq<string>)
    requires |names| >= 1 && forall k :: 0 <= k < |names| ==> ',' !in names[k]
    requires props.pollString == Some(Text.Join(names, ',')) && Text.Join(names, ',') != []
    ensures ConfiguredPolls(table, Some(props)) == PollsFor(table, names)
  {
    Text.SplitJoin(names, ',');
  }

  /**
   The constructor's poll-list build: monitor settings with a non-empty poll
   string select table entries token by token; monitor settings otherwise
   select nothing; no monitor settings select the whole table and the default
   monitor intervals.
   */
  method BuildPollList(table: seq<(string, PollCommand)>, monitor: Option<MonitorProperties>)
    returns (poll: seq<PollCommand>, setup: MonitorSetup)
    ensures poll == ConfiguredPolls(table, monitor)
    ensures monitor.None? ==> setup == MonitorSetup(DefaultPollInterval, DefaultTimeToWarning, DefaultTimeToError)
    ensures monitor.Some? ==>
      setup == MonitorSetup(monitor.value.pollInterval, monitor.value.timeToWarning, monitor.value.timeToError)
  {
    poll := [];
    match monitor
    case Some(props) =>
      if props.pollString.Some? && props.pollString.value != [] {
        var tokens := Text.Split(props.pollString.value, ',');
        var i := 0;
        while i < |tokens|
          invariant 0 <= i <= |tokens|
          invariant poll == PollsFor(table, tokens[..i])
        {
          var command := Lookup(table, Text.Trim(tokens[i]));
          PollsForPrefix(table, tokens, i);
          if command.Some? {
            poll := poll + [command.value];
          }
          i := i + 1;
        }
        assert tokens[..i] == tokens;
      }
      setup := MonitorSetup(props.pollInterval, props.timeToWarning, props.timeToError);
    case None =>
      poll := TableValues(table);
      setup := MonitorSetup(DefaultPollInterval, DefaultTimeToWarning, DefaultTimeToError);
  }
}
