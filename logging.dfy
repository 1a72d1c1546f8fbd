/**
  The logger: a severity filter over four ordered levels, a table of at
  most MAX_SINKS registered sinks of which one may be selected, and the
  reduction of a source path to its file name. A message passes the filter
  when its level is at least the current one, and then reaches the
  selected sink, if there is one.
 */
module Logging {
  import opened Wrappers
  import opened ArduinoString

  datatype LogLevel = LogLevelInfo | LogLevelWarning | LogLevelError | LogLevelFatal

  /** The enumerator's value: INFO is 0, FATAL is 3. */
  function Ordinal(level: LogLevel): (n: nat)
    ensures n < 4
  {
    match level
    case LogLevelInfo => 0
    case LogLevelWarning => 1
    case LogLevelError => 2
    case LogLevelFatal => 3
  }

  /** A message of level `level` passes a logger set to `threshold`. */
  predicate SeverityPasses(level: LogLevel, threshold: LogLevel) {
    Ordinal(level) >= Ordinal(threshold)
  }

  const MESSAGE_BUFFER_SIZE: nat := 80
  const MAX_SINKS: nat := 2

  /** A single log message as handed to a sink. */
  datatype Msg = Msg(timestamp: uint32, level: LogLevel, filename: string, line: int, str: string)

  /** A log sink; it is identified by its reference, and found by its name. */
  class LogSink {
    const name: string

    constructor (name: string)
      ensures this.name == name
    {
      this.name := name;
    }
  }

  /** A message on its way to a sink. */
  datatype Delivery = Delivery(sink: LogSink, msg: Msg)

  /** The position of the last occurrence of `c` in `s`, if any. */
  function LastIndexOf(s: string, c: char): (r: Option<nat>)
    ensures r.Some? ==> r.value < |s| && s[r.value] == c && c !in s[r.value + 1..]
    ensures r.None? ==> c !in s
  {
    if s == [] then None
    else if s[|s| - 1] == c then Some(|s| - 1)
    else
      var r := LastIndexOf(s[..|s| - 1], c);
      assert r.Some? ==> s[r.value + 1..] == s[..|s| - 1][r.value + 1..] + [s[|s| - 1]];
      assert r.None? ==> s == s[..|s| - 1] + [s[|s| - 1]];
      r
  }

  /** The part of `path` after its last backslash; failing that, after its
      last slash; failing that, the whole path. */
  function BaseNameFromPath(path: string): (base: string)
    ensures |base| <= |path| && base == path[|path| - |base|..]
    ensures '\\' in path ==>
      '\\' !in base && path[|path| - |base| - 1] == '\\'
    ensures '\\' !in path && '/' in path ==>
      '/' !in base && path[|path| - |base| - 1] == '/'
    ensures '\\' !in path && '/' !in path ==> base == path
  {
    match LastIndexOf(path, '\\')
    case Some(i) => path[i + 1..]
    case None =>
      match LastIndexOf(path, '/')
      case Some(i) => path[i + 1..]
      case None => path
  }

  /** The message text as it fits into the message buffer, terminator included. */
  function Truncate(text: string): (str: string)
    ensures |str| < MESSAGE_BUFFER_SIZE && |str| <= |text|
    ensures str == text[..|str|]
    ensures |text| < MESSAGE_BUFFER_SIZE ==> str == text
    ensures |text| >= MESSAGE_BUFFER_SIZE ==> |str| == MESSAGE_BUFFER_SIZE - 1
  {
    if |text| < MESSAGE_BUFFER_SIZE then text else text[..MESSAGE_BUFFER_SIZE - 1]
  }

  /** The index of the first registered sink called `name`, or |s| if there is none. */
  function FirstNamed(s: seq<LogSink?>, name: string): (i: nat)
    ensures i <= |s|
    ensures i < |s| ==> s[i] != null && s[i].name == name
    ensures forall j :: 0 <= j < i ==> s[j] == null || s[j].name != name
  {
    if s == [] then 0
    else if s[0] != null && s[0].name == name then 0
    else FirstNamed(s[1..], name) + 1
  }

  /** The table with every entry holding `sink` emptied. */
  function Removed(s: seq<LogSink?>, sink: LogSink): (r: seq<LogSink?>)
    ensures |r| == |s| && sink !in r
    ensures forall i :: 0 <= i < |s| ==> r[i] == if s[i] == sink then null else s[i]
  {
    seq(|s|, i requires 0 <= i < |s| => if s[i] == sink then null else s[i])
  }

  class Logging {
    var currentLogLevel: LogLevel
    const sinks: array<LogSink?>
    var selectedSink: LogSink?

    /** The table has MAX_SINKS entries and only a registered sink is selected. */
    ghost predicate Valid()
      reads this, sinks
    {
      && sinks.Length == MAX_SINKS
      && (selectedSink != null ==> selectedSink in sinks[..])
    }

    /** Starts at level ERROR with an empty table and no selected sink. */
    constructor ()
      ensures Valid() && fresh(sinks)
      ensures currentLogLevel == LogLevelError && selectedSink == null
      ensures sinks[..] == [null, null]
    {
      currentLogLevel := LogLevelError;
      sinks := new LogSink?[MAX_SINKS];
      selectedSink := null;
      new;
      var index := 0;
      while index < MAX_SINKS
        invariant 0 <= index <= MAX_SINKS
        invariant forall i :: 0 <= i < index ==> sinks[i] == null
        modifies sinks
      {
        sinks[index] := null;
        index := index + 1;
      }
    }

    /** Puts `sink` into the first free entry; fails for a null sink or a full table. */
    method RegisterSink(sink: LogSink?) returns (ok: bool)
      requires Valid()
      modifies sinks
      ensures Valid()
      ensures ok <==> sink != null && null in old(sinks[..])
      ensures sinks[..] ==
        if ok then old(sinks[..])[IndexOf(old(sinks[..]), null).value := sink] else old(sinks[..])
    {
      ok := false;
      if sink == null {
        return;
      }

      var index := 0;
      while index < MAX_SINKS && sinks[index] != null
        invariant 0 <= index <= MAX_SINKS
        invariant null !in sinks[..index]

        invariant sinks[..] == old(sinks[..])
      {
        assert sinks[..index + 1] == sinks[..index] + [sinks[index]];
        index := index + 1;
      }
      assert sinks[..] == sinks[..MAX_SINKS];

      if index < MAX_SINKS {
        IndexOfFirst(sinks[..], null, index);
        ghost var before := sinks[..];
        sinks[index] := sink;
        ok := true;
        assert sinks[..] == before[index := sink];
        assert selectedSink != null ==> selectedSink in sinks[..] by {
          if selectedSink != null {
            var j :| 0 <= j < |before| && before[j] == selectedSink;
            assert sinks[..][j] == selectedSink;
          }
        }
      }
    }

    /** Empties every entry holding `sink` and deselects it if it was selected. */
    method UnregisterSink(sink: LogSink?)
      requires Valid()
      modifies this, sinks
      ensures Valid() && currentLogLevel == old(currentLogLevel)
      ensures sink == null ==> sinks[..] == old(sinks[..]) && selectedSink == old(selectedSink)
      ensures sink != null ==> sinks[..] == Removed(old(sinks[..]), sink)
      ensures selectedSink == if sink != null && old(selectedSink) == sink then null else old(selectedSink)
    {
      if sink == null {
        return;
      }

      var index := 0;
      while index < MAX_SINKS
        invariant 0 <= index <= MAX_SINKS
        invariant forall i :: 0 <= i < index ==> sinks[i] == Removed(old(sinks[..]), sink)[i]
        invariant forall i :: index <= i < MAX_SINKS ==> sinks[i] == old(sinks[i])
        modifies sinks
      {
        if sinks[index] == sink {
          sinks[index] := null;
        }
        index := index + 1;
      }

      if selectedSink == sink {
        selectedSink := null;
      }
      assert sinks[..] == Removed(old(sinks[..]), sink);
      assert selectedSink != null ==> selectedSink in sinks[..] by {
        if selectedSink != null {
          var j :| 0 <= j < MAX_SINKS && old(sinks[..])[j] == selectedSink;
          assert sinks[..][j] == selectedSink;
        }
      }
    }

    /** Selects the first registered sink called `name`; without one nothing changes. */
    method SelectSink(name: string) returns (ok: bool)
      requires Valid()
      modifies this
      ensures Valid() && currentLogLevel == old(currentLogLevel)
      ensures ok <==> exists i :: 0 <= i < MAX_SINKS && sinks[i] != null && sinks[i].name == name
      ensures ok ==> selectedSink == sinks[FirstNamed(sinks[..], name)] && selectedSink.name == name
      ensures !ok ==> selectedSink == old(selectedSink)
    {
      ok := false;
      var index := 0;
      while index < MAX_SINKS && !ok
        invariant 0 <= index <= MAX_SINKS
        invariant currentLogLevel == old(currentLogLevel)
        invariant !ok ==> forall i :: 0 <= i < index ==> sinks[i] == null || sinks[i].name != name
        invariant !ok ==> selectedSink == old(selectedSink)
        invariant ok ==> 0 < index && selectedSink == sinks[index - 1] && selectedSink != null && selectedSink.name == name
        invariant ok ==> forall i :: 0 <= i < index - 1 ==> sinks[i] == null || sinks[i].name != name
      {
        if sinks[index] != null && sinks[index].name == name {
          selectedSink := sinks[index];
          ok := true;
        }
        index := index + 1;
      }
      assert ok ==> FirstNamed(sinks[..], name) == index - 1;
    }

    /** The selected sink, which is always a registered one. */
    function GetSelectedSink(): (sink: LogSink?)
      requires Valid()
      reads this, sinks
      ensures sink != null ==> exists i :: 0 <= i < MAX_SINKS && sinks[i] == sink
    {
      selectedSink
    }

    method SetLogLevel(logLevel: LogLevel)
      requires Valid()
      modifies this
      ensures Valid()
      ensures GetLogLevel() == logLevel && selectedSink == old(selectedSink)
    {
      currentLogLevel := logLevel;
    }

    /** The current level: the least level that passes the filter. */
    function GetLogLevel(): (level: LogLevel)
      reads this
      ensures IsSeverityValid(level)
      ensures forall l :: IsSeverityValid(l) <==> Ordinal(level) <= Ordinal(l)
    {
      currentLogLevel
    }

    /** A message passes when its level is at least the current level. */
    function IsSeverityValid(logLevel: LogLevel): (valid: bool)
      reads this
      ensures valid <==> Ordinal(logLevel) >= Ordinal(currentLogLevel)
    {
      SeverityPasses(logLevel, currentLogLevel)
    }

    /**
      Builds the message for an already formatted `text` logged at `line` in
      `file` at tick `now` and hands it to the selected sink when its level
      passes; otherwise it is discarded.
     */
    method ProcessLogMessage(now: uint32, file: string, line: int, level: LogLevel, text: string)
      returns (delivery: Option<Delivery>)
      requires Valid()
      ensures delivery.Some? <==> IsSeverityValid(level) && selectedSink != null
      ensures delivery.Some? ==> delivery.value.sink == selectedSink
      ensures delivery.Some? ==>
        delivery.value.msg == Msg(now, level, BaseNameFromPath(file), line, Truncate(text))
      ensures delivery.Some? ==> |delivery.value.msg.str| < MESSAGE_BUFFER_SIZE
    {
      delivery := None;
      if IsSeverityValid(level) && selectedSink != null {
        var msg := Msg(now, level, BaseNameFromPath(file), line, Truncate(text));
        delivery := Some(Delivery(selectedSink, msg));
      }
    }
  }

  /** The levels are ordered INFO < WARNING < ERROR < FATAL. */
  lemma LevelsAreOrdered()
    ensures Ordinal(LogLevelInfo) < Ordinal(LogLevelWarning) < Ordinal(LogLevelError) < Ordinal(LogLevelFatal)
  {
  }

  /** The filter is monotone: what passes at one level passes at every level
      above it, and lowering the threshold lets through what passed before. */
  lemma SeverityMonotone(level: LogLevel, higher: LogLevel, threshold: LogLevel, lower: LogLevel)
    requires SeverityPasses(level, threshold)
    requires Ordinal(level) <= Ordinal(higher) && Ordinal(lower) <= Ordinal(threshold)
    ensures SeverityPasses(higher, threshold) && SeverityPasses(level, lower)
  {
  }

  /** The level ordering is total: of any two levels, one passes the other's threshold. */
  lemma SeverityTotal(a: LogLevel, b: LogLevel)
    ensures SeverityPasses(a, b) || SeverityPasses(b, a)
    ensures SeverityPasses(a, b) && SeverityPasses(b, a) ==> a == b
  {
  }

  /**
    The logging test: a sink "test" is registered and selected, the level
    starts at ERROR, an INFO message is discarded at level ERROR, ERROR
    messages reach the sink, and after unregistering it nothing reaches it.
   */
  method TestLogging(file: string, now: uint32, lineNo: int)
    returns (registered: bool, selected: bool, initialLevel: LogLevel, levelAfterSet: LogLevel,
             discarded: Option<Delivery>, shown: Option<Delivery>, shownString: Option<Delivery>,
             afterUnregister: Option<Delivery>)
    ensures registered && selected && initialLevel == LogLevelError && levelAfterSet == LogLevelInfo
    ensures discarded == None && afterUnregister == None
    ensures shown.Some? && shown.value.sink.name == "test"
    ensures shown.value.msg == Msg(now, LogLevelError, BaseNameFromPath(file), lineNo, "TestMessage")
    ensures shownString.Some? && shownString.value.sink == shown.value.sink
    ensures shownString.value.msg == Msg(now, LogLevelError, BaseNameFromPath(file), lineNo, "TestMessageAsString")
  {
    var logging := new Logging();
    var myLogSink := new LogSink("test");

    registered := logging.RegisterSink(myLogSink);
    assert logging.sinks[..] == [myLogSink, null];
    assert logging.sinks[0] == myLogSink;
    selected := logging.SelectSink("test");
    assert logging.selectedSink == myLogSink;
    initialLevel := logging.GetLogLevel();

    logging.SetLogLevel(LogLevelInfo);
    levelAfterSet := logging.GetLogLevel();

    logging.SetLogLevel(LogLevelError);
    discarded := logging.ProcessLogMessage(now, file, lineNo, LogLevelInfo, "TestMessage");
    shown := logging.ProcessLogMessage(now, file, lineNo, LogLevelError, "TestMessage");
    shownString := logging.ProcessLogMessage(now, file, lineNo, LogLevelError, "TestMessageAsString");

    assert Truncate("TestMessage") == "TestMessage";
    assert Truncate("TestMessageAsString") == "TestMessageAsString";

    logging.UnregisterSink(myLogSink);
    assert logging.selectedSink == null;
    afterUnregister := logging.ProcessLogMessage(now, file, lineNo, LogLevelError, "Should not be shown.");
  }
}
