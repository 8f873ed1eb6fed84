/**
  AudioLogger: a bounded, in-order history of log entries.  Each entry is
  appended, and when the list then holds more than the maximum the oldest
  entry is dropped.  The clock is a parameter: each entry carries the time
  the caller read, already formatted.
*/
module Logging {
  import opened Text
  import opened Modes
  import opened Ints

  datatype LogLevel = Debug | Info | Warning | Error

  function LevelName(l: LogLevel): string {
    match l
    case Debug => "Debug"
    case Info => "Info"
    case Warning => "Warning"
    case Error => "Error"
  }

  datatype LogEntry = LogEntry(time: string, level: LogLevel, message: string, context: string)

  const DefaultContext := "AudioControl"
  const DefaultMaxLogCount := 1000

  /** How many entries a maximum lets the list keep: none when the maximum is negative. */
  function Capacity(max: int): nat {
    if max < 0 then 0 else max
  }

  /** The list after logging `e`: append, then drop index 0 if the list is over the maximum. */
  function Appended(logs: seq<LogEntry>, e: LogEntry, max: int): (r: seq<LogEntry>)
    ensures |r| == |logs| + 1 || |r| == |logs|
    ensures |r| == |logs| <==> |logs| + 1 > max
    ensures r == (logs + [e])[|logs| + 1 - |r|..]
    ensures r != [] ==> r[|r| - 1] == e
    ensures r == [] <==> logs == [] && max < 1
    ensures |logs| <= Capacity(max) ==> |r| <= Capacity(max)
  {
    var added := logs + [e];
    if |added| > max then
      assert added[1..] == added[|logs| + 1 - |added[1..]|..];
      added[1..]
    else
      assert added == added[|logs| + 1 - |added|..];
      added
  }

  /** The list after logging each of `es` in turn. */
  function LogAll(logs: seq<LogEntry>, es: seq<LogEntry>, max: int): seq<LogEntry>
    decreases |es|
  {
    if es == [] then logs else LogAll(Appended(logs, es[0], max), es[1..], max)
  }

  /**
    The list keeps exactly the newest entries, as many as the capacity
    allows, in the order they were logged.
  */
  lemma {:induction false} KeepsNewest(logs: seq<LogEntry>, es: seq<LogEntry>, max: int)
    requires |logs| <= Capacity(max)
    ensures var all := logs + es;
      LogAll(logs, es, max) == all[|all| - Min(|all|, Capacity(max))..]
    decreases |es|
  {
    var all := logs + es;
    if es == [] {
      assert all == logs;
    } else {
      var r1 := Appended(logs, es[0], max);
      KeepsNewest(r1, es[1..], max);
      var k: nat := if |logs| + 1 > max then 1 else 0;
      AppendedThenRest(logs, es, max, k);
      SuffixOfSuffix(all, k, Min(|all|, Capacity(max)));
    }
  }

  /** One step of KeepsNewest: logging the first entry leaves a suffix of everything still to be kept. */
  lemma AppendedThenRest(logs: seq<LogEntry>, es: seq<LogEntry>, max: int, k: nat)
    requires |logs| <= Capacity(max) && es != []
    requires k == if |logs| + 1 > max then 1 else 0
    ensures Appended(logs, es[0], max) + es[1..] == (logs + es)[k..]
    ensures Min(|(logs + es)[k..]|, Capacity(max)) == Min(|logs + es|, Capacity(max))
  {
    var all := logs + es;
    assert Appended(logs, es[0], max) == (logs + [es[0]])[k..];
    assert logs + [es[0]] == all[..|logs| + 1];
    assert es[1..] == all[|logs| + 1..];
  }

  lemma SuffixOfSuffix<T>(s: seq<T>, k: nat, m: nat)
    requires k <= |s| && m <= |s| - k
    ensures s[k..][|s| - k - m..] == s[|s| - m..]
  {
  }
  /** The text of the connection-change entry. */
  function ConnectionMessage(connected: bool): string {
    "VoiceMeeter connection: " + (if connected then "Connected" else "Disconnected")
  }

  /** The text of the mode-change entry. */
  function ModeChangeMessage(from: OutputMode, to: OutputMode): string {
    "Mode changed: " + ModeName(from) + " -> " + ModeName(to)
  }

  /** An entry as one line of the export: `[time] [Level] message`. */
  function EntryLine(e: LogEntry): string {
    "[" + e.time + "] [" + LevelName(e.level) + "] " + e.message
  }

  /** The five lines that open an export. */
  function Header(exportTime: string, count: nat): seq<string> {
    ["=== Audio Control Log Export ===",
     "Export Time: " + exportTime,
     "Total Entries: " + NatToString(count),
     "================================",
     ""]
  }

  /** An export, line by line: the header, then one line per stored entry, oldest first. */
  function ExportLines(exportTime: string, logs: seq<LogEntry>): (lines: seq<string>)
    ensures |lines| == 5 + |logs|
    ensures lines[2] == "Total Entries: " + NatToString(|logs|)
    ensures forall i :: 0 <= i < |logs| ==> lines[5 + i] == EntryLine(logs[i])
  {
    Header(exportTime, |logs|) + seq(|logs|, i requires 0 <= i < |logs| => EntryLine(logs[i]))
  }

  /** The count the "Total Entries" line states reads back as the number of entries exported. */
  lemma ExportStatesCount(exportTime: string, logs: seq<LogEntry>)
    ensures var line := ExportLines(exportTime, logs)[2];
      && |line| > 15 && line[..15] == "Total Entries: "
      && AllDigits(line[15..]) && DigitsValue(line[15..]) == |logs|
  {
    var line := ExportLines(exportTime, logs)[2];
    assert line[15..] == NatToString(|logs|);
    NatToStringRoundTrip(|logs|);
  }

  /** Lines joined as AppendLine joins them, each followed by a line break. */
  function Render(lines: seq<string>): string {
    if lines == [] then "" else Render(lines[..|lines| - 1]) + lines[|lines| - 1] + "\n"
  }

  lemma RenderSnoc(lines: seq<string>, line: string)
    ensures Render(lines + [line]) == Render(lines) + line + "\n"
  {
    assert (lines + [line])[..|lines|] == lines;
  }

  /** Five lines rendered one after the other, as five AppendLine calls build them. */
  lemma RenderFive(a: string, b: string, c: string, d: string, e: string)
    ensures Render([a, b, c, d, e]) == a + "\n" + b + "\n" + c + "\n" + d + "\n" + e + "\n"
  {
    assert [a, b, c, d, e][..4] == [a, b, c, d];
    assert [a, b, c, d][..3] == [a, b, c];
    assert [a, b, c][..2] == [a, b];
    assert [a, b][..1] == [a];
    assert [a][..0] == [];
    assert Render([a]) == a + "\n";
    assert Render([a, b]) == a + "\n" + b + "\n";
    assert Render([a, b, c]) == a + "\n" + b + "\n" + c + "\n";
    assert Render([a, b, c, d]) == a + "\n" + b + "\n" + c + "\n" + d + "\n";
  }

  /** The five header lines, appended one by one, render the first five lines of the export. */
  lemma HeaderRendered(exportTime: string, logs: seq<LogEntry>, text: string)
    requires var h := Header(exportTime, |logs|);
      text == h[0] + "\n" + h[1] + "\n" + h[2] + "\n" + h[3] + "\n" + h[4] + "\n"
    ensures text == Render(ExportLines(exportTime, logs)[..5])
  {
    var h := Header(exportTime, |logs|);
    RenderFive(h[0], h[1], h[2], h[3], h[4]);
    assert ExportLines(exportTime, logs)[..5] == h == [h[0], h[1], h[2], h[3], h[4]];
  }

  /** Appending entry i's line extends the rendered export by that line. */
  lemma ExportLineSnoc(exportTime: string, logs: seq<LogEntry>, i: nat)
    requires i < |logs|
    ensures Render(ExportLines(exportTime, logs)[..5 + i + 1])
         == Render(ExportLines(exportTime, logs)[..5 + i]) + EntryLine(logs[i]) + "\n"
  {
    var lines := ExportLines(exportTime, logs);
    var prefix := lines[..5 + i + 1];
    assert prefix[..|prefix| - 1] == lines[..5 + i];
    assert prefix[|prefix| - 1] == lines[5 + i] == EntryLine(logs[i]);
  }

  class AudioLogger {
    const maxLogCount: int
    /** The stored entries, oldest first. */
    var logs: seq<LogEntry>
    /** The entries handed to OnLogAdded subscribers, in order. */
    var notified: seq<LogEntry>

    predicate Valid()
      reads this
    {
      |logs| <= Capacity(maxLogCount)
    }

    constructor (maxLogCount: int := DefaultMaxLogCount)
      ensures Valid()
      ensures this.maxLogCount == maxLogCount && logs == [] && notified == []
    {
      this.maxLogCount := maxLogCount;
      logs := [];
      notified := [];
    }

    method Log(time: string, level: LogLevel, message: string, context: string := DefaultContext)
      requires Valid()
      modifies this
      ensures Valid()
      ensures logs == Appended(old(logs), LogEntry(time, level, message, context), maxLogCount)
      ensures notified == old(notified) + [LogEntry(time, level, message, context)]
    {
      var entry := LogEntry(time, level, message, context);
      logs := logs + [entry];
      if |logs| > maxLogCount {
        logs := logs[1..];
      }
      notified := notified + [entry];
    }

    method Debug(time: string, message: string, context: string := DefaultContext)
      requires Valid()
      modifies this
      ensures Valid()
      ensures logs == Appended(old(logs), LogEntry(time, LogLevel.Debug, message, context), maxLogCount)
      ensures notified == old(notified) + [LogEntry(time, LogLevel.Debug, message, context)]
    {
      Log(time, LogLevel.Debug, message, context);
    }

    method Info(time: string, message: string, context: string := DefaultContext)
      requires Valid()
      modifies this
      ensures Valid()
      ensures logs == Appended(old(logs), LogEntry(time, LogLevel.Info, message, context), maxLogCount)
      ensures notified == old(notified) + [LogEntry(time, LogLevel.Info, message, context)]
    {
      Log(time, LogLevel.Info, message, context);
    }

    method Warning(time: string, message: string, context: string := DefaultContext)
      requires Valid()
      modifies this
      ensures Valid()
      ensures logs == Appended(old(logs), LogEntry(time, LogLevel.Warning, message, context), maxLogCount)
      ensures notified == old(notified) + [LogEntry(time, LogLevel.Warning, message, context)]
    {
      Log(time, LogLevel.Warning, message, context);
    }

    method Error(time: string, message: string, context: string := DefaultContext)
      requires Valid()
      modifies this
      ensures Valid()
      ensures logs == Appended(old(logs), LogEntry(time, LogLevel.Error, message, context), maxLogCount)
      ensures notified == old(notified) + [LogEntry(time, LogLevel.Error, message, context)]
    {
      Log(time, LogLevel.Error, message, context);
    }

    method LogModeChange(time: string, from: OutputMode, to: OutputMode)
      requires Valid()
      modifies this
      ensures Valid()
      ensures logs == Appended(old(logs), LogEntry(time, LogLevel.Info, ModeChangeMessage(from, to), "ModeSwitch"), maxLogCount)
      ensures notified == old(notified) + [LogEntry(time, LogLevel.Info, ModeChangeMessage(from, to), "ModeSwitch")]
    {
      Info(time, ModeChangeMessage(from, to), "ModeSwitch");
    }

    method LogConnectionChange(time: string, connected: bool)
      requires Valid()
      modifies this
      ensures Valid()
      ensures logs == Appended(old(logs), LogEntry(time, LogLevel.Info, ConnectionMessage(connected), "Connection"), maxLogCount)
      ensures notified == old(notified) + [LogEntry(time, LogLevel.Info, ConnectionMessage(connected), "Connection")]
    {
      Info(time, ConnectionMessage(connected), "Connection");
    }

    method Clear()
      requires Valid()
      modifies this
      ensures Valid()
      ensures logs == [] && notified == old(notified)
    {
      logs := [];
    }

    /** The export text; `exportTime` is the clock reading, formatted yyyy-MM-dd HH:mm:ss. */
    method Export(exportTime: string) returns (text: string)
      ensures text == Render(ExportLines(exportTime, logs))
    {
      var entries := logs;
      var header := Header(exportTime, |entries|);
      text := header[0] + "\n";
      text := text + header[1] + "\n";
      text := text + header[2] + "\n";
      text := text + header[3] + "\n";
      text := text + header[4] + "\n";
      HeaderRendered(exportTime, entries, text);
      for i := 0 to |entries|
        invariant text == Render(ExportLines(exportTime, entries)[..5 + i])
      {
        ExportLineSnoc(exportTime, entries, i);
        text := text + EntryLine(entries[i]) + "\n";
      }
      assert ExportLines(exportTime, entries)[..5 + |entries|] == ExportLines(exportTime, entries);
    }
  }
}
