/** The three log channels (actions, quest, system). Each keeps the newest
    2000 formatted lines in memory and a running line counter; it appends
    every new line to two destination files and, on the write that brings
    the counter to 2500, rewrites both files from the in-memory lines. */
module Logging {
  import opened Numeric

  /** The in-memory buffer never holds more lines than this. */
  const MaxLines: nat := 2000

  /** The counter value at which the files are rewritten from the buffer. */
  const CompactAt: nat := 2500

  datatype OpenMode = Append | Truncate

  /** The contents of the two destination files of one channel. */
  datatype Destinations = Destinations(primary: string, secondary: string)

  /** Writing `content` and std::endl to one destination that did or did not
      open. */
  function WriteFile(file: string, content: string, mode: OpenMode, isOpen: bool): string
  {
    if !isOpen then file
    else if mode == Append then file + content + "\n"
    else content + "\n"
  }

  /** WriteToDualPath: each destination either receives the content and a
      line break (appended, or replacing what was there) or, when it cannot
      be opened, stays as it was; neither outcome depends on the other. */
  function WriteToDualPath(d: Destinations, content: string, mode: OpenMode,
                           primaryOk: bool, secondaryOk: bool): (r: Destinations)
    ensures !primaryOk ==> r.primary == d.primary
    ensures !secondaryOk ==> r.secondary == d.secondary
    ensures primaryOk && mode == Append ==> r.primary == d.primary + content + "\n"
    ensures secondaryOk && mode == Append ==> r.secondary == d.secondary + content + "\n"
    ensures primaryOk && mode == Truncate ==> r.primary == content + "\n"
    ensures secondaryOk && mode == Truncate ==> r.secondary == content + "\n"
  {
    Destinations(WriteFile(d.primary, content, mode, primaryOk),
                 WriteFile(d.secondary, content, mode, secondaryOk))
  }

  datatype Channel = Actions | Quest | System

  /** The tag that follows the timestamp in each line of a channel. */
  function Tag(c: Channel): string
  {
    match c
    case Actions => "log"
    case Quest => "quest"
    case System => "system"
  }

  /** The file name a channel writes to in both destination directories. */
  function FileName(c: Channel): string
  {
    match c
    case Actions => "BWY-multi-Fix-NG-Actions.log"
    case Quest => "BWY-multi-Fix-NG-Quest.log"
    case System => "BWY-multi-Fix-NG-System.log"
  }

  /** One formatted log line; the timestamp text (date, time and
      milliseconds) comes from the wall clock and is an input here. */
  function FormatLine(timestamp: string, c: Channel, lineNumber: int, message: string): string
  {
    "[" + timestamp + "]" + LineTags(c, lineNumber) + message
  }

  /** What a log line holds between the timestamp and the message: the
      channel tag, the level and the source line. */
  function LineTags(c: Channel, lineNumber: int): string
  {
    " [" + Tag(c) + "] [info] [plugin.cpp:" + IntToDecimal(lineNumber) + "] "
  }

  /** A log line starts with the bracketed timestamp and ends with the
      message, whatever stands between. */
  lemma FormatLineFrames(timestamp: string, c: Channel, lineNumber: int, message: string)
    ensures var line := FormatLine(timestamp, c, lineNumber, message);
      |line| >= |timestamp| + 2 + |message| &&
      line[..|timestamp| + 2] == "[" + timestamp + "]" && line[|line| - |message|..] == message
  {
    var head := "[" + timestamp + "]";
    var tags := LineTags(c, lineNumber);
    assert (head + tags + message)[..|head|] == head;
    assert (head + tags + message)[|head + tags|..] == message;
  }

  /** push_back followed by pop_front when the deque grew past MaxLines. */
  function PushBounded(buffer: seq<string>, line: string): (r: seq<string>)
    requires |buffer| <= MaxLines
    ensures |r| == if |buffer| < MaxLines then |buffer| + 1 else MaxLines
    ensures r == (buffer + [line])[|buffer| + 1 - |r|..]
  {
    var grown := buffer + [line];
    if |grown| > MaxLines then grown[1..] else grown
  }

  /** The in-memory buffer after the given lines were written, oldest first,
      to a channel that started empty. */
  function Replay(history: seq<string>): (r: seq<string>)
    ensures |r| <= MaxLines
  {
    if history == [] then []
    else PushBounded(Replay(history[..|history| - 1]), history[|history| - 1])
  }

  /** Pushing onto a suffix of the lines gives a suffix of the lines with
      the new one appended. */
  lemma PushSuffix(lines: seq<string>, start: nat, line: string)
    requires start <= |lines| && |lines| - start <= MaxLines
    ensures var r := PushBounded(lines[start..], line);
      r == (lines + [line])[|lines| + 1 - |r|..]
  {
    var r := PushBounded(lines[start..], line);
    assert lines[start..] + [line] == (lines + [line])[start..];
    assert (lines + [line])[start..][|lines| - start + 1 - |r|..] == (lines + [line])[|lines| + 1 - |r|..];
  }

  /** The buffer holds exactly the newest min(n, 2000) of the n lines ever
      written, in the order they were written; the newest is last. */
  lemma {:induction false} ReplayKeepsNewest(history: seq<string>)
    ensures |Replay(history)| == if |history| < MaxLines then |history| else MaxLines
    ensures Replay(history) == history[|history| - |Replay(history)|..]
  {
    if history != [] {
      var prefix := history[..|history| - 1];
      ReplayKeepsNewest(prefix);
      NewestStep(history, Replay(prefix));
    }
  }

  /** If the buffer holds the newest lines written before the last one, it
      holds the newest lines of the whole history after one more push. */
  lemma NewestStep(history: seq<string>, buffer: seq<string>)
    requires history != []
    requires var prefix := history[..|history| - 1];
      |buffer| <= MaxLines && |buffer| <= |prefix| && buffer == prefix[|prefix| - |buffer|..]
    ensures var r := PushBounded(buffer, history[|history| - 1]);
      r == history[|history| - |r|..]
  {
    var prefix := history[..|history| - 1];
    assert prefix + [history[|history| - 1]] == history;
    PushSuffix(prefix, |prefix| - |buffer|, history[|history| - 1]);
  }

  /** The value of the static counter after n writes: each write adds one,
      except the write that reaches CompactAt, which resets the counter to
      the size of the buffer. */
  function CountAfter(n: nat): nat
  {
    if n == 0 then 0
    else if CountAfter(n - 1) + 1 >= CompactAt then (if n < MaxLines then n else MaxLines)
    else CountAfter(n - 1) + 1
  }

  /** Whether the write made when the counter holds `count` rewrites the files. */
  predicate Compacts(count: nat)
  {
    count + 1 >= CompactAt
  }

  /** Closed form of the counter: it counts up to 2499, and from the 2500th
      write on it cycles through 2000..2499. */
  lemma {:induction false} CountClosedForm(n: nat)
    ensures CountAfter(n) == if n < CompactAt then n else MaxLines + (n - CompactAt) % 500
  {
    if n > 0 {
      CountClosedForm(n - 1);
      if n - 1 >= CompactAt && (n - 1 - CompactAt) % 500 < 499 {
        assert (n - CompactAt) % 500 == (n - 1 - CompactAt) % 500 + 1;
      }
    }
  }

  /** The files are rewritten at the 2500th write and at every 500th write
      after it, and at no other write. */
  lemma CompactionSchedule(n: nat)
    requires n >= 1
    ensures Compacts(CountAfter(n - 1)) <==> n >= CompactAt && (n - CompactAt) % 500 == 0
  {
    CountClosedForm(n - 1);
  }

  /** Every line of the buffer followed by "\n": the text the compaction
      loop builds. */
  function Serialize(lines: seq<string>): string
  {
    if lines == [] then "" else Serialize(lines[..|lines| - 1]) + lines[|lines| - 1] + "\n"
  }

  /** One more write keeps the buffer and the counter in step with the
      write history. */
  lemma NextWrite(history: seq<string>, line: string)
    ensures Replay(history + [line]) == PushBounded(Replay(history), line)
    ensures CountAfter(|history| + 1) ==
      if Compacts(CountAfter(|history|)) then |Replay(history + [line])| else CountAfter(|history|) + 1
    ensures CountAfter(|history| + 1) < CompactAt
    ensures |Replay(history + [line])| <= CountAfter(|history| + 1)
  {
    var h := history + [line];
    assert h[..|h| - 1] == history;
    ReplayKeepsNewest(h);
    CountClosedForm(|history|);
    CountClosedForm(|h|);
  }

  /** The compaction loop: concatenates every line followed by "\n". */
  method SerializeLoop(lines: seq<string>) returns (bulk: string)
    ensures bulk == Serialize(lines)
  {
    bulk := "";
    var i := 0;
    while i < |lines|
      invariant 0 <= i <= |lines|
      invariant bulk == Serialize(lines[..i])
    {
      assert lines[..i + 1][..i] == lines[..i];
      bulk := bulk + lines[i] + "\n";
      i := i + 1;
    }
    assert lines[..i] == lines;
  }

  /** One channel: its deque, its static line counter and its two files.
      `history` is every line ever written to the channel. */
  class LogChannel {
    const channel: Channel
    var lines: seq<string>
    var lineCount: nat
    var files: Destinations
    ghost var history: seq<string>

    /** The buffer and the counter are exactly what the writes so far
        produce, so the buffer is bounded and the counter stays below
        CompactAt. */
    ghost predicate Valid()
      reads this
    {
      lines == Replay(history) && lineCount == CountAfter(|history|) &&
      |lines| <= MaxLines && |lines| <= lineCount < CompactAt
    }

    constructor(c: Channel, existing: Destinations)
      ensures Valid()
      ensures channel == c && lines == [] && lineCount == 0 && files == existing && history == []
    {
      channel := c;
      lines := [];
      lineCount := 0;
      files := existing;
      history := [];
    }

    /** WriteToActionsLog / WriteToQuestLog / WriteToSystemLog. The line is
        pushed onto the buffer; on compaction both writable files become the
        whole buffer and the counter the buffer's size, otherwise the line is
        appended to each writable file. An unwritable file is left as it was. */
    method Write(message: string, lineNumber: int, timestamp: string, primaryOk: bool, secondaryOk: bool)
      requires Valid()
      modifies this`lines, this`lineCount, this`files, this`history
      ensures Valid()
      ensures history == old(history) + [FormatLine(timestamp, channel, lineNumber, message)]
      ensures lines == PushBounded(old(lines), FormatLine(timestamp, channel, lineNumber, message))
      ensures Compacts(old(lineCount)) ==>
        lineCount == |lines| &&
        files == WriteToDualPath(old(files), Serialize(lines), Truncate, primaryOk, secondaryOk)
      ensures !Compacts(old(lineCount)) ==>
        lineCount == old(lineCount) + 1 &&
        files == WriteToDualPath(old(files), FormatLine(timestamp, channel, lineNumber, message), Append, primaryOk, secondaryOk)
    {
      var newLine := FormatLine(timestamp, channel, lineNumber, message);
      NextWrite(history, newLine);
      var compacts := lineCount + 1 >= CompactAt;
      history := history + [newLine];
      lines := PushBounded(lines, newLine);
      if compacts {
        var bulk := SerializeLoop(lines);
        files := WriteToDualPath(files, bulk, Truncate, primaryOk, secondaryOk);
        lineCount := |lines|;
      } else {
        files := WriteToDualPath(files, newLine, Append, primaryOk, secondaryOk);
        lineCount := lineCount + 1;
      }
    }
  }
}
