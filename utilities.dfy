/** The recording side of the pipeline: the kind lookup, the stopwatch, the
    naming and probing of a run's output files, and the data writer, which owns
    the recording session and drains the source queues into the open files. */
module Utilities {
  import opened Wrappers
  import opened Format
  import opened Parameters
  import opened Queues

  /** The index of the first entry of `kinds` equal to `t`, looking from
      index `i` on; -1 when no entry from `i` on matches. */
  function TypeIndexFrom(kinds: seq<string>, t: string, i: nat): (r: int)
    requires i <= |kinds|
    ensures r == -1 || (i <= r < |kinds| && kinds[r] == t)
    ensures r == -1 <==> forall j :: i <= j < |kinds| ==> kinds[j] != t
    ensures r >= 0 ==> forall j :: i <= j < r ==> kinds[j] != t
    decreases |kinds| - i
  {
    if i == |kinds| then -1
    else if kinds[i] == t then i
    else TypeIndexFrom(kinds, t, i + 1)
  }

  /** The slot of kind `t` among the configured kinds: the smallest index
      holding `t`, or -1 when `t` is not configured. */
  function TypeIndex(kinds: seq<string>, t: string): (r: int)
    ensures -1 <= r < |kinds|
    ensures r == -1 <==> t !in kinds
    ensures r >= 0 ==> kinds[r] == t && forall j :: 0 <= j < r ==> kinds[j] != t
  {
    TypeIndexFrom(kinds, t, 0)
  }

  // ----- Draining a queue -----

  /** The rows of a sequence of batches, batch after batch. */
  function Flatten<T>(batches: seq<seq<T>>): seq<T> {
    if batches == [] then [] else batches[0] + Flatten(batches[1..])
  }

  lemma {:induction false} FlattenAppend<T>(a: seq<seq<T>>, b: seq<seq<T>>)
    ensures Flatten(a + b) == Flatten(a) + Flatten(b)
  {
    if a == [] {
      assert a + b == b;
    } else {
      assert (a + b)[1..] == a[1..] + b;
      FlattenAppend(a[1..], b);
    }
  }

  /** Takes every batch out of a non-empty queue and returns their rows in
      FIFO order, concatenated; the queue is left empty. */
  method DequeueAll<T>(q: BoundedQueue<seq<T>>) returns (d: seq<T>)
    requires q.items != []
    modifies q
    ensures d == Flatten(old(q.items))
    ensures q.items == []
  {
    ghost var all := q.items;
    ghost var k := 1;
    d := q.Get();
    assert all[..1] == [d];
    while !q.IsEmpty()
      invariant 1 <= k <= |all|
      invariant q.items == all[k..]
      invariant d == Flatten(all[..k])
      decreases |q.items|
    {
      var batch := q.Get();
      assert all[..k + 1] == all[..k] + [batch];
      FlattenAppend(all[..k], [batch]);
      d := d + batch;
      k := k + 1;
    }
    assert all[..k] == all;
  }

  /** Takes every item out of a queue of text lines and returns them in FIFO
      order; the queue is left empty. An empty queue gives []. */
  method DequeueStr(q: BoundedQueue<string>) returns (d: seq<string>)
    modifies q
    ensures d == old(q.items)
    ensures q.items == []
  {
    d := [];
    while !q.IsEmpty()
      invariant d + q.items == old(q.items)
      decreases |q.items|
    {
      var s := q.Get();
      d := d + [s];
    }
  }

  /** The slot of the change log in an open run. */
  const LogSlot: nat := |DataFileTypes| - 1

  /** The log is the last configured kind, and the only one. */
  lemma LogKindIsLast()
    ensures TypeIndex(DataFileTypes, "log") == LogSlot
  {
    assert DataFileTypes[LogSlot] == "log";
    assert DataFileTypes[0] != "log" && DataFileTypes[1] != "log" && DataFileTypes[2] != "log";
  }

  /** The configured kinds: the card's kind first, the log last, and no kind
      twice, so every kind has its own slot. */
  lemma ConfiguredKinds()
    ensures DataFileTypes[0] == "bnc"
    ensures TypeIndex(DataFileTypes, "log") == LogSlot
    ensures Distinct(DataFileTypes)
  {
    LogKindIsLast();
  }

  /** Elapsed time since the last zeroing, against a clock reading `now`. */
  class Stopwatch {
    var startTime: int

    constructor (now: int)
      ensures startTime == now && Time(now) == 0
    {
      startTime := now;
    }

    /** The reading at clock value `now`: the time since the start. */
    function Time(now: int): int
      reads this
    {
      now - startTime
    }

    method Zero(now: int)
      modifies this
      ensures startTime == now && Time(now) == 0
    {
      startTime := now;
    }
  }

  // ----- Output file names -----

  /** The run part of a file name: directory, date prefix and run number. */
  function RunPrefix(datePrefix: string, run: nat): string {
    DataDirPath + datePrefix + NatToString(run)
  }

  /** The kind part of a file name; the log keeps the extension "log". */
  function KindSuffix(kind: string): string {
    "_" + kind + "." + (if kind == "log" then "log" else DataFileExt)
  }

  /** The file of kind `kind` in run `run`. */
  function FileName(datePrefix: string, run: nat, kind: string): string {
    RunPrefix(datePrefix, run) + KindSuffix(kind)
  }

  /** A file name is the run prefix, then `_`, the kind, and the extension,
      which is `.log` for the log and the data extension otherwise. */
  lemma FileNameParts(datePrefix: string, run: nat, kind: string)
    ensures var name := FileName(datePrefix, run, kind);
      && |name| == |RunPrefix(datePrefix, run)| + |kind| + 5
      && RunPrefix(datePrefix, run) <= name
      && name[|RunPrefix(datePrefix, run)|] == '_'
      && name[|RunPrefix(datePrefix, run)| + 1..|name| - 4] == kind
      && name[|name| - 4..] == if kind == "log" then ".log" else "." + DataFileExt
  {
    var p, name := RunPrefix(datePrefix, run), FileName(datePrefix, run, kind);
    assert name[..|p|] == p;
    assert name[|p|..] == KindSuffix(kind);
  }

  /** The files of run `run`, one per configured kind, in slot order. */
  function RunFiles(datePrefix: string, run: nat): (files: seq<string>)
    ensures |files| == |DataFileTypes|
  {
    seq(|DataFileTypes|, i requires 0 <= i < |DataFileTypes| => FileName(datePrefix, run, DataFileTypes[i]))
  }

  /** Every file of a run starts with the run prefix and names its slot's
      kind, and only the log slot's file ends in `.log`. */
  lemma RunFileNames(datePrefix: string, run: nat, i: nat)
    requires i < |DataFileTypes|
    ensures var name := RunFiles(datePrefix, run)[i];
      && RunPrefix(datePrefix, run) <= name
      && name[|RunPrefix(datePrefix, run)| + 1..|name| - 4] == DataFileTypes[i]
      && name[|name| - 4..] == if i == LogSlot then ".log" else "." + DataFileExt
  {
    FileNameParts(datePrefix, run, DataFileTypes[i]);
    assert DataFileTypes[i] == "log" <==> i == LogSlot;
  }

  /** The file whose presence marks run `run` as taken: the first kind's
      name with the data extension. */
  function ProbeName(datePrefix: string, run: nat): string {
    RunPrefix(datePrefix, run) + ("_" + DataFileTypes[0] + "." + DataFileExt)
  }

  /** The probe file is the file a run opens for its first kind. */
  lemma ProbeIsFirstFile(datePrefix: string, run: nat)
    ensures ProbeName(datePrefix, run) == RunFiles(datePrefix, run)[0]
  {
    assert DataFileTypes[0] != "log";
  }

  lemma PrefixCancel(p: string, s: string, t: string)
    requires p + s == p + t
    ensures s == t
  {
    assert s == (p + s)[|p|..];
    assert t == (p + t)[|p|..];
  }

  lemma SuffixCancel(s: string, t: string, u: string)
    requires s + u == t + u
    ensures s == t
  {
    assert s == (s + u)[..|s|];
    assert t == (t + u)[..|t|];
  }

  /** Distinct run numbers give distinct probe files. */
  lemma ProbeNameInjective(datePrefix: string, a: nat, b: nat)
    requires ProbeName(datePrefix, a) == ProbeName(datePrefix, b)
    ensures a == b
  {
    var suffix := "_" + DataFileTypes[0] + "." + DataFileExt;
    SuffixCancel(RunPrefix(datePrefix, a), RunPrefix(datePrefix, b), suffix);
    PrefixCancel(DataDirPath + datePrefix, NatToString(a), NatToString(b));
    NatToStringInjective(a, b);
  }

  /** The files of one run are pairwise distinct. */
  lemma RunFilesDistinct(datePrefix: string, run: nat)
    ensures forall i, j :: 0 <= i < j < |DataFileTypes| ==> RunFiles(datePrefix, run)[i] != RunFiles(datePrefix, run)[j]
  {
    var files := RunFiles(datePrefix, run);
    var p := RunPrefix(datePrefix, run);
    forall i, j | 0 <= i < j < |DataFileTypes|
      ensures files[i] != files[j]
    {
      var si, sj := KindSuffix(DataFileTypes[i]), KindSuffix(DataFileTypes[j]);
      assert si != sj by {
        assert |si| == |sj| == 8;
        assert si[1..4] == DataFileTypes[i] && sj[1..4] == DataFileTypes[j];
        ConfiguredKinds();
      }
      if files[i] == files[j] {
        PrefixCancel(p, si, sj);
      }
    }
  }

  /** `run` is the smallest run number whose probe file is absent. */
  ghost predicate FirstUnusedRun(disk: map<string, seq<string>>, datePrefix: string, run: nat) {
    && ProbeName(datePrefix, run) !in disk
    && forall k :: 0 <= k < run ==> ProbeName(datePrefix, k) in disk
  }

  /** Counts up from run 0 while the probe file exists. */
  method ProbeRun(disk: map<string, seq<string>>, datePrefix: string) returns (run: nat)
    ensures FirstUnusedRun(disk, datePrefix, run)
  {
    run := 0;
    ghost var seen: set<string> := {};
    while ProbeName(datePrefix, run) in disk
      invariant seen == set k | 0 <= k < run :: ProbeName(datePrefix, k)
      invariant seen <= disk.Keys
      invariant forall k :: 0 <= k < run ==> ProbeName(datePrefix, k) in disk
      decreases disk.Keys - seen
    {
      if ProbeName(datePrefix, run) in seen {
        var k :| 0 <= k < run && ProbeName(datePrefix, k) == ProbeName(datePrefix, run);
        ProbeNameInjective(datePrefix, k, run);
      }
      seen := seen + {ProbeName(datePrefix, run)};
      run := run + 1;
    }
  }

  /** What a file holds once opened in append mode: its old contents, or
      nothing when it did not exist. */
  function Existing(disk: map<string, seq<string>>, name: string): seq<string> {
    if name in disk then disk[name] else []
  }

  /** The header written at the top of a new run's log: a banner, the text of
      the parameter file, and a second banner. */
  function LogHeader(params: seq<string>): (header: seq<string>)
    ensures |header| == |params| + 2
    ensures header[0] == "##### DAQ Parameters #####\n\n"
    ensures header[1..|header| - 1] == params
    ensures header[|header| - 1] == "\n\n\n##### Parameter Changes #####\n\n"
  {
    ["##### DAQ Parameters #####\n\n"] + params + ["\n\n\n##### Parameter Changes #####\n\n"]
  }

  /** A free-text log line. */
  function TextMessage(stamp: string, txt: string): (message: string)
    ensures |message| == |stamp| + |txt| + 5
    ensures message[..|stamp| + 4] == "[" + stamp + "]: "
    ensures message[|stamp| + 4..|message| - 1] == txt
    ensures message[|message| - 1] == '\n'
  {
    "[" + stamp + "]: " + txt + "\n"
  }

  /** A parameter-change log line. */
  function ParameterMessage(stamp: string, name: string, value: string): (message: string)
    ensures message == TextMessage(stamp, "PARAMETER " + name + " SET TO " + value)
  {
    "[" + stamp + "]: " + "PARAMETER " + name + " SET TO " + value + "\n"
  }

  /** The chunks written for card rows: one tab-separated line each. */
  function RowLines(rows: seq<Row>): (lines: seq<string>)
    ensures |lines| == |rows|
  {
    seq(|rows|, i requires 0 <= i < |rows| => FormatRow(rows[i]) + "\n")
  }

  /** The chunks written for text items: one line each. */
  function TextLines(items: seq<string>): (lines: seq<string>)
    ensures |lines| == |items|
  {
    seq(|items|, i requires 0 <= i < |items| => items[i] + "\n")
  }

  /** What run_number shows while no run is open. */
  const BlankRunNumber: string := "             "

  predicate Distinct<T(==)>(s: seq<T>) {
    forall i, j :: 0 <= i < j < |s| ==> s[i] != s[j]
  }

  /** `after` is `before` once the files of a run are opened in append mode
      (created empty when absent) and `logChunks` are written to the log slot. */
  ghost predicate OpenedRun(before: map<string, seq<string>>, after: map<string, seq<string>>,
                            files: seq<string>, logChunks: seq<string>)
    requires |files| == |DataFileTypes|
  {
    && (forall n :: n in after <==> n in before || n in files)
    && (forall i :: 0 <= i < |files| ==> files[i] in after)
    && (forall i :: 0 <= i < |files| && i != LogSlot ==>
          files[i] in after && after[files[i]] == Existing(before, files[i]))
    && files[LogSlot] in after
    && after[files[LogSlot]] == Existing(before, files[LogSlot]) + logChunks
    && (forall n :: n in before && n !in files ==> n in after && after[n] == before[n])
  }

  /** Writing more chunks to the log of a just-opened run extends what the
      log received at opening. */
  lemma OpenedRunAppendLog(before: map<string, seq<string>>, after: map<string, seq<string>>,
                           files: seq<string>, chunks: seq<string>, extra: seq<string>)
    requires |files| == |DataFileTypes| && Distinct(files)
    requires OpenedRun(before, after, files, chunks)
    ensures OpenedRun(before, after[files[LogSlot] := after[files[LogSlot]] + extra], files, chunks + extra)
  {
    var log := files[LogSlot];
    var after' := after[log := after[log] + extra];
    forall i | 0 <= i < |files| && i != LogSlot
      ensures files[i] in after' && after'[files[i]] == Existing(before, files[i])
    {
      assert files[i] != log;
    }
  }

  /** `after` is `before` with `pending[k]` written, one line per item, to
      slot k + 1 for every k < count, and every other file as it was. */
  ghost predicate SlotsWritten(before: map<string, seq<string>>, after: map<string, seq<string>>,
                               files: seq<string>, pending: seq<seq<string>>, count: nat)
  {
    && count < |files| && count <= |pending|
    && after.Keys == before.Keys
    && (forall k :: 0 <= k < count ==>
          files[k + 1] in before && after[files[k + 1]] == before[files[k + 1]] + TextLines(pending[k]))
    && (forall n :: n in before && n !in files[1..count + 1] ==> after[n] == before[n])
  }

  /** Draining queue i into slot i + 1 after slots 1 to i were written
      extends the written prefix by one slot. */
  lemma SlotsWrittenStep(before: map<string, seq<string>>, mid: map<string, seq<string>>,
                         after: map<string, seq<string>>, files: seq<string>, pending: seq<seq<string>>, i: nat)
    requires Distinct(files) && i + 2 < |files| && i < |pending| && files[i + 1] in mid
    requires SlotsWritten(before, mid, files, pending, i)
    requires after.Keys == mid.Keys
    requires after[files[i + 1]] == mid[files[i + 1]] + TextLines(pending[i])
    requires forall n :: n in mid && n != files[i + 1] ==> after[n] == mid[n]
    ensures SlotsWritten(before, after, files, pending, i + 1)
  {
    WrittenSlotsStay(before, mid, after, files, pending, i);
    UnwrittenFilesStay(before, mid, after, files, pending, i);
  }

  /** The slots written before step i, and slot i + 1 itself, hold what
      their queues held. */
  lemma WrittenSlotsStay(before: map<string, seq<string>>, mid: map<string, seq<string>>,
                         after: map<string, seq<string>>, files: seq<string>, pending: seq<seq<string>>, i: nat)
    requires Distinct(files) && i + 2 < |files| && i < |pending| && files[i + 1] in mid
    requires SlotsWritten(before, mid, files, pending, i)
    requires after.Keys == mid.Keys
    requires after[files[i + 1]] == mid[files[i + 1]] + TextLines(pending[i])
    requires forall n :: n in mid && n != files[i + 1] ==> after[n] == mid[n]
    ensures forall k :: 0 <= k < i + 1 ==>
      files[k + 1] in before && after[files[k + 1]] == before[files[k + 1]] + TextLines(pending[k])
  {
    var target := files[i + 1];
    assert target !in files[1..i + 1];
    assert target in before && mid[target] == before[target];
    forall k | 0 <= k < i + 1
      ensures files[k + 1] in before && after[files[k + 1]] == before[files[k + 1]] + TextLines(pending[k])
    {
      if k < i {
        var items := pending[k];  // the term SlotsWritten quantifies on
        assert files[k + 1] in before && mid[files[k + 1]] == before[files[k + 1]] + TextLines(items);
        assert files[k + 1] != target;
      }
    }
  }

  /** Files outside slots 1 to i + 1 are as they were before the drain. */
  lemma UnwrittenFilesStay(before: map<string, seq<string>>, mid: map<string, seq<string>>,
                           after: map<string, seq<string>>, files: seq<string>, pending: seq<seq<string>>, i: nat)
    requires i + 2 < |files| && i < |pending|
    requires SlotsWritten(before, mid, files, pending, i)
    requires after.Keys == mid.Keys
    requires forall n :: n in mid && n != files[i + 1] ==> after[n] == mid[n]
    ensures forall n :: n in before && n !in files[1..i + 2] ==> after[n] == before[n]
  {
    forall n | n in before && n !in files[1..i + 2]
      ensures after[n] == before[n]
    {
      assert n !in files[1..i + 1] && n != files[i + 1];
    }
  }

  /** The recording session and the periodic drain of the source queues.
      `disk` stands for the data directory: each file's name and the chunks
      written to it, one chunk per write. */
  class DataWriter {
    var running: bool
    var recording: bool
    var dataFiles: Option<seq<string>>
    var changeLog: Option<string>
    var runNumber: string
    var changeBuffer: seq<string>
    const buffer: bool
    const cardData: BoundedQueue?<seq<Row>>
    const otherData: seq<BoundedQueue<string>>
    var filePathDate: string
    var fileRun: nat
    var disk: map<string, seq<string>>
    /** Whether the handles in dataFiles are still open; stop closes them. */
    var filesOpen: bool

    ghost predicate Valid()
      reads this
    {
      && |otherData| <= |DataFileTypes| - 2
      && Distinct(otherData)
      && (recording <==> dataFiles.Some?)
      && (recording <==> changeLog.Some?)
      && (recording ==>
            && |dataFiles.value| == |DataFileTypes|
            && Distinct(dataFiles.value)
            && (forall i :: 0 <= i < |dataFiles.value| ==> dataFiles.value[i] in disk)
            && changeLog.value == dataFiles.value[LogSlot]
            && changeBuffer == [])
      && (!recording ==> !filesOpen && runNumber == BlankRunNumber)
      && (running && recording ==> filesOpen)
    }

    constructor (card: BoundedQueue?<seq<Row>>, otherData: seq<BoundedQueue<string>>, buffer: bool,
                 disk: map<string, seq<string>>)
      requires |otherData| <= |DataFileTypes| - 2
      requires Distinct(otherData)
      ensures Valid()
      ensures running && !recording && dataFiles == None && changeLog == None && !filesOpen
      ensures runNumber == BlankRunNumber && changeBuffer == []
      ensures this.buffer == buffer && cardData == card && this.otherData == otherData && this.disk == disk
    {
      running := true;
      recording := false;
      dataFiles := None;
      changeLog := None;
      runNumber := BlankRunNumber;
      changeBuffer := [];
      this.buffer := buffer;
      cardData := card;
      this.otherData := otherData;
      filePathDate := "";
      fileRun := 0;
      this.disk := disk;
      filesOpen := false;
    }

    /** Builds a writer, refusing (None) more other-data queues than there are
        kinds between the card's and the log's. */
    static method Create(card: BoundedQueue?<seq<Row>>, otherData: seq<BoundedQueue<string>>, buffer: bool,
                         disk: map<string, seq<string>>) returns (w: Option<DataWriter>)
      requires Distinct(otherData)
      ensures w.None? <==> |otherData| > |DataFileTypes| - 2
      ensures w.Some? ==> fresh(w.value) && w.value.Valid()
      ensures w.Some? ==> w.value.running && !w.value.recording && w.value.changeBuffer == []
      ensures w.Some? ==> w.value.cardData == card && w.value.otherData == otherData && w.value.disk == disk
      ensures w.Some? ==> w.value.buffer == buffer
    {
      if |otherData| > |DataFileTypes| - 2 {
        return None;
      }
      var writer := new DataWriter(card, otherData, buffer, disk);
      w := Some(writer);
    }

    /** Drains the card queue; when recording, its rows go to slot 0, one
        tab-separated line per row. */
    method DrainCard()
      requires Valid() && cardData != null && (recording ==> filesOpen)
      modifies this`disk, cardData
      ensures Valid()
      ensures cardData.items == []
      ensures !recording ==> disk == old(disk)
      ensures recording ==> disk.Keys == old(disk).Keys
      ensures recording ==>
        disk[dataFiles.value[0]] == old(disk)[dataFiles.value[0]] + RowLines(Flatten(old(cardData.items)))
      ensures recording ==> forall n :: n in old(disk) && n != dataFiles.value[0] ==> disk[n] == old(disk)[n]
    {
      if !cardData.IsEmpty() {
        var cd := DequeueAll(cardData);
        if recording {
          var out := dataFiles.value[0];
          ghost var before := disk;
          assert before[out] + RowLines(cd[..0]) == before[out];
          for j := 0 to |cd|
            invariant disk.Keys == before.Keys
            invariant disk[out] == before[out] + RowLines(cd[..j])
            invariant forall n :: n in disk && n != out ==> disk[n] == before[n]
            modifies this`disk
          {
            disk := disk[out := disk[out] + [FormatRow(cd[j]) + "\n"]];
            assert RowLines(cd[..j + 1]) == RowLines(cd[..j]) + [FormatRow(cd[j]) + "\n"];
          }
          assert cd[..|cd|] == cd;
        }
      } else {
        assert RowLines(Flatten(cardData.items)) == [];
        assert recording ==> disk[dataFiles.value[0]] + [] == disk[dataFiles.value[0]];
      }
    }

    /** Drains other-data queue i; when recording, its lines go to slot i + 1. */
    method DrainOtherQueue(i: nat)
      requires Valid() && (recording ==> filesOpen) && i < |otherData|
      modifies this`disk, otherData[i]
      ensures Valid()
      ensures otherData[i].items == []
      ensures !recording ==> disk == old(disk)
      ensures recording ==> disk.Keys == old(disk).Keys
      ensures recording ==>
        disk[dataFiles.value[i + 1]] == old(disk)[dataFiles.value[i + 1]] + TextLines(old(otherData[i].items))
      ensures recording ==> forall n :: n in old(disk) && n != dataFiles.value[i + 1] ==> disk[n] == old(disk)[n]
    {
      if !otherData[i].IsEmpty() {
        var qd := DequeueStr(otherData[i]);
        if recording {
          var out := dataFiles.value[i + 1];
          ghost var before := disk;
          assert before[out] + TextLines(qd[..0]) == before[out];
          for j := 0 to |qd|
            invariant disk.Keys == before.Keys
            invariant disk[out] == before[out] + TextLines(qd[..j])
            invariant forall n :: n in disk && n != out ==> disk[n] == before[n]
            modifies this`disk
          {
            disk := disk[out := disk[out] + [qd[j] + "\n"]];
            assert TextLines(qd[..j + 1]) == TextLines(qd[..j]) + [qd[j] + "\n"];
          }
          assert qd[..|qd|] == qd;
        }
      } else {
        assert TextLines(otherData[i].items) == [];
        assert recording ==> disk[dataFiles.value[i + 1]] + [] == disk[dataFiles.value[i + 1]];
      }
    }

    /** Drains every other-data queue in list order. */
    method DrainOtherQueues()
      requires Valid() && (recording ==> filesOpen)
      modifies this`disk, set q | q in otherData
      ensures Valid()
      ensures forall i :: 0 <= i < |otherData| ==> otherData[i].items == []
      ensures !recording ==> disk == old(disk)
      ensures recording ==> disk.Keys == old(disk).Keys
      ensures recording ==> forall i :: 0 <= i < |otherData| ==>
        disk[dataFiles.value[i + 1]] == old(disk)[dataFiles.value[i + 1]] + TextLines(old(otherData[i].items))
      ensures recording ==> forall n :: n in old(disk) && n !in dataFiles.value[1..|otherData| + 1] ==>
        disk[n] == old(disk)[n]
    {
      ghost var pending := seq(|otherData|, k requires 0 <= k < |otherData| reads otherData => otherData[k].items);
      var i := 0;
      while i < |otherData|
        invariant 0 <= i <= |otherData|
        invariant Valid()
        invariant forall k :: 0 <= k < i ==> otherData[k].items == []
        invariant forall k :: i <= k < |otherData| ==> otherData[k].items == pending[k]
        invariant !recording ==> disk == old(disk)
        invariant recording ==> SlotsWritten(old(disk), disk, dataFiles.value, pending, i)
      {
        ghost var mid := disk;
        DrainOtherQueue(i);
        if recording {
          SlotsWrittenStep(old(disk), mid, disk, dataFiles.value, pending, i);
        }
        i := i + 1;
      }
    }

    /** One drain pass of a writer with a card queue: every queue is emptied;
        when recording, card rows go to slot 0 and other queue i to slot i + 1,
        and otherwise the drained data is dropped. */
    method WriteOutData() returns (rearm: bool)
      requires Valid() && cardData != null && (recording ==> filesOpen)
      modifies this`disk, cardData, set q | q in otherData
      ensures Valid()
      ensures rearm == running
      ensures cardData.items == []
      ensures forall i :: 0 <= i < |otherData| ==> otherData[i].items == []
      ensures !recording ==> disk == old(disk)
      ensures recording ==> disk.Keys == old(disk).Keys
      ensures recording ==>
        disk[dataFiles.value[0]] == old(disk)[dataFiles.value[0]] + RowLines(Flatten(old(cardData.items)))
      ensures recording ==> forall i :: 0 <= i < |otherData| ==>
        disk[dataFiles.value[i + 1]] == old(disk)[dataFiles.value[i + 1]] + TextLines(old(otherData[i].items))
      ensures recording ==> forall n :: n in old(disk) && n !in dataFiles.value[..|otherData| + 1] ==>
        disk[n] == old(disk)[n]
    {
      DrainCard();
      ghost var afterCard := disk;
      DrainOtherQueues();
      if recording {
        var files := dataFiles.value;
        assert files[0] !in files[1..|otherData| + 1];
        forall j | 1 <= j <= |otherData|
          ensures afterCard[files[j]] == old(disk)[files[j]]
        {
          assert files[j] != files[0];
        }
        forall n | n in old(disk) && n !in files[..|otherData| + 1]
          ensures disk[n] == old(disk)[n]
        {
          assert n !in files[1..|otherData| + 1] && n != files[0];
        }
      }
      rearm := running;
    }

    /** One drain pass of a writer without a card queue. */
    method WriteOutOtherData() returns (rearm: bool)
      requires Valid() && (recording ==> filesOpen)
      modifies this`disk, set q | q in otherData
      ensures Valid()
      ensures rearm == running
      ensures forall i :: 0 <= i < |otherData| ==> otherData[i].items == []
      ensures !recording ==> disk == old(disk)
      ensures recording ==> disk.Keys == old(disk).Keys
      ensures recording ==> forall i :: 0 <= i < |otherData| ==>
        disk[dataFiles.value[i + 1]] == old(disk)[dataFiles.value[i + 1]] + TextLines(old(otherData[i].items))
      ensures recording ==> forall n :: n in old(disk) && n !in dataFiles.value[1..|otherData| + 1] ==>
        disk[n] == old(disk)[n]
    {
      DrainOtherQueues();
      rearm := running;
    }

    /** Flushes and closes the open files. A handle already closed makes the
        first flush fail (ok is false) and nothing changes. */
    method CloseFiles() returns (ok: bool)
      requires Valid()
      modifies this`filesOpen
      ensures ok <==> dataFiles.None? || old(filesOpen)
      ensures !filesOpen
    {
      if dataFiles.Some? && !filesOpen {
        return false;
      }
      filesOpen := false;
      ok := true;
    }

    /** Ends the drain cycle and closes the files; the session fields are left
        as they are. */
    method Stop() returns (ok: bool)
      requires Valid()
      modifies this`running, this`filesOpen
      ensures Valid()
      ensures !running && !filesOpen
      ensures ok <==> dataFiles.None? || old(filesOpen)
    {
      running := false;
      ok := CloseFiles();
    }

    /** Appends the header to a freshly opened log file. */
    method InitLogFile(name: string, params: seq<string>)
      requires name in disk
      modifies this`disk
      ensures disk == old(disk)[name := old(disk)[name] + LogHeader(params)]
    {
      disk := disk[name := disk[name] + ["##### DAQ Parameters #####\n\n"]];
      disk := disk[name := disk[name] + params];
      disk := disk[name := disk[name] + ["\n\n\n##### Parameter Changes #####\n\n"]];
      assert disk[name] == old(disk)[name] + LogHeader(params);
    }

    /** Picks the first unused run number for the date and opens that run's
        files, one per kind in slot order, writing the header to the log. */
    method InitOutputFiles(datePrefix: string, params: seq<string>) returns (files: seq<string>)
      modifies this`disk, this`fileRun, this`filePathDate, this`runNumber
      ensures FirstUnusedRun(old(disk), datePrefix, fileRun)
      ensures files == RunFiles(datePrefix, fileRun)
      ensures filePathDate == DataDirPath + datePrefix
      ensures runNumber == datePrefix + NatToString(fileRun)
      ensures Distinct(files)
      ensures OpenedRun(old(disk), disk, files, LogHeader(params))
    {
      var run := ProbeRun(disk, datePrefix);
      filePathDate := DataDirPath + datePrefix;
      fileRun := run;
      runNumber := datePrefix + NatToString(run);
      ConfiguredKinds();
      RunFilesDistinct(datePrefix, run);
      ghost var all := RunFiles(datePrefix, run);
      ghost var before := disk;
      files := [];
      for i := 0 to |DataFileTypes|
        invariant files == all[..i]
        invariant forall n :: n in disk <==> n in before || n in files
        invariant forall k :: 0 <= k < i && k != LogSlot ==> all[k] in disk && disk[all[k]] == Existing(before, all[k])
        invariant LogSlot < i ==> all[LogSlot] in disk && disk[all[LogSlot]] == Existing(before, all[LogSlot]) + LogHeader(params)
        invariant forall n :: n in before && n !in files ==> n in disk && disk[n] == before[n]
        modifies this`disk
      {
        var kind := DataFileTypes[i];
        var name := FileName(datePrefix, run, kind);
        assert name == all[i] && name !in files;
        disk := disk[name := Existing(disk, name)];
        if kind == "log" {
          InitLogFile(name, params);
        }
        files := files + [name];
      }
    }

    /** Records one message: appended to the log while recording, to the end of
        the change buffer otherwise. Writing to a log closed by stop fails. */
    method Record(message: string) returns (ok: bool)
      requires Valid()
      modifies this`changeBuffer, this`disk
      ensures Valid()
      ensures ok <==> !recording || filesOpen
      ensures !recording ==> changeBuffer == old(changeBuffer) + [message] && disk == old(disk)
      ensures recording && filesOpen ==>
        changeBuffer == old(changeBuffer) && disk == old(disk)[changeLog.value := old(disk)[changeLog.value] + [message]]
      ensures recording && !filesOpen ==> changeBuffer == old(changeBuffer) && disk == old(disk)
    {
      if recording {
        if !filesOpen {
          return false;
        }
        disk := disk[changeLog.value := disk[changeLog.value] + [message]];
      } else {
        changeBuffer := changeBuffer + [message];
      }
      ok := true;
    }

    /** Logs free text with the timestamp text `stamp`. */
    method LogStr(txt: string, stamp: string) returns (ok: bool)
      requires Valid()
      modifies this`changeBuffer, this`disk
      ensures Valid()
      ensures ok <==> !recording || filesOpen
      ensures !recording ==> changeBuffer == old(changeBuffer) + [TextMessage(stamp, txt)] && disk == old(disk)
      ensures recording && filesOpen ==>
        changeBuffer == old(changeBuffer) && disk == old(disk)[changeLog.value := old(disk)[changeLog.value] + [TextMessage(stamp, txt)]]
      ensures recording && !filesOpen ==> changeBuffer == old(changeBuffer) && disk == old(disk)
    {
      ok := Record(TextMessage(stamp, txt));
    }

    /** Logs that parameter `name` was set to `value`, with the timestamp text
        `stamp`. */
    method Log(name: string, value: string, stamp: string) returns (ok: bool)
      requires Valid()
      modifies this`changeBuffer, this`disk
      ensures Valid()
      ensures ok <==> !recording || filesOpen
      ensures !recording ==> changeBuffer == old(changeBuffer) + [ParameterMessage(stamp, name, value)] && disk == old(disk)
      ensures recording && filesOpen ==>
        changeBuffer == old(changeBuffer) &&
        disk == old(disk)[changeLog.value := old(disk)[changeLog.value] + [ParameterMessage(stamp, name, value)]]
      ensures recording && !filesOpen ==> changeBuffer == old(changeBuffer) && disk == old(disk)
    {
      ok := Record(ParameterMessage(stamp, name, value));
    }

    /** Closes the open run: its files are flushed and closed and the session
        fields go back to their idle values. */
    method StopRecording() returns (ok: bool)
      requires Valid() && recording
      modifies this`recording, this`dataFiles, this`changeLog, this`runNumber, this`filesOpen
      ensures Valid()
      ensures ok <==> old(filesOpen)
      ensures !ok ==> recording && dataFiles == old(dataFiles) && changeLog == old(changeLog) &&
                      runNumber == old(runNumber) && filesOpen == old(filesOpen)
      ensures ok ==> !recording && dataFiles == None && changeLog == None && !filesOpen &&
                     runNumber == BlankRunNumber
    {
      ok := CloseFiles();
      if ok {
        dataFiles := None;
        changeLog := None;
        runNumber := BlankRunNumber;
        recording := false;
      }
    }

    /** Opens a new run; its log gets the header and then, when buffering, the
        messages buffered while idle, in order. The buffer is emptied either way. */
    method StartRecording(datePrefix: string, params: seq<string>)
      requires Valid() && !recording
      modifies this`recording, this`dataFiles, this`changeLog, this`runNumber, this`changeBuffer,
               this`disk, this`filesOpen, this`fileRun, this`filePathDate
      ensures Valid()
      ensures recording && filesOpen && changeBuffer == []
      ensures FirstUnusedRun(old(disk), datePrefix, fileRun)
      ensures dataFiles == Some(RunFiles(datePrefix, fileRun))
      ensures changeLog == Some(RunFiles(datePrefix, fileRun)[LogSlot])
      ensures runNumber == datePrefix + NatToString(fileRun)
      ensures filePathDate == DataDirPath + datePrefix
      ensures OpenedRun(old(disk), disk, RunFiles(datePrefix, fileRun),
                        LogHeader(params) + (if buffer then old(changeBuffer) else []))
    {
      var files := InitOutputFiles(datePrefix, params);
      WriteChangeBuffer(old(disk), files, LogHeader(params));
      BeginSession(files);
    }

    /** Marks the run `files` as the open session. */
    method BeginSession(files: seq<string>)
      requires |otherData| <= |DataFileTypes| - 2 && Distinct(otherData)
      requires |files| == |DataFileTypes| && Distinct(files)
      requires forall i :: 0 <= i < |files| ==> files[i] in disk
      modifies this`recording, this`dataFiles, this`changeLog, this`changeBuffer, this`filesOpen
      ensures Valid()
      ensures recording && filesOpen && changeBuffer == []
      ensures dataFiles == Some(files) && changeLog == Some(files[LogSlot])
    {
      dataFiles := Some(files);
      LogKindIsLast();
      changeLog := Some(files[TypeIndex(DataFileTypes, "log")]);
      changeBuffer := [];
      filesOpen := true;
      recording := true;
    }

    /** When buffering is on, writes the buffered messages, in order, to the
        log of the run just opened. */
    method WriteChangeBuffer(ghost before: map<string, seq<string>>, files: seq<string>, ghost header: seq<string>)
      requires |files| == |DataFileTypes| && Distinct(files)
      requires OpenedRun(before, disk, files, header)
      modifies this`disk
      ensures OpenedRun(before, disk, files, header + (if buffer then changeBuffer else []))
    {
      var log := files[LogSlot];
      if buffer {
        OpenedRunAppendLog(before, disk, files, header, changeBuffer);
        disk := disk[log := disk[log] + changeBuffer];
      } else {
        assert header + [] == header;
      }
    }

    /** Turns recording off when it is on and on when it is off. */
    method ToggleRecord(datePrefix: string, params: seq<string>) returns (ok: bool)
      requires Valid()
      modifies this`recording, this`dataFiles, this`changeLog, this`runNumber, this`changeBuffer,
               this`disk, this`filesOpen, this`fileRun, this`filePathDate
      ensures Valid()
      ensures ok <==> !old(recording) || old(filesOpen)
      ensures !ok ==> unchanged(this)
      ensures old(recording) && ok ==>
        && !recording && dataFiles == None && changeLog == None && !filesOpen
        && runNumber == BlankRunNumber
        && disk == old(disk) && changeBuffer == old(changeBuffer)
        && fileRun == old(fileRun) && filePathDate == old(filePathDate)
      ensures !old(recording) ==>
        && recording && filesOpen && changeBuffer == []
        && FirstUnusedRun(old(disk), datePrefix, fileRun)
        && dataFiles == Some(RunFiles(datePrefix, fileRun))
        && changeLog == Some(RunFiles(datePrefix, fileRun)[LogSlot])
        && runNumber == datePrefix + NatToString(fileRun)
        && filePathDate == DataDirPath + datePrefix
        && OpenedRun(old(disk), disk, RunFiles(datePrefix, fileRun),
                     LogHeader(params) + (if buffer then old(changeBuffer) else []))
    {
      if recording {
        ok := StopRecording();
      } else {
        StartRecording(datePrefix, params);
        ok := true;
      }
    }
  }
}
