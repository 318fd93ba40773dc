/** The analog voltage input: each poll tick stamps the rows read from the
    card with a running sample index and pushes the batch to every output
    queue. */
module Nidaq {
  import opened Format
  import opened Parameters
  import opened Queues
  import opened Utilities

  /** Capacity of every queue the analog input creates. */
  const QueueCapacity: nat := 200000

  /** Every row carries an index, and the indices strictly increase. */
  predicate IndicesIncreasing(rows: seq<Row>) {
    && (forall i :: 0 <= i < |rows| ==> |rows[i]| >= 1)
    && (forall i, j :: 0 <= i < j < |rows| ==> rows[i][0] < rows[j][0])
  }

  /** The batch a tick builds when the sample count stood at `count`: row j
      is the sample index count + j + 1 followed by the j-th row read. */
  function Stamp(count: int, read: seq<Row>): (batch: seq<Row>)
    ensures |batch| == |read|
    ensures forall j :: 0 <= j < |read| ==>
      |batch[j]| == |read[j]| + 1 && batch[j][0] == count + j + 1 && batch[j][1..] == read[j]
    ensures IndicesIncreasing(batch)
  {
    seq(|read|, j requires 0 <= j < |read| => [count + j + 1] + read[j])
  }

  /** Stamping two reads one after the other is stamping their rows at once. */
  lemma StampConcat(count: int, a: seq<Row>, b: seq<Row>)
    ensures Stamp(count, a) + Stamp(count + |a|, b) == Stamp(count, a + b)
  {
    var lhs, rhs := Stamp(count, a) + Stamp(count + |a|, b), Stamp(count, a + b);
    forall j | 0 <= j < |rhs|
      ensures lhs[j] == rhs[j]
    {
      if j < |a| {
        assert lhs[j] == [count + j + 1] + a[j];
      } else {
        assert lhs[j] == [count + |a| + (j - |a|) + 1] + b[j - |a|];
      }
    }
  }

  /** The batches of successive ticks that start from count `count` and read
      `tickRows`, with no reset in between. */
  function Ticks(count: int, tickRows: seq<seq<Row>>): (batches: seq<seq<Row>>)
    ensures |batches| == |tickRows|
    decreases tickRows
  {
    if tickRows == [] then [] else [Stamp(count, tickRows[0])] + Ticks(count + |tickRows[0]|, tickRows[1..])
  }

  /** The rows a consumer receives from successive ticks are the stamp of all
      the rows read, so the indices run on from batch to batch. */
  lemma {:induction false} TicksFlatten(count: int, tickRows: seq<seq<Row>>)
    ensures Flatten(Ticks(count, tickRows)) == Stamp(count, Flatten(tickRows))
    ensures IndicesIncreasing(Flatten(Ticks(count, tickRows)))
    decreases tickRows
  {
    if tickRows != [] {
      TicksFlatten(count + |tickRows[0]|, tickRows[1..]);
      StampConcat(count, tickRows[0], Flatten(tickRows[1..]));
    }
  }

  /** Once the card queue's batches are written to the card file, one
      tab-separated line per row, the first field of line j reads back as the
      sample index count + j + 1 and every later field c as column c - 1 of
      that row as read. */
  lemma WrittenIndex(count: int, tickRows: seq<seq<Row>>, j: nat)
    requires j < |Flatten(tickRows)|
    ensures |Flatten(Ticks(count, tickRows))| == |Flatten(tickRows)|
    ensures var line := RowLines(Flatten(Ticks(count, tickRows)))[j];
      && |line| >= 1
      && var fields := Split(line[..|line| - 1], '\t');
      && |fields| == |Flatten(tickRows)[j]| + 1
      && IsIntText(fields[0]) && ParseInt(fields[0]) == count + j + 1
      && forall c :: 1 <= c < |fields| ==>
           IsIntText(fields[c]) && ParseInt(fields[c]) == Flatten(tickRows)[j][c - 1]
  {
    TicksFlatten(count, tickRows);
    var row := Stamp(count, Flatten(tickRows))[j];
    var line := RowLines(Flatten(Ticks(count, tickRows)))[j];
    assert line == FormatRow(row) + "\n";
    assert line[..|line| - 1] == FormatRow(row);
    FormatRowRoundTrip(row);
  }

  /** The input of one card task: its run flags, its sample count and the
      queues every tick's batch goes to. */
  class AnalogVoltageTimeInput {
    var running: bool
    var polling: bool
    const numChannels: nat
    /** Seconds between two poll ticks. */
    const pollDelay: real
    /** Rows a tick asks the card for: half a second of samples. */
    const points: int
    const dataQueue: seq<BoundedQueue<seq<Row>>>
    var dataCount: int

    ghost predicate Valid()
      reads this, dataQueue
    {
      && Distinct(dataQueue)
      && forall i :: 0 <= i < |dataQueue| ==> dataQueue[i].capacity == QueueCapacity && dataQueue[i].Valid()
    }

    /** Creates `numQueues` empty queues of capacity QueueCapacity. */
    constructor (channels: nat, numQueues: nat)
      ensures Valid()
      ensures running && polling && numChannels == channels && dataCount == 0
      ensures points == 50 && pollDelay == 0.05
      ensures |dataQueue| == numQueues
      ensures forall i :: 0 <= i < numQueues ==>
        fresh(dataQueue[i]) && dataQueue[i].items == [] && dataQueue[i].capacity == QueueCapacity
    {
      running := true;
      numChannels := channels;
      pollDelay := 0.05;
      points := (MasterSampleFreq / 2.0).Floor;
      polling := true;
      var queues: seq<BoundedQueue<seq<Row>>> := [];
      for i := 0 to numQueues
        invariant |queues| == i
        invariant Distinct(queues)
        invariant forall k :: 0 <= k < i ==>
          fresh(queues[k]) && queues[k].items == [] && queues[k].capacity == QueueCapacity
      {
        var q := new BoundedQueue<seq<Row>>(QueueCapacity);
        queues := queues + [q];
      }
      dataQueue := queues;
      dataCount := 0;
    }

    /** The queues the batches go to, in push order. */
    method GetQueues() returns (queues: seq<BoundedQueue<seq<Row>>>)
      requires Valid()
      ensures queues == dataQueue
      ensures forall i :: 0 <= i < |queues| ==> queues[i].capacity == QueueCapacity
    {
      queues := dataQueue;
    }

    /** Restarts the sample count and zeroes the stopwatch `watch` at clock
        reading `now`. */
    method SyncZero(watch: Stopwatch, now: int)
      modifies this`dataCount, watch
      ensures dataCount == 0 && watch.Time(now) == 0
    {
      dataCount := 0;
      watch.Zero(now);
    }

    /** What one read of the card returns: at most `points` rows of one
        value per channel. */
    predicate CardRead(read: seq<Row>) {
      && |read| <= points
      && forall j :: 0 <= j < |read| ==> |read[j]| == numChannels
    }

    /** Builds a tick's batch from the rows read, counting each row; every
        row of the batch has the index column and one column per channel. */
    method StampRows(read: seq<Row>) returns (batch: seq<Row>)
      requires CardRead(read)
      modifies this`dataCount
      ensures dataCount == old(dataCount) + |read|
      ensures batch == Stamp(old(dataCount), read)
      ensures |batch| <= points && forall j :: 0 <= j < |batch| ==> |batch[j]| == numChannels + 1
    {
      var d := new Row[|read|];
      var cnt := 0;
      for j := 0 to |read|
        invariant cnt == j
        invariant dataCount == old(dataCount) + j
        invariant forall k :: 0 <= k < j ==> d[k] == [old(dataCount) + k + 1] + read[k]
        modifies this`dataCount, d
      {
        dataCount := dataCount + 1;
        d[cnt] := [dataCount] + read[j];
        cnt := cnt + 1;
      }
      batch := d[..];
    }

    /** Pushes `batch` to each queue in list order. A full queue stalls the
        push: the queues before it have the batch, it and the rest do not. */
    method Deliver(batch: seq<Row>) returns (delivered: nat)
      requires Valid()
      modifies set q | q in dataQueue
      ensures Valid()
      ensures delivered <= |dataQueue|
      ensures forall i :: 0 <= i < delivered ==> dataQueue[i].items == old(dataQueue[i].items) + [batch]
      ensures forall i :: delivered <= i < |dataQueue| ==> dataQueue[i].items == old(dataQueue[i].items)
      ensures delivered < |dataQueue| ==> |dataQueue[delivered].items| == QueueCapacity
    {
      var i := 0;
      while i < |dataQueue|
        invariant 0 <= i <= |dataQueue|
        invariant Valid()
        invariant forall k :: 0 <= k < i ==> dataQueue[k].items == old(dataQueue[k].items) + [batch]
        invariant forall k :: i <= k < |dataQueue| ==> dataQueue[k].items == old(dataQueue[k].items)
      {
        var ok := dataQueue[i].Put(batch);
        if !ok {
          return i;
        }
        i := i + 1;
      }
      delivered := i;
    }

    /** One poll tick with `read` the rows the card returned. While polling,
        the rows are stamped and counted and the batch goes to every queue,
        and the tick re-arms once every queue has it; after stop the tick
        does nothing. */
    method Poll(read: seq<Row>) returns (delivered: nat, rearm: bool)
      requires Valid() && CardRead(read)
      modifies this`dataCount, set q | q in dataQueue
      ensures Valid()
      ensures rearm <==> polling && delivered == |dataQueue|
      ensures !polling ==> dataCount == old(dataCount) && delivered == 0
      ensures !polling ==> forall i :: 0 <= i < |dataQueue| ==> dataQueue[i].items == old(dataQueue[i].items)
      ensures polling ==> dataCount == old(dataCount) + |read| && delivered <= |dataQueue|
      ensures polling ==> forall i :: 0 <= i < delivered ==>
        dataQueue[i].items == old(dataQueue[i].items) + [Stamp(old(dataCount), read)]
      ensures polling ==> forall i :: delivered <= i < |dataQueue| ==> dataQueue[i].items == old(dataQueue[i].items)
      ensures polling && delivered < |dataQueue| ==> |dataQueue[delivered].items| == QueueCapacity
    {
      delivered, rearm := 0, false;
      if polling {
        var batch := StampRows(read);
        delivered := Deliver(batch);
        rearm := delivered == |dataQueue|;
      }
    }

    /** Stops the task: the run flags drop, so no later tick polls. */
    method Stop()
      modifies this`running, this`polling
      ensures !running && !polling
    {
      running := false;
      polling := false;
    }
  }
}
