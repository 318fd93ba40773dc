# GaborDAQ recording pipeline in Dafny

This project models the data path of GaborDAQ, a Python acquisition
program for a cryogenic probe station. Two classes sit at the centre of it:

- `analog_voltage_time_input` (`nidaq.py`) polls a National Instruments
  card. Each poll tick stamps the rows it read with a running sample index
  and pushes the batch to each of its output queues.
- `data_writer` (`utilities.py`) owns the recording session. It drains the
  card queue and the other sources' queues on a timer. It also opens one
  file per data kind for each numbered run, and it keeps a change log whose
  messages are buffered while no run is open.

The modules follow the source:

- `Parameters` holds the constants of `parameters.py` that the pipeline
  reads: the data kinds, the extension, the data directory and the sample
  frequency.
- `Queues` holds the bounded FIFO standing in for `Queue.Queue`.
- `Format` holds the rendering of integers with `str` and of a card row as
  a tab-separated line. Each renderer has a parser and a round-trip lemma.
- `Utilities` holds `type_index`, the drain helpers `dequeue_all` and
  `dequeue_str`, the stopwatch, the run file naming and probing, the log
  messages, and the `DataWriter` class.
- `Nidaq` holds the `Stamp` function, which specifies a poll tick's batch,
  and the `AnalogVoltageTimeInput` class.

The data directory is a field of the writer, `disk`. It maps each file name
to the chunks written to that file: one chunk per `write` call, and one
chunk per list element for `writelines`.
`filesOpen` says whether the run's handles are still open. Writing to or
flushing a handle closed by `stop` raises in Python. Here it returns
`ok == false` and leaves the writer as it was. Values that come from the
operating system are parameters:

- the date prefix produced by `strftime`;
- the stopwatch reading printed into a log line;
- the clock reading given to the stopwatch;
- the lines of `parameters.py` copied into a new log;
- the rows the card returns on a tick.

## Model

| member | source | states |
|---|---|---|
| Utilities.TypeIndex | utilities.py:22-27 | The result is the smallest index holding the kind, and -1 exactly when the kind is not configured. |
| Utilities.TypeIndexFrom | utilities.py:23-25 | The scan from index i returns the first match at or after i, or -1 when nothing from i on matches. |
| Utilities.LogKindIsLast | parameters.py:8 | `type_index('log')` is the last slot of the configured kinds. |
| Utilities.ConfiguredKinds | parameters.py:8 | The card's kind `bnc` is first, `log` is last, and no kind appears twice. |
| Queues.BoundedQueue.constructor | nidaq.py:70 | A new queue is empty and holds at most `maxsize` items. |
| Queues.BoundedQueue.Put | nidaq.py:122 | A queue with room appends the item at the back; a full queue (maxsize reached) refuses it and is unchanged. |
| Queues.BoundedQueue.Get | utilities.py:34 | Removes and returns the oldest item. |
| Utilities.FlattenAppend | utilities.py:36 | Concatenating batches row-wise distributes over appending batch lists. |
| Utilities.DequeueAll | utilities.py:32-37 | On a non-empty queue, returns all queued batches concatenated in FIFO order and leaves the queue empty. |
| Utilities.DequeueStr | utilities.py:45-51 | Returns every queued item in FIFO order, `[]` for an empty queue, and leaves the queue empty. |
| Format.NatToString | utilities.py:200 | `str` of a natural number is a non-empty string of digits, with more than one digit exactly from 10 on, and starts with `0` only for 0 (no leading zeros). |
| Format.ParseNatToString | utilities.py:200 | Parsing the digits `str` produces for a run number gives back that number. |
| Format.NatToStringInjective | utilities.py:200 | Different run numbers render as different text. |
| Format.IntToString | utilities.py:153 | `str` of an integer is an optional minus sign followed by at least one digit. |
| Format.ParseIntToString | utilities.py:153 | Parsing `str` of an integer gives back that integer. |
| Format.SplitJoin | utilities.py:153 | Splitting a tab-joined list of tab-free fields at tabs gives back the fields. |
| Format.FormatRowRoundTrip | utilities.py:153 | A card row written as a tab-separated line splits back into one field per column, each reading back as that column's value. |
| Utilities.Stopwatch.constructor | utilities.py:60-61 | A new stopwatch starts at the clock reading `now` and reads 0 there. |
| Utilities.Stopwatch.Zero | utilities.py:66-67 | After zeroing at clock reading `now`, the stopwatch reads 0 at `now`. |
| Utilities.ProbeIsFirstFile | utilities.py:200 | The name probed for a run number (`ProbeName`, with the data extension) is the file the run opens for its first kind. |
| Utilities.FileNameParts | utilities.py:206-209 | A file name (`FileName`) is the run prefix, `_`, the kind, and `.log` for the log or the data extension otherwise. |
| Utilities.RunFiles | utilities.py:204-209 | A run opens one file per configured kind. |
| Utilities.RunFileNames | utilities.py:204-209 | File i of a run (`RunFiles`) starts with the run prefix and names kind i, and only the log slot's file ends in `.log`. |
| Utilities.ProbeNameInjective | utilities.py:200 | Different run numbers give different probe files. |
| Utilities.RunFilesDistinct | utilities.py:204-209 | The files of one run, one per kind, are pairwise distinct. |
| Utilities.ProbeRun | utilities.py:196-201 | The loop ends, with the smallest run number whose probe file is absent; every smaller number's probe file exists. |
| Utilities.OpenedRunAppendLog | utilities.py:225 | Writing more lines to a just-opened run's log extends what the log received at opening and touches no other file. |
| Utilities.SlotsWrittenStep | utilities.py:156-162 | Draining other queue i into slot i + 1 extends the drained prefix of the other queues by one, leaving every other file alone. |
| Utilities.WrittenSlotsStay | utilities.py:156-162 | After queue i is drained, slots 1 to i + 1 each hold their old contents followed by their own queue's lines. |
| Utilities.UnwrittenFilesStay | utilities.py:156-162 | After queue i is drained, every file outside slots 1 to i + 1 holds what it held before the pass. |
| Utilities.LogHeader | utilities.py:177-180 | A new log's header is the parameter banner, then the parameter file's lines unchanged, then the change banner. |
| Utilities.TextMessage | utilities.py:234 | A free-text log line is `[`, the stamp, `]: `, the text unchanged, and a final newline. |
| Utilities.ParameterMessage | utilities.py:244 | A parameter-change line is the free-text line whose text is `PARAMETER name SET TO value`. |
| Utilities.DataWriter.constructor | utilities.py:99-118 | A new writer is running and idle: no files, no change log, a blank run number, an empty change buffer. |
| Utilities.DataWriter.Create | utilities.py:114-118 | Construction fails exactly when more other-data queues are given than the kinds between the card's and the log's. |
| Utilities.DataWriter.DrainCard | utilities.py:148-153 | The card queue ends empty. When recording, slot 0's file gains one tab-separated line per queued row, in FIFO order, and no other file changes. Otherwise nothing is written. |
| Utilities.DataWriter.DrainOtherQueue | utilities.py:157-162 | Other queue i ends empty. When recording, slot i + 1's file gains one line per queued item, in order, and no other file changes. |
| Utilities.DataWriter.DrainOtherQueues | utilities.py:155-162 | Every other queue ends empty. When recording, each queue's items go, one line each, to its own slot. Files outside those slots are unchanged. |
| Utilities.DataWriter.WriteOutData | utilities.py:147-165 | One drain pass empties every queue. When recording, card rows go to slot 0 and other queue i to slot i + 1, and every other file is unchanged. When not recording, nothing is written. The pass re-arms exactly while running. |
| Utilities.DataWriter.WriteOutOtherData | utilities.py:132-143 | The same drain pass for a writer without a card queue. |
| Utilities.DataWriter.CloseFiles | utilities.py:186-190 | Afterwards no handle is open. Closing succeeds unless the run's handles were already closed. |
| Utilities.DataWriter.Stop | utilities.py:168-171 | The writer stops running and its files end closed. The session fields keep their values. |
| Utilities.DataWriter.InitLogFile | utilities.py:176-182 | The log file gains the parameter banner, the parameter file's lines and the change banner, in that order. |
| Utilities.DataWriter.InitOutputFiles | utilities.py:195-210 | Picks the first unused run number for the date and opens one file per kind in slot order. Existing contents are kept (append mode) and a missing file is created empty. Only the log gains the header. Run number and date path are recorded. |
| Utilities.DataWriter.Record | utilities.py:235-238 | Exactly one message is recorded: appended to the change log while recording, to the end of the change buffer otherwise, and nothing else changes. |
| Utilities.DataWriter.LogStr | utilities.py:233-238 | Records exactly one free-text message `[stamp]: txt` and a newline. |
| Utilities.DataWriter.Log | utilities.py:243-248 | Records exactly one message `[stamp]: PARAMETER name SET TO value` and a newline. |
| Utilities.DataWriter.StopRecording | utilities.py:215-220 | Turning recording off closes the files, clears the files and the change log, blanks the run number and stops recording. It fails and changes nothing when the handles are already closed. |
| Utilities.DataWriter.StartRecording | utilities.py:221-227 | Turning recording on opens the next run. The change log is that run's `type_index('log')` file and receives the header, then the buffered messages in order when buffering is on. The buffer is emptied either way and recording starts. |
| Utilities.DataWriter.BeginSession | utilities.py:223-227 | Makes the opened files the session: the change log is the log slot's file and the buffer is empty. |
| Utilities.DataWriter.WriteChangeBuffer | utilities.py:224-225 | When buffering is on, the buffered messages are appended to the new log in order. Otherwise nothing is written. |
| Utilities.DataWriter.ToggleRecord | utilities.py:214-227 | Switches between the two branches above. A failed toggle leaves the writer unchanged. |
| Nidaq.Stamp | nidaq.py:113-119 | A tick's batch has one row per row read. Row j is index `count + j + 1` followed by the read row's values unchanged, so indices strictly increase. |
| Nidaq.StampConcat | nidaq.py:115-117 | Stamping two reads in a row gives the same rows as stamping them as one read. |
| Nidaq.TicksFlatten | nidaq.py:115-122 | The rows a queue receives over successive ticks without a reset are the stamp of all rows read, so indices increase across batches too. |
| Nidaq.WrittenIndex | nidaq.py:116-118 | Once drained to the card file, line j has one field more than the row read; its first field reads back as sample index `count + j + 1`, and every later field c as column c - 1 of the row as read. |
| Nidaq.AnalogVoltageTimeInput.constructor | nidaq.py:49-72 | Creates exactly `num_queues` fresh, empty, distinct queues of capacity 200000. The count starts at 0, a tick asks for 50 rows, and the poll delay is 0.05 s. |
| Nidaq.AnalogVoltageTimeInput.GetQueues | nidaq.py:93-94 | Returns the queue list itself; each queue has capacity 200000. |
| Nidaq.AnalogVoltageTimeInput.SyncZero | nidaq.py:98-100 | The sample count is 0 and the given stopwatch reads 0. |
| Nidaq.AnalogVoltageTimeInput.StampRows | nidaq.py:112-119 | The count grows by the number of rows read, and the batch built is their stamp from the old count, at most `points` rows of `numChannels + 1` columns. |
| Nidaq.AnalogVoltageTimeInput.Deliver | nidaq.py:121-122 | Each queue, in list order, gets the batch once, until a full queue is reached. The queues from that one on are unchanged. |
| Nidaq.AnalogVoltageTimeInput.Poll | nidaq.py:104-124 | While polling, the count grows by the rows read, every queue gets the same stamped batch, and the tick re-arms. When not polling, nothing is read, pushed or re-armed. |
| Nidaq.AnalogVoltageTimeInput.Stop | nidaq.py:128-130 | Clears the running and polling flags, so no later tick polls. |

## Left out

- Threads and timers are not modelled; a drain pass or a poll tick returns whether it would re-arm. `run()` only dispatches to one of the two drain passes or starts the card task and polls.
- Nidaq.AnalogVoltageTimeInput.Poll, and with it Queues.BoundedQueue.Put and Nidaq.AnalogVoltageTimeInput.Deliver: a `put` on a full queue blocks in Python. Here `Put` refuses the item, the tick stops at that queue, the later queues do not get the batch, and the tick does not re-arm.
- Nidaq.AnalogVoltageTimeInput.StampRows: column 0 holds the integer sample index `dataCount`. The source stores `dataCount / masterSampleFreq` as a float64, so the model gives the index, not the time in seconds.
- Format.IntToString: samples are `float64` in the source and integers here. Python's float rendering is not modelled.
- Utilities.DataWriter.DrainCard, and likewise DrainOtherQueue, DrainOtherQueues, WriteOutData and WriteOutOtherData, require that a recording writer's files are open. A pass after `stop` while recording only happens when a timer fires during `stop`, and threads are not modelled.
- Utilities.DataWriter.Create requires distinct queue objects; a queue passed twice is not modelled.
- Utilities.DequeueAll and Utilities.DequeueStr have no exception path: both helpers are only called on a non-empty queue that only their caller reads.
- The warning printed when fewer other-data queues are given than kinds, and the error print of `type_index`, are not modelled.
- Python's `data_files[-1]` on a -1 from `type_index` is not modelled: `log` is always configured (`Utilities.LogKindIsLast`).
- Utilities.DataWriter.Stop does not model `self.task.cancel()`: timers are not modelled.
- The `Logger` class (stdout mirrored into a daily log file) is not modelled: it is terminal I/O.
- Utilities.Stopwatch.Time has no contract of its own: `time()` is the clock reading minus the start, and the clock is a parameter.
- Queues.BoundedQueue.IsEmpty is the library's emptiness test `empty()` and has no contract of its own.
- Utilities.DataWriter.InitOutputFiles and Utilities.DataWriter.StartRecording: failures to open or write a file (missing directory, permissions, full disk) are not modelled; every open and write succeeds. In the source a failed open raises after `file_run` and `run_number` are set, leaving `run_number` set while not recording, a state the model's invariant excludes.
- Nidaq.AnalogVoltageTimeInput.Poll and StampRows require the read to be what the card returns into its `points` by `numChannels` buffer: at most `points` rows of `numChannels` values each.
- The stopwatch reads an explicit clock value instead of `time.clock()`. The log-line stamp is the caller's text for `str(self.timer.time())`.
- `strftime` is called twice in `init_output_files` and could cross midnight between the calls. The model uses one date prefix for both.
- The DAQmx calls and their error check `CHK` are not modelled. This covers task creation, channel set-up, clock timing, the input buffer, the read, and stop and clear. The card's read is the `read` parameter of a tick.
- The other classes of `nidaq.py` (analog output and friends), `gui.py`, `labview.py`, `serialcom.py` and `test.py` are not part of this model.
