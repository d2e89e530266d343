# FolderWatcher event pipeline, in Dafny

FolderWatcher watches one directory and re-emits every change it sees. It
classifies each notification from the directory watcher (created, changed,
deleted, renamed, error). Every notification is written to a trace event
source, on a named channel with keywords, a level and a payload. A change
(created, changed, deleted or renamed) is also written to a diagnostic
channel, but only when that channel is enabled; its subscriber prints one
console line per value. An error goes to the trace event source only. The
program also keeps two operation counters, which only changes raise.

This project models that pipeline as pure functions:

- `Keywords`, `Tasks` and `OperationCounters` model Events.cs. They hold the
  keyword bits, the task identifiers, and the event source's counters. The
  running total is a 64-bit signed `long`, so its two's-complement wrap-around
  is written out.
- `Notifications` holds the raw notifications and their change-type names.
- `Classifier` holds the trace record each handler writes. It also holds an
  independent statement of the classification policy, in terms of entry
  kinds, and a decoder that reads a notification back from its record.
- `Handlers` holds `OnChange`, `OnRename` and `OnError`, and the wiring that
  routes each notification kind to one of them. Each handler returns the
  ordered list of its effects: counter updates, the diagnostic write and the
  trace write. `Apply` folds those effects into the counter state. `Run`
  handles a sequence of notifications in arrival order.
- `Subscriber` holds the console line the diagnostic subscriber prints.
- `Startup` holds the argument check at the start of `Main`.

Some answers come from the environment and are inputs here. `Directory.Exists`
is a function from paths to booleans, asked about the notification's (new)
full path and about the command-line argument. Whether the diagnostic
channel is enabled is a boolean.

Three points where the code may surprise a reader; the model follows the code:

- An error notification updates neither counter (Program.cs:122-127). Only
  the four change kinds are counted.
- A change type other than created, changed or deleted that reaches
  `OnChange` hits `Debug.Assert(false, …)` (Program.cs:116-118). The model
  makes this a precondition of `OnChange`. In a release build the assertion
  compiles away. The counters would then already be raised and the
  diagnostic write made, with no trace record written.
- The diagnostic channel names a value by `ChangeType.ToString()`
  ("Created", "Changed", "Deleted", "Renamed"). The trace channels are
  "Create", "Update", "Delete" and "Rename".

## Model

| member | source | states |
|---|---|---|
| `Keywords.FlagsAreDistinctBits` | Events.cs:6-10 | File and Directory are distinct single bits; Directory\|File holds both, equals neither alone, and selects both entry kinds |
| `Keywords.FromEntities` | Events.cs:8-9 | encoding a set of entry kinds uses only the two defined flag bits |
| `Keywords.EntitiesRoundTrip` | Events.cs:8-9 | decoding the bits of an encoded set of entry kinds gives the set back |
| `Keywords.DefinedIsDeterminedByEntities` | Events.cs:8-9 | two keyword values built from the defined flags that select the same entry kinds are equal |
| `Tasks.Id` | Events.cs:12-19 | every task identifier lies between 1 and 5 |
| `Tasks.IdsAreDistinct` | Events.cs:14-18 | the task identifiers are pairwise distinct and each decodes back to its task |
| `Tasks.FromIdIsExact` | Events.cs:14-18 | exactly the identifiers 1 to 5 name a task, and each names the task with that identifier |
| `OperationCounters.Increment` | Events.cs:30 | an atomic increment of a long adds one modulo 2^64, and adds exactly one below the maximum value |
| `OperationCounters.Fresh` | Events.cs:24 | the event source starts with a total of zero and no active operations |
| `OperationCounters.IncrementOperationsCount` | Events.cs:30 | the total advances by one (two's complement) and the active counter is unchanged |
| `OperationCounters.IncrementActive` | Events.cs:27 | the active counter advances by one and the total is unchanged |
| `OperationCounters.IncrementTimesAdds` | Events.cs:30 | below the wrap-around bound, n increments raise the total by exactly n |
| `OperationCounters.CountFromStart` | Events.cs:24-30 | below the wrap-around bound, after n increments from the start the total is n |
| `OperationCounters.IncrementTimesIsMonotone` | Events.cs:30 | below the wrap-around bound, more increments never give a smaller total |
| `OperationCounters.Poll` | Events.cs:38-39 | the polling counter reports the current total and leaves the state unchanged |
| `OperationCounters.ReplayCounts` | Events.cs:30-39 | below the wrap-around bound, across any mix of increments and polls, the final total is the initial total plus the number of increments, and the values polled are nondecreasing and between the initial and final totals |
| `Notifications.ChangeTypeNamesAreDistinct` | Program.cs:74-77 | the diagnostic names of the four change types are distinct, and "Renamed" names exactly the renames |
| `Classifier.Classify` | Program.cs:79-126 | every record is on one of the five channels and uses only defined keyword bits; the level is Error and the keywords are empty exactly for errors |
| `Classifier.ClassifyFollowsPolicy` | Program.cs:79-126 | a record follows the policy table exactly when it is the classification. Creates, updates and renames select Directory when the path exists and File otherwise. Deletes select both, errors select none. Updates are Verbose, errors Error, the rest Informational. Payloads carry the notification's fields |
| `Classifier.ClassifyRoundTrip` | Program.cs:83-126 | the notification can be read back from its record's channel and payload |
| `Classifier.ExistenceRoundTrip` | Program.cs:79-115 | the answer for the full path can be read back from the keywords of creates, updates and renames; deletes and errors reflect none |
| `Classifier.ClassifyAsksOnlyFullPath` | Program.cs:79-115 | the record depends on the filesystem only through the answer for the notification's full path (for a rename, the new one): deletes and errors not at all, and two answers give the same create, update or rename record exactly when they agree on that path |
| `Classifier.ChannelDiffersFromChangeTypeName` | Program.cs:91-114 | the trace channel name never equals the diagnostic change-type name |
| `Subscriber.ConsoleLine` | Program.cs:19-31 | the line begins with the key, a colon and a quote, and ends with a quote |
| `Subscriber.ConsoleLineShowsPaths` | Program.cs:21-30 | an ordinary line shows the full path between its quotes; a rename line shows the old path, then the arrow, then the new path |
| `Startup.Start` | Program.cs:45-65 | the program watches exactly when it has one argument naming an existing directory, and watches that directory; otherwise it prints the usage line |
| `Handlers.CountedHandlerEffects` | Program.cs:69-95 | a counted handler raises both counters by one before any write, writes to the diagnostic channel under the change-type name only when it is enabled, and writes one trace record last, after the diagnostic write |
| `Handlers.OnChange` | Program.cs:86-120 | for creations, changes and deletions: both counters are raised by one first; the diagnostic write happens exactly when enabled; the single trace record is the classification; every diagnostic value is printable |
| `Handlers.OnRename` | Program.cs:69-84 | for renames: both counters are raised by one first; the diagnostic write under "Renamed" happens exactly when enabled; the single trace record is the rename classification |
| `Handlers.OnError` | Program.cs:122-127 | an error leaves both counters unchanged, writes nothing to the diagnostic channel and writes one Error record, whatever the filesystem answers |
| `Handlers.Handle` | Program.cs:53-57 | whatever the notification kind, counter updates precede writes and exactly one trace record is written. The counters move by one exactly for non-errors. The diagnostic write, under the change-type name, happens exactly for enabled non-errors |
| `Handlers.WritesInHandlerOrder` | Program.cs:69-115 | for every non-error notification, the two counter updates come first, the diagnostic write (when enabled) comes third, and the trace record is written last |
| `Handlers.RunPreservesOrder` | Program.cs:53-57 | over a sequence of notifications, the trace channel receives one record per notification, in arrival order |
| `Handlers.RunDiagnosticsInOrder` | Program.cs:74-78 | over a sequence of notifications, the diagnostic channel receives one write per enabled non-error notification, under its change-type name, in arrival order |
| `Handlers.RunCounts` | Program.cs:69-127 | below the wrap-around bound, handling a sequence raises each counter by the number of non-error notifications in it |
| `Handlers.RunFromStart` | Events.cs:24-30 | from process start, both counters equal the number of non-error notifications handled |
| `Handlers.RunIsMonotone` | Events.cs:30 | handling more notifications never lowers the total, below the wrap-around bound |

## Left out

- The directory watcher setup, its event wiring and `EnableRaisingEvents` (Program.cs:51-59) are operating-system plumbing. Only the routing of each notification kind to its handler is modelled.
- Ctrl+C handling, the cancellation token and the blocking wait (Program.cs:61-66) are process lifecycle. `Startup.Start` stops at the line printed before the wait.
- The diagnostic listener registration (Program.cs:13-14, 33-40) is observer plumbing. Whether the channel is enabled is an input boolean. Per-name filtering by `IsEnabled` is not modelled, since the subscriber installed here accepts every name.
- The EventSource transport, its self-describing format, and counter export (Events.cs:21-42) are library code. `IncrementingEventCounter` is a floating-point value that the library resets on each poll. The model keeps it as a natural number counting increments since creation. Rounding and reset-on-poll are not modelled.
- `Interlocked` atomicity (Events.cs:30, 39) is not modelled. Increments and polls are applied one after another.
- `Directory.Exists` and its race with the live filesystem are inputs. The caller supplies the observed answer for each path, per notification.
- `OperationCounters.Poll` and `OperationCounters.ReplayCounts` report the total as a `long`. The polling counter's callback (Events.cs:39) converts it to a `double`, which is exact only up to 2^53 in magnitude. Past that point the reported value is rounded, and after the wrap-around it is negative. That conversion is not modelled.
- Exceptions are reduced to their message and full type-name strings.
- Console output is reduced to the text of each line.
- Combined or unnamed `WatcherChangeTypes` values are not modelled. Only the four named change types exist. Their arrival at the wrong handler is excluded by the preconditions of `OnChange` and `OnRename`.
- Nullable entry names (`FileSystemEventArgs.Name` may be null) are not modelled. Names are strings.
- The task identifiers are declared in Events.cs but never used by Program.cs when writing. They are modelled as constants only.
- `OperationCounters.IncrementTimesAdds`, `OperationCounters.CountFromStart`, `OperationCounters.IncrementTimesIsMonotone`, `OperationCounters.ReplayCounts`, `Handlers.RunCounts`, `Handlers.RunFromStart` and `Handlers.RunIsMonotone` are stated only below the 64-bit wrap-around bound. Past it, the total wraps to the smallest `long` and is no longer monotone.
