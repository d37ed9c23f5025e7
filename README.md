# configkratos sources, modelled in Dafny

This project models the two configuration sources of the configkratos plug-in
for the go-kratos config framework. Both hand a fixed encoded blob (JSON, YAML,
...) to the host framework as one key/value record with the key `"config"`.

- `DataSource` can be updated. Its first `Watch` creates a `ConfigWatcher`, and
  the source keeps it. A second `Watch` is refused. `Update` hands a new blob
  to that watcher through a one-slot channel. The host collects it with `Next`.
  `Stop` is one-shot: it cancels the watcher's context and closes the channel.
- `DataStatic` only loads. Each `Watch` returns a new `StaticWatcher`. That
  watcher never yields data. Its `Next` waits for cancellation, and its `Stop`
  always succeeds.

Layout:

- `config_common.dfy` (module `ConfigCommon`): the blob type, the `KeyValue`
  record, one `Error` constructor per failure, and `Status`/`Result` for Go's
  `error` and `(value, error)` returns.
- `dynamic_source.dfy` (module `DynamicSource`): the watcher and source states
  as values, and one function per operation. The classes `ConfigWatcher` and
  `DataSource` keep the same state in fields. Their methods are proved to
  follow those functions.
- `dynamic_traces.dfy` (module `DynamicTraces`): `Step` and `Run` apply a
  sequence of calls to the dynamic source. The lemmas here state what holds
  over every such sequence.
- `static_source.dfy` (module `StaticSource`): the `DataStatic` value, the
  `StaticWatcher` class, and a call-sequence model of that watcher.

A call that blocks in Go is a precondition here. There are three such calls:
`update` while the slot is full and the watcher is active, `Next` while the
slot is empty and the watcher is not cancelled, and the static `Next` before
`Stop`. In the call-sequence models, `Step` returns `None` for such a call.
When a watcher is cancelled and a blob is still buffered, both cases of Go's
`select` are ready and Go may take either one. `WatcherNext` takes that choice
as a parameter (`takeData`). `ConfigWatcher.Next` promises one of the two
outcomes.

## Model

| member | source | states |
|---|---|---|
| `ConfigCommon.SingleRecord` | data_source.go:39-44 | the record list has exactly one element: key `"config"`, the given blob and the given format |
| `DynamicSource.NewSource` | data_source.go:22-28 | a new source holds the given blob and the non-empty format, and has no watcher yet |
| `DynamicSource.NewJsonSource` | data_source.go:34-36 | the source holds the blob with format `"json"` and has no watcher |
| `DynamicSource.NewYamlSource` | data_source.go:30-32 | the source holds the blob with format `"yaml"` and has no watcher |
| `DynamicSource.SourceLoad` | data_source.go:38-45 | Load always succeeds with exactly one record: key `"config"`, the source's blob and its format |
| `DynamicSource.SourceWatch` | data_source.go:47-57 | succeeds exactly when the source has no watcher, and then stores an active, empty watcher with the source's format; otherwise fails with RepeatWatch and changes nothing; the blob and format never change |
| `DynamicSource.SourceUpdate` | data_source.go:59-67 | fails with NotWatching and changes nothing before any Watch; otherwise succeeds exactly when the watcher is active, and then puts the blob in its empty slot and changes nothing else, or fails with UpdateAfterStop and changes nothing; the source's own blob is never touched |
| `DynamicSource.NewWatcher` | data_source.go:78-89 | a new watcher carries the format, is active, not cancelled, and has an empty slot |
| `DynamicSource.WatcherUpdate` | data_source.go:91-101 | succeeds exactly when the watcher is active, and then the slot, empty before, holds exactly the new blob; on a stopped watcher fails with UpdateAfterStop and changes nothing; the slot never holds more than one blob |
| `DynamicSource.WatcherNext` | data_source.go:103-118 | a success returns one record built from the buffered blob and the watcher's format, and empties the slot; a failure is Canceled, only on a cancelled watcher, and changes nothing; an uncancelled watcher always delivers; a cancelled watcher with an empty slot always reports Canceled |
| `DynamicSource.WatcherStop` | data_source.go:120-132 | succeeds exactly when the watcher is active; afterwards it is stopped, cancelled and closed, with its slot and format kept; a second Stop fails with StopAfterStop and changes nothing |
| `DynamicSource.ConfigWatcher.constructor` | data_source.go:78-89 | the new object's state is `NewWatcher(format)` |
| `DynamicSource.ConfigWatcher.update` | data_source.go:91-101 | the new fields and the status are those of `WatcherUpdate` on the old fields |
| `DynamicSource.ConfigWatcher.Next` | data_source.go:103-118 | the result and new fields are one of the two `select` outcomes of `WatcherNext` |
| `DynamicSource.ConfigWatcher.Stop` | data_source.go:120-132 | the new fields and the status are those of `WatcherStop` on the old fields |
| `DynamicSource.DataSource.constructor` | data_source.go:22-28 | the object's state is `NewSource(data, format)` |
| `DynamicSource.DataSource.Json` | data_source.go:34-36 | the object's state is `NewJsonSource(data)` |
| `DynamicSource.DataSource.Yaml` | data_source.go:30-32 | the object's state is `NewYamlSource(data)` |
| `DynamicSource.DataSource.Load` | data_source.go:38-45 | Load succeeds with exactly the record (`"config"`, the constructor's blob, its format) |
| `DynamicSource.DataSource.Watch` | data_source.go:47-57 | the status and new state are those of `SourceWatch`; on success the returned watcher is fresh and is the stored one; on failure nothing is returned and the stored watcher is unchanged |
| `DynamicSource.DataSource.Update` | data_source.go:59-67 | the status and new state are those of `SourceUpdate` on the old state |
| `DynamicTraces.Step` | data_source.go:38-131 | a call returns exactly when it does not block and, for Next and Stop, a watcher exists; every returning call keeps the source invariant |
| `DynamicTraces.Run` | data_source.go:38-131 | a sequence of calls that returns gives one reply per call and keeps the source invariant |
| `DynamicTraces.StepBalance` | data_source.go:99-116 | one call keeps the balance: slot before plus blob accepted equals blob delivered plus slot after |
| `DynamicTraces.LoadUnchangedByRun` | data_source.go:38-67 | after any sequence of calls, including any number of Updates, Load returns the same record as before |
| `DynamicTraces.WatchSucceedsOnce` | data_source.go:47-57 | once a source has a watcher it keeps one, and every later Watch replies RepeatWatch |
| `DynamicTraces.StoppedStaysStopped` | data_source.go:91-131 | after Stop, over any later calls the watcher stays stopped and cancelled, every Update replies UpdateAfterStop, every Stop replies StopAfterStop, and no blob is accepted |
| `DynamicTraces.StoppedDeliversOnlyBuffered` | data_source.go:103-131 | after Stop, the blobs Next delivers are a prefix of what was buffered when Stop ran |
| `DynamicTraces.DeliveredInOrder` | data_source.go:91-118 | from a watched source, over any sequence of calls, slot before plus accepted blobs equals delivered blobs plus slot after: no blob is lost, duplicated or reordered |
| `DynamicTraces.UpdateThenNext` | data_source.go:91-118 | Update then Next on an active, empty watcher returns Ok, then the record of that blob, and restores the state |
| `DynamicTraces.AlternatingDeliversAll` | data_source.go:91-118 | alternating Update and Next on an active, empty watcher never blocks, accepts every blob, delivers them in the order given, and ends in the starting state |
| `StaticSource.NewDataStatic` | data_static.go:18-23 | a source built from a blob and a non-empty format loads exactly that blob with that format |
| `StaticSource.NewJsonStatic` | data_static.go:29-31 | the source has format `"json"` and loads the given blob |
| `StaticSource.NewYamlStatic` | data_static.go:25-27 | the source has format `"yaml"` and loads the given blob |
| `StaticSource.DataStatic.Load` | data_static.go:33-40 | Load always succeeds with exactly one record: key `"config"`, the blob and the format |
| `StaticSource.DataStatic.Watch` | data_static.go:42-62 | Watch never fails and returns a new, uncancelled watcher on every call |
| `StaticSource.StaticWatcher.constructor` | data_static.go:56-62 | a new static watcher is not cancelled |
| `StaticSource.StaticWatcher.Next` | data_static.go:64-67 | Next returns only on a cancelled watcher, and then reports Canceled and no record |
| `StaticSource.StaticWatcher.Stop` | data_static.go:69-72 | Stop always succeeds and leaves the watcher cancelled, however often it is called |
| `StaticSource.StaticStep` | data_static.go:64-72 | Next returns exactly when the watcher is cancelled, and then replies Canceled; Stop always replies Ok and leaves the watcher cancelled |
| `StaticSource.StaticRun` | data_static.go:64-72 | a sequence of Next and Stop calls that returns gives one reply per call |
| `StaticSource.StaticNeverYields` | data_static.go:64-72 | over any calls on a static watcher, no reply carries a record, every Stop succeeds, every Next that returns reports Canceled after a Stop or a cancellation, and the watcher ends cancelled exactly when some Stop ran or it already was |

## Left out

- Shared byte slices are not modelled. Go's `[]byte` blobs are shared with the caller (data_source.go:24, 41, 99, 113; data_static.go:20, 36). Here every blob is an immutable value, so a caller changing a slice after handing it over is not captured.
- Concurrency is not modelled: goroutines, the `sync.Mutex` around `update` and `Stop`, and interleavings. Each call runs on its own.
- Blocking is not modelled as suspension. A blocking call is a precondition, or `Step` returns `None`. So the model cannot show a blocked `Next` being woken by `Stop`.
- Go's random choice in `select` is a parameter (`takeData`) in `WatcherNext`. `ConfigWatcher.Next` always takes the cancellation case when it is ready, and its contract allows either case.
- `context.Context`, the cancel function and closing the channel are boolean fields (`cancelled`, `closed`). `ctx.Err()` is the `Canceled` error.
- Error wrapping and error text (`erero.New`, `erero.Wro`) are not modelled. Each failure is one `Error` constructor.
- The panic in `must.Nice` on an empty format is not modelled. Constructors require a non-empty format instead.
- The error branches after `NewConfigWatcher` and `NewStaticWatcher` are not modelled. Both functions always return a nil error, so those branches cannot run. `DataSource.Watch` fails only with RepeatWatch, and `DataStatic.Watch` never fails.
- The `config.Watcher` interface is not modelled. The watcher objects are returned as their own classes.
- The host framework is not part of this model: `config.New`, its `Load`, `Watch` callbacks, `Scan`, and decoding. The tests only exercise the sources through that framework. The JSON and YAML encoders that build the test blobs are not part of this model either. Blobs are opaque byte sequences.
- Nothing models "N updates, then N Nexts". With a one-slot channel, the second `update` blocks until a `Next` runs. The model instead proves delivery in order over every call sequence that returns (`DeliveredInOrder`) and over strict alternation (`AlternatingDeliversAll`).
- Silent loss after `Stop` is allowed by the code. `Stop` leaves a buffered blob in the slot. A `Next` on the cancelled watcher may report `Canceled` even though the blob is still there. `DeliveredInOrder` counts that blob as still buffered, and nothing promises it is ever delivered.
- A repeated static `Stop` always succeeds in the code. Calling the cancel function again is harmless. `StaticWatcher.Stop` is modelled that way.
