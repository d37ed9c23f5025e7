/** The updatable source (`DataSource`) and its watcher (`ConfigWatcher`).

    The pure part states the lifecycle as functions on values: a watcher is
    active until stopped, holds at most one pending blob in its hand-off slot,
    and is cancelled exactly when it is no longer watching. The classes below
    hold the same state in fields and are proved to follow those functions.

    A call that would block in Go (update into a full slot, Next
    on an empty slot before cancellation) is excluded by a precondition. */
module DynamicSource {
  import opened ConfigCommon

  /** The observable state of a watcher. `slot` is the buffered channel
      (capacity one); `cancelled` is the context, `closed` the channel. */
  datatype WatcherState = WatcherState(
    format: string,
    slot: seq<Blob>,
    isWatching: bool,
    cancelled: bool,
    closed: bool)

  predicate WatcherInv(w: WatcherState) {
    && w.format != ""
    && |w.slot| <= 1
    && w.cancelled == !w.isWatching
    && w.closed == !w.isWatching
  }

  /** A freshly created watcher: active, nothing buffered. */
  function NewWatcher(format: string): (w: WatcherState)
    requires format != ""
    ensures WatcherInv(w) && w.format == format
    ensures w.isWatching && !w.cancelled && w.slot == []
  {
    WatcherState(format, [], true, false, false)
  }

  /** `update` waits for room in the slot while the watcher is active. */
  predicate UpdateBlocks(w: WatcherState) {
    w.isWatching && |w.slot| == 1
  }

  /** `update`: refused once stopped, otherwise the blob goes into the slot. */
  function WatcherUpdate(w: WatcherState, data: Blob): (r: (Status, WatcherState))
    requires WatcherInv(w) && !UpdateBlocks(w)
    ensures WatcherInv(r.1)
    ensures r.0 == Ok <==> w.isWatching
    ensures r.0 == Ok ==> w.slot == [] && r.1 == w.(slot := [data])
    ensures r.0 != Ok ==> r.0 == Fail(UpdateAfterStop) && r.1 == w
  {
    if !w.isWatching then (Fail(UpdateAfterStop), w)
    else (Ok, w.(slot := w.slot + [data]))
  }

  /** `Next` waits while nothing is buffered and the watcher is not cancelled. */
  predicate NextBlocks(w: WatcherState) {
    !w.cancelled && w.slot == []
  }

  /** `Next`. When the watcher is cancelled and a blob is still buffered, both
      cases of Go's `select` are ready and either may be taken;
      `takeData` is that choice. Receiving from the closed, drained channel
      reports cancellation just as the context does. */
  function WatcherNext(w: WatcherState, takeData: bool): (r: (Result<seq<KeyValue>>, WatcherState))
    requires WatcherInv(w) && !NextBlocks(w)
    ensures WatcherInv(r.1)
    ensures r.0.Success? ==>
              && w.slot != []
              && r.0.value == SingleRecord(w.slot[0], w.format)
              && r.1 == w.(slot := [])
    ensures r.0.Failure? ==> r.0.error == Canceled && w.cancelled && r.1 == w
    ensures !w.cancelled ==> r.0.Success?
    ensures w.cancelled && w.slot == [] ==> r.0 == Failure(Canceled)
  {
    if w.slot != [] && (!w.cancelled || takeData) then
      (Success(SingleRecord(w.slot[0], w.format)), w.(slot := w.slot[1..]))
    else
      (Failure(Canceled), w)
  }

  /** `Stop`: one-shot; it cancels the context and closes the channel but
      leaves a buffered blob where it is. */
  function WatcherStop(w: WatcherState): (r: (Status, WatcherState))
    requires WatcherInv(w)
    ensures WatcherInv(r.1) && !r.1.isWatching && r.1.cancelled && r.1.closed
    ensures r.1.format == w.format && r.1.slot == w.slot
    ensures r.0 == Ok <==> w.isWatching
    ensures r.0 != Ok ==> r.0 == Fail(StopAfterStop) && r.1 == w
  {
    if !w.isWatching then (Fail(StopAfterStop), w)
    else (Ok, w.(isWatching := false, cancelled := true, closed := true))
  }

  /** The observable state of a source: its blob, its format tag and the
      watcher it handed out, if any. */
  datatype SourceState = SourceState(data: Blob, format: string, watcher: Option<WatcherState>)

  /** The stored watcher is well formed and carries the source's format. */
  predicate SourceInv(s: SourceState) {
    && s.format != ""
    && (s.watcher.Some? ==> WatcherInv(s.watcher.value) && s.watcher.value.format == s.format)
  }

  function NewSource(data: Blob, format: string): (s: SourceState)
    requires format != ""
    ensures SourceInv(s)
    ensures s.data == data && s.format == format && s.watcher.None?
  {
    SourceState(data, format, None)
  }

  function NewJsonSource(data: Blob): (s: SourceState)
    ensures SourceInv(s)
    ensures s.data == data && s.format == JsonFormat && s.watcher.None?
  {
    NewSource(data, JsonFormat)
  }

  function NewYamlSource(data: Blob): (s: SourceState)
    ensures SourceInv(s)
    ensures s.data == data && s.format == YamlFormat && s.watcher.None?
  {
    NewSource(data, YamlFormat)
  }

  /** `Load` never fails and reports the construction blob. */
  function SourceLoad(s: SourceState): (r: Result<seq<KeyValue>>)
    ensures r.Success? && |r.value| == 1
    ensures r.value[0] == KeyValue(ConfigKey, s.data, s.format)
  {
    Success(SingleRecord(s.data, s.format))
  }

  /** `Watch` succeeds once; afterwards it is refused and changes nothing. */
  function SourceWatch(s: SourceState): (r: (Status, SourceState))
    requires SourceInv(s)
    ensures SourceInv(r.1) && r.1.data == s.data && r.1.format == s.format
    ensures r.0 == Ok <==> s.watcher.None?
    ensures r.0 == Ok ==>
              && r.1.watcher.Some?
              && r.1.watcher.value == NewWatcher(s.format)
              && r.1.watcher.value.isWatching && r.1.watcher.value.slot == []
    ensures r.0 != Ok ==> r.0 == Fail(RepeatWatch) && r.1 == s
  {
    if s.watcher.Some? then (Fail(RepeatWatch), s)
    else (Ok, s.(watcher := Some(NewWatcher(s.format))))
  }

  predicate SourceUpdateBlocks(s: SourceState) {
    s.watcher.Some? && UpdateBlocks(s.watcher.value)
  }

  /** `Update`: refused before any Watch, otherwise handed to the watcher.
      It never touches the source's own blob. */
  function SourceUpdate(s: SourceState, data: Blob): (r: (Status, SourceState))
    requires SourceInv(s) && !SourceUpdateBlocks(s)
    ensures SourceInv(r.1) && r.1.data == s.data && r.1.format == s.format
    ensures s.watcher.None? ==> r == (Fail(NotWatching), s)
    ensures s.watcher.Some? ==>
              && r.1.watcher.Some?
              && (r.0 == Ok <==> s.watcher.value.isWatching)
              && (r.0 == Ok ==> r.1.watcher.value == s.watcher.value.(slot := [data]))
              && (r.0 != Ok ==> r.0 == Fail(UpdateAfterStop) && r.1 == s)
  {
    if s.watcher.None? then (Fail(NotWatching), s)
    else
      var u := WatcherUpdate(s.watcher.value, data);
      (u.0, s.(watcher := Some(u.1)))
  }

  /** The watcher object: the same state held in fields. */
  class ConfigWatcher {
    const format: string
    var slot: seq<Blob>
    var isWatching: bool
    var cancelled: bool
    var closed: bool

    function State(): WatcherState
      reads this
    {
      WatcherState(format, slot, isWatching, cancelled, closed)
    }

    predicate Valid()
      reads this
    {
      WatcherInv(State())
    }

    constructor (format: string)
      requires format != ""
      ensures Valid() && State() == NewWatcher(format)
    {
      this.format := format;
      slot := [];
      isWatching := true;
      cancelled := false;
      closed := false;
    }

    method update(data: Blob) returns (status: Status)
      requires Valid() && !UpdateBlocks(State())
      modifies this
      ensures Valid()
      ensures (status, State()) == WatcherUpdate(old(State()), data)
    {
      if !isWatching {
        return Fail(UpdateAfterStop);
      }
      slot := slot + [data];
      status := Ok;
    }

    /** Either ready case of Go's `select` is allowed. */
    method Next() returns (result: Result<seq<KeyValue>>)
      requires Valid() && !NextBlocks(State())
      modifies this
      ensures Valid()
      ensures || (result, State()) == WatcherNext(old(State()), true)
              || (result, State()) == WatcherNext(old(State()), false)
    {
      if cancelled {
        return Failure(Canceled);
      }
      var data := slot[0];
      slot := slot[1..];
      result := Success(SingleRecord(data, format));
    }

    method Stop() returns (status: Status)
      requires Valid()
      modifies this
      ensures Valid()
      ensures (status, State()) == WatcherStop(old(State()))
    {
      if !isWatching {
        return Fail(StopAfterStop);
      }
      isWatching := false;
      cancelled := true;
      closed := true;
      status := Ok;
    }
  }

  /** The source object: its blob and format never change; its watcher is
      created by the first Watch. */
  class DataSource {
    const data: Blob
    const format: string
    var watcher: ConfigWatcher?

    function Abstract(): SourceState
      reads this, watcher
    {
      SourceState(data, format, if watcher == null then None else Some(watcher.State()))
    }

    predicate Valid()
      reads this, watcher
    {
      SourceInv(Abstract())
    }

    constructor (data: Blob, format: string)
      requires format != ""
      ensures Valid() && Abstract() == NewSource(data, format)
    {
      this.data := data;
      this.format := format;
      watcher := null;
    }

    constructor Json(data: Blob)
      ensures Valid() && Abstract() == NewJsonSource(data)
    {
      this.data := data;
      format := JsonFormat;
      watcher := null;
    }

    constructor Yaml(data: Blob)
      ensures Valid() && Abstract() == NewYamlSource(data)
    {
      this.data := data;
      format := YamlFormat;
      watcher := null;
    }

    function Load(): (r: Result<seq<KeyValue>>)
      reads this
      ensures r.Success? && |r.value| == 1
      ensures r.value[0] == KeyValue(ConfigKey, data, format)
    {
      Success(SingleRecord(data, format))
    }

    method Watch() returns (w: ConfigWatcher?, status: Status)
      requires Valid()
      modifies this
      ensures Valid()
      ensures (status, Abstract()) == SourceWatch(old(Abstract()))
      ensures status == Ok ==> w != null && w == watcher && fresh(w)
      ensures status != Ok ==> w == null && watcher == old(watcher)
    {
      if watcher != null {
        return null, Fail(RepeatWatch);
      }
      w := new ConfigWatcher(format);
      watcher := w;
      status := Ok;
    }

    method Update(data: Blob) returns (status: Status)
      requires Valid() && !SourceUpdateBlocks(Abstract())
      modifies watcher
      ensures Valid()
      ensures (status, Abstract()) == SourceUpdate(old(Abstract()), data)
    {
      if watcher == null {
        return Fail(NotWatching);
      }
      status := watcher.update(data);
    }
  }
}
