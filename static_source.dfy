/** The read-only source (`DataStatic`) and its watcher (`StaticWatcher`),
    which never yields data and only waits for its own cancellation. */
module StaticSource {
  import opened ConfigCommon

  /** A source that only ever reports its construction blob. */
  datatype DataStatic = DataStatic(data: Blob, format: string) {

    /** `Load` never fails and reports the construction blob. */
    function Load(): (r: Result<seq<KeyValue>>)
      ensures r.Success? && |r.value| == 1
      ensures r.value[0] == KeyValue(ConfigKey, data, format)
    {
      Success(SingleRecord(data, format))
    }

    /** `Watch` never fails; every call makes a new, independent watcher. */
    method Watch() returns (w: StaticWatcher, status: Status)
      ensures fresh(w) && !w.cancelled
      ensures status == Ok
    {
      w := new StaticWatcher();
      status := Ok;
    }
  }

  function NewDataStatic(data: Blob, format: string): (s: DataStatic)
    requires format != ""
    ensures s.format != ""
    ensures s.Load() == Success([KeyValue(ConfigKey, data, format)])
  {
    DataStatic(data, format)
  }

  function NewJsonStatic(data: Blob): (s: DataStatic)
    ensures s.format == JsonFormat
    ensures s.Load() == Success([KeyValue(ConfigKey, data, JsonFormat)])
  {
    NewDataStatic(data, JsonFormat)
  }

  function NewYamlStatic(data: Blob): (s: DataStatic)
    ensures s.format == YamlFormat
    ensures s.Load() == Success([KeyValue(ConfigKey, data, YamlFormat)])
  {
    NewDataStatic(data, YamlFormat)
  }

  /** A call on a static watcher. */
  datatype WatcherCall = NextCall | StopCall

  datatype WatcherReply =
    | NextReply(result: Result<seq<KeyValue>>)
    | StopReply(status: Status)

  /** One call on a watcher whose context is `cancelled`; None when the call
      does not return (Next before cancellation). */
  function StaticStep(cancelled: bool, c: WatcherCall): (r: Option<(WatcherReply, bool)>)
    ensures c == NextCall ==> (r.Some? <==> cancelled)
    ensures c == NextCall && r.Some? ==> r.value == (NextReply(Failure(Canceled)), true)
    ensures c == StopCall ==> r == Some((StopReply(Ok), true))
  {
    match c
    case NextCall => if cancelled then Some((NextReply(Failure(Canceled)), true)) else None
    case StopCall => Some((StopReply(Ok), true))
  }

  /** The calls one after the other; None when one of them does not return. */
  function StaticRun(cancelled: bool, calls: seq<WatcherCall>): (r: Option<(seq<WatcherReply>, bool)>)
    ensures r.Some? ==> |r.value.0| == |calls|
    decreases |calls|
  {
    if calls == [] then Some(([], cancelled))
    else
      var first := StaticStep(cancelled, calls[0]);
      if first.None? then None
      else
        var rest := StaticRun(first.value.1, calls[1..]);
        if rest.None? then None
        else Some(([first.value.0] + rest.value.0, rest.value.1))
  }

  /** Over any calls on a static watcher: no reply ever carries a record,
      every Stop succeeds, every Next that returns reports Canceled and comes
      after a Stop (or after cancellation), and the watcher ends cancelled
      exactly when it was or some Stop ran. */
  lemma {:induction false} StaticNeverYields(cancelled: bool, calls: seq<WatcherCall>)
    requires StaticRun(cancelled, calls).Some?
    ensures var r := StaticRun(cancelled, calls).value;
              forall i :: 0 <= i < |calls| ==>
                r.0[i] == (if calls[i] == NextCall then NextReply(Failure(Canceled)) else StopReply(Ok))
    ensures forall i :: 0 <= i < |calls| && calls[i] == NextCall ==>
              cancelled || StopCall in calls[..i]
    ensures StaticRun(cancelled, calls).value.1 == (cancelled || StopCall in calls)
    decreases |calls|
  {
    if calls != [] {
      var first := StaticStep(cancelled, calls[0]).value;
      StaticNeverYields(first.1, calls[1..]);
      var r := StaticRun(cancelled, calls).value;
      assert r.0[1..] == StaticRun(first.1, calls[1..]).value.0;
      assert calls == [calls[0]] + calls[1..];
      forall i | 0 < i < |calls|
        ensures r.0[i] == (if calls[i] == NextCall then NextReply(Failure(Canceled)) else StopReply(Ok))
        ensures calls[i] == NextCall ==> cancelled || StopCall in calls[..i]
      {
        assert calls[1..][i - 1] == calls[i];
        assert calls[..i] == [calls[0]] + calls[1..][..i - 1];
      }
    }
  }

  /** A watcher whose only state is whether its context was cancelled. */
  class StaticWatcher {
    var cancelled: bool

    constructor ()
      ensures !cancelled
    {
      cancelled := false;
    }

    /** `Next` waits for cancellation, so it returns only once cancelled, and
        then reports Canceled without any record. */
    method Next() returns (result: Result<seq<KeyValue>>)
      requires cancelled
      ensures result == Failure(Canceled)
      ensures StaticStep(cancelled, NextCall) == Some((NextReply(result), cancelled))
    {
      result := Failure(Canceled);
    }

    /** `Stop` cancels the context; calling it again is harmless. */
    method Stop() returns (status: Status)
      modifies this
      ensures cancelled && status == Ok
      ensures StaticStep(old(cancelled), StopCall) == Some((StopReply(status), cancelled))
    {
      cancelled := true;
      status := Ok;
    }
  }
}
