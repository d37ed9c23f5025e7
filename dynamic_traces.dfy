/** Sequences of calls on an updatable source and its watcher, and the
    properties that hold over every such sequence: the loaded blob never
    changes, Watch succeeds at most once, a stopped watcher stays stopped,
    and blobs come out of Next in the order Update accepted them, none lost. */
module DynamicTraces {
  import opened ConfigCommon
  import opened DynamicSource

  /** A call by the host framework or the application. Next and Stop go to
      the watcher the source holds. */
  datatype Call =
    | LoadCall
    | WatchCall
    | UpdateCall(data: Blob)
    | NextCall(takeData: bool)
    | StopCall

  datatype Reply =
    | Records(result: Result<seq<KeyValue>>)
    | Done(status: Status)

  /** The call returns in this state: it does not block, and a watcher
      exists when the call goes to the watcher. */
  predicate Returns(s: SourceState, c: Call) {
    match c
    case LoadCall => true
    case WatchCall => true
    case UpdateCall(_) => !SourceUpdateBlocks(s)
    case NextCall(_) => s.watcher.Some? && !NextBlocks(s.watcher.value)
    case StopCall => s.watcher.Some?
  }

  /** One call; None when the call does not return. */
  function Step(s: SourceState, c: Call): (r: Option<(Reply, SourceState)>)
    requires SourceInv(s)
    ensures r.Some? <==> Returns(s, c)
    ensures r.Some? ==> SourceInv(r.value.1)
  {
    if !Returns(s, c) then None
    else match c
      case LoadCall => Some((Records(SourceLoad(s)), s))
      case WatchCall =>
        var u := SourceWatch(s);
        Some((Done(u.0), u.1))
      case UpdateCall(d) =>
        var u := SourceUpdate(s, d);
        Some((Done(u.0), u.1))
      case NextCall(takeData) =>
        var u := WatcherNext(s.watcher.value, takeData);
        Some((Records(u.0), s.(watcher := Some(u.1))))
      case StopCall =>
        var u := WatcherStop(s.watcher.value);
        Some((Done(u.0), s.(watcher := Some(u.1))))
  }

  /** The calls one after the other; None when one of them does not return. */
  function Run(s: SourceState, calls: seq<Call>): (r: Option<(seq<Reply>, SourceState)>)
    requires SourceInv(s)
    ensures r.Some? ==> |r.value.0| == |calls| && SourceInv(r.value.1)
    decreases |calls|
  {
    if calls == [] then Some(([], s))
    else
      var first := Step(s, calls[0]);
      if first.None? then None
      else
        var rest := Run(first.value.1, calls[1..]);
        if rest.None? then None
        else Some(([first.value.0] + rest.value.0, rest.value.1))
  }

  /** The blobs one call hands out: those of a successful Next. */
  function DeliveredBy(c: Call, rep: Reply): seq<Blob> {
    if c.NextCall? && rep.Records? && rep.result.Success? then Values(rep.result.value) else []
  }

  /** The blob one call hands in: that of a successful Update. */
  function AcceptedBy(c: Call, rep: Reply): seq<Blob> {
    if c.UpdateCall? && rep == Done(Ok) then [c.data] else []
  }

  /** The blobs handed out by successful Next calls, in order. */
  function Delivered(calls: seq<Call>, replies: seq<Reply>): seq<Blob>
    requires |calls| == |replies|
  {
    if calls == [] then [] else DeliveredBy(calls[0], replies[0]) + Delivered(calls[1..], replies[1..])
  }

  /** The blobs of Update calls that succeeded, in order. */
  function Accepted(calls: seq<Call>, replies: seq<Reply>): seq<Blob>
    requires |calls| == |replies|
  {
    if calls == [] then [] else AcceptedBy(calls[0], replies[0]) + Accepted(calls[1..], replies[1..])
  }

  /** Update then Next, once per blob; `picks` are the select choices. */
  function Alternate(ds: seq<Blob>, picks: seq<bool>): seq<Call>
    requires |picks| == |ds|
  {
    if ds == [] then []
    else [UpdateCall(ds[0]), NextCall(picks[0])] + Alternate(ds[1..], picks[1..])
  }

  /** A non-empty run is its first step followed by the run of the rest. */
  lemma RunCons(s: SourceState, calls: seq<Call>)
    requires SourceInv(s) && calls != [] && Run(s, calls).Some?
    ensures Step(s, calls[0]).Some?
    ensures Run(Step(s, calls[0]).value.1, calls[1..]).Some?
    ensures Run(s, calls).value.0 ==
              [Step(s, calls[0]).value.0] + Run(Step(s, calls[0]).value.1, calls[1..]).value.0
    ensures Run(s, calls).value.1 == Run(Step(s, calls[0]).value.1, calls[1..]).value.1
  {
  }

  /** Load reports the construction blob after any sequence of calls,
      including any number of Updates. */
  lemma {:induction false} LoadUnchangedByRun(s: SourceState, calls: seq<Call>)
    requires SourceInv(s) && Run(s, calls).Some?
    ensures SourceLoad(Run(s, calls).value.1) == SourceLoad(s)
    decreases |calls|
  {
    if calls != [] {
      RunCons(s, calls);
      var s1 := Step(s, calls[0]).value.1;
      assert s1.data == s.data && s1.format == s.format;
      LoadUnchangedByRun(s1, calls[1..]);
    }
  }

  /** Once watched, a source stays watched and every later Watch is refused
      with RepeatWatch. */
  lemma {:induction false} WatchSucceedsOnce(s: SourceState, calls: seq<Call>)
    requires SourceInv(s) && s.watcher.Some? && Run(s, calls).Some?
    ensures Run(s, calls).value.1.watcher.Some?
    ensures forall i :: 0 <= i < |calls| && calls[i] == WatchCall ==>
              Run(s, calls).value.0[i] == Done(Fail(RepeatWatch))
    decreases |calls|
  {
    if calls != [] {
      RunCons(s, calls);
      var s1 := Step(s, calls[0]).value.1;
      WatchSucceedsOnce(s1, calls[1..]);
      forall i | 0 < i < |calls| && calls[i] == WatchCall
        ensures Run(s, calls).value.0[i] == Done(Fail(RepeatWatch))
      {
        assert calls[1..][i - 1] == calls[i];
      }
    }
  }

  /** A stopped watcher stays stopped: every later Update and Stop is
      refused and nothing more is accepted. */
  lemma {:induction false} StoppedStaysStopped(s: SourceState, calls: seq<Call>)
    requires SourceInv(s) && s.watcher.Some? && !s.watcher.value.isWatching
    requires Run(s, calls).Some?
    ensures var t := Run(s, calls).value.1;
              t.watcher.Some? && !t.watcher.value.isWatching && t.watcher.value.cancelled
    ensures forall i :: 0 <= i < |calls| && calls[i].UpdateCall? ==>
              Run(s, calls).value.0[i] == Done(Fail(UpdateAfterStop))
    ensures forall i :: 0 <= i < |calls| && calls[i] == StopCall ==>
              Run(s, calls).value.0[i] == Done(Fail(StopAfterStop))
    ensures Accepted(calls, Run(s, calls).value.0) == []
    decreases |calls|
  {
    if calls != [] {
      RunCons(s, calls);
      var s1 := Step(s, calls[0]).value.1;
      StoppedStaysStopped(s1, calls[1..]);
      var replies := Run(s, calls).value.0;
      assert replies[1..] == Run(s1, calls[1..]).value.0;
      assert AcceptedBy(calls[0], replies[0]) == [];
      forall i | 0 < i < |calls|
        ensures calls[i].UpdateCall? ==> replies[i] == Done(Fail(UpdateAfterStop))
        ensures calls[i] == StopCall ==> replies[i] == Done(Fail(StopAfterStop))
      {
        assert calls[1..][i - 1] == calls[i];
      }
    }
  }

  /** After Stop, Next hands out at most the blob that was buffered when
      the watcher stopped. */
  lemma StoppedDeliversOnlyBuffered(s: SourceState, calls: seq<Call>)
    requires SourceInv(s) && s.watcher.Some? && !s.watcher.value.isWatching
    requires Run(s, calls).Some?
    ensures Delivered(calls, Run(s, calls).value.0) <= s.watcher.value.slot
  {
    var r := Run(s, calls).value;
    StoppedStaysStopped(s, calls);
    DeliveredInOrder(s, calls);
    var q, d := s.watcher.value.slot, Delivered(calls, r.0);
    assert q + [] == q;
    assert q == d + r.1.watcher.value.slot;
    assert q[..|d|] == d;
  }

  /** One call keeps the balance between the slot, what goes in and what
      comes out. */
  lemma StepBalance(s: SourceState, c: Call)
    requires SourceInv(s) && s.watcher.Some? && Step(s, c).Some?
    ensures var r := Step(s, c).value;
              && r.1.watcher.Some?
              && s.watcher.value.slot + AcceptedBy(c, r.0) == DeliveredBy(c, r.0) + r.1.watcher.value.slot
  {
  }

  /** Two balanced steps make a balanced whole. */
  lemma Rebalance(q: seq<Blob>, a0: seq<Blob>, ar: seq<Blob>, d0: seq<Blob>, q1: seq<Blob>, dr: seq<Blob>, qt: seq<Blob>)
    requires q + a0 == d0 + q1 && q1 + ar == dr + qt
    ensures q + (a0 + ar) == (d0 + dr) + qt
  {
    calc {
      q + (a0 + ar);
      (q + a0) + ar;
      (d0 + q1) + ar;
      d0 + (q1 + ar);
      d0 + (dr + qt);
      (d0 + dr) + qt;
    }
  }

  /** No blob is lost or reordered: what was buffered plus what Update
      accepted equals what Next delivered plus what is still buffered. */
  lemma {:induction false} DeliveredInOrder(s: SourceState, calls: seq<Call>)
    requires SourceInv(s) && s.watcher.Some? && Run(s, calls).Some?
    ensures var r := Run(s, calls).value;
              && r.1.watcher.Some?
              && s.watcher.value.slot + Accepted(calls, r.0) == Delivered(calls, r.0) + r.1.watcher.value.slot
    decreases |calls|
  {
    if calls != [] {
      RunCons(s, calls);
      var first := Step(s, calls[0]).value;
      StepBalance(s, calls[0]);
      DeliveredInOrder(first.1, calls[1..]);
      var replies := Run(s, calls).value.0;
      var t := Run(s, calls).value.1;
      assert replies[0] == first.0 && replies[1..] == Run(first.1, calls[1..]).value.0;
      var q, q1, qt := s.watcher.value.slot, first.1.watcher.value.slot, t.watcher.value.slot;
      var a0, d0 := AcceptedBy(calls[0], first.0), DeliveredBy(calls[0], first.0);
      var ar, dr := Accepted(calls[1..], replies[1..]), Delivered(calls[1..], replies[1..]);
      assert Accepted(calls, replies) == a0 + ar && Delivered(calls, replies) == d0 + dr;
      Rebalance(q, a0, ar, d0, q1, dr, qt);
    }
  }

  /** Accepted distributes over concatenated runs. */
  lemma {:induction false} AcceptedAppend(c1: seq<Call>, r1: seq<Reply>, c2: seq<Call>, r2: seq<Reply>)
    requires |c1| == |r1| && |c2| == |r2|
    ensures Accepted(c1 + c2, r1 + r2) == Accepted(c1, r1) + Accepted(c2, r2)
    decreases |c1|
  {
    if c1 == [] {
      assert c1 + c2 == c2 && r1 + r2 == r2;
    } else {
      var c, r := c1 + c2, r1 + r2;
      assert c[0] == c1[0] && r[0] == r1[0];
      assert c[1..] == c1[1..] + c2 && r[1..] == r1[1..] + r2;
      AcceptedAppend(c1[1..], r1[1..], c2, r2);
      var h := AcceptedBy(c1[0], r1[0]);
      assert Accepted(c, r) == h + (Accepted(c1[1..], r1[1..]) + Accepted(c2, r2));
      assert h + (Accepted(c1[1..], r1[1..]) + Accepted(c2, r2))
          == (h + Accepted(c1[1..], r1[1..])) + Accepted(c2, r2);
    }
  }

  /** Delivered distributes over concatenated runs. */
  lemma {:induction false} DeliveredAppend(c1: seq<Call>, r1: seq<Reply>, c2: seq<Call>, r2: seq<Reply>)
    requires |c1| == |r1| && |c2| == |r2|
    ensures Delivered(c1 + c2, r1 + r2) == Delivered(c1, r1) + Delivered(c2, r2)
    decreases |c1|
  {
    if c1 == [] {
      assert c1 + c2 == c2 && r1 + r2 == r2;
    } else {
      var c, r := c1 + c2, r1 + r2;
      assert c[0] == c1[0] && r[0] == r1[0];
      assert c[1..] == c1[1..] + c2 && r[1..] == r1[1..] + r2;
      DeliveredAppend(c1[1..], r1[1..], c2, r2);
      var h := DeliveredBy(c1[0], r1[0]);
      assert Delivered(c, r) == h + (Delivered(c1[1..], r1[1..]) + Delivered(c2, r2));
      assert h + (Delivered(c1[1..], r1[1..]) + Delivered(c2, r2))
          == (h + Delivered(c1[1..], r1[1..])) + Delivered(c2, r2);
    }
  }

  /** A step that returns, followed by a run that returns. */
  lemma RunPrepend(s: SourceState, c: Call, cs: seq<Call>)
    requires SourceInv(s) && Step(s, c).Some? && Run(Step(s, c).value.1, cs).Some?
    ensures Run(s, [c] + cs) ==
              Some(([Step(s, c).value.0] + Run(Step(s, c).value.1, cs).value.0, Run(Step(s, c).value.1, cs).value.1))
  {
  }

  /** An Update followed by a Next on an active, empty watcher hands the
      blob straight back and restores the state, whatever runs after. */
  lemma UpdateThenNext(s: SourceState, d: Blob, pick: bool, rest: seq<Call>)
    requires SourceInv(s) && s.watcher.Some?
    requires s.watcher.value.isWatching && s.watcher.value.slot == []
    requires Run(s, rest).Some?
    ensures Run(s, [UpdateCall(d), NextCall(pick)] + rest) ==
              Some(([Done(Ok), Records(Success(SingleRecord(d, s.format)))] + Run(s, rest).value.0,
                    Run(s, rest).value.1))
  {
    var w := s.watcher.value;
    var s1 := s.(watcher := Some(w.(slot := [d])));
    var r := Records(Success(SingleRecord(d, s.format)));
    var tail := Run(s, rest).value;
    assert Step(s, UpdateCall(d)) == Some((Done(Ok), s1));
    assert Step(s1, NextCall(pick)) == Some((r, s));
    RunPrepend(s1, NextCall(pick), rest);
    RunPrepend(s, UpdateCall(d), [NextCall(pick)] + rest);
    assert [UpdateCall(d)] + ([NextCall(pick)] + rest) == [UpdateCall(d), NextCall(pick)] + rest;
    assert [Done(Ok)] + ([r] + tail.0) == [Done(Ok), r] + tail.0;
  }

  /** Alternating Update and Next on an active watcher always returns,
      accepts every blob, delivers each one in order and ends where it began. */
  lemma {:induction false} AlternatingDeliversAll(s: SourceState, ds: seq<Blob>, picks: seq<bool>)
    requires SourceInv(s) && s.watcher.Some?
    requires s.watcher.value.isWatching && s.watcher.value.slot == []
    requires |picks| == |ds|
    ensures Run(s, Alternate(ds, picks)).Some?
    ensures var r := Run(s, Alternate(ds, picks)).value;
              && r.1 == s
              && Accepted(Alternate(ds, picks), r.0) == ds
              && Delivered(Alternate(ds, picks), r.0) == ds
    decreases |ds|
  {
    if ds != [] {
      var head := [UpdateCall(ds[0]), NextCall(picks[0])];
      var rest := Alternate(ds[1..], picks[1..]);
      AlternatingDeliversAll(s, ds[1..], picks[1..]);
      UpdateThenNext(s, ds[0], picks[0], rest);
      var hr := [Done(Ok), Records(Success(SingleRecord(ds[0], s.format)))];
      var tr := Run(s, rest).value.0;
      AcceptedAppend(head, hr, rest, tr);
      DeliveredAppend(head, hr, rest, tr);
      assert Accepted(head, hr) == [ds[0]];
      assert Delivered(head, hr) == [ds[0]];
      assert ds == [ds[0]] + ds[1..];
    }
  }
}
