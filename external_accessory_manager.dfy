/**
 * Sources/AsyncExternalAccessory/ExternalAccessoryManager.swift: the session
 * registry. The actor keeps a dictionary from accessory to the pair of stream
 * actors of its open session, asks its delegate whether to open a session for
 * an arriving accessory, and routes writes to the right output stream.
 *
 * Each actor method is modelled as one atomic step of a class. The
 * collaborators enter as oracle parameters: the delegate's answer to
 * `shouldOpenSession`, the result of the accessory's `getStreams()` and the
 * result of the output stream actor's `write`. The calls the manager makes to
 * its delegate and to `getStreams` are recorded, in order, in `trace`.
 */
module Manager {
  import opened Wrappers
  import AccessoryProtocol
  import Mockable

  type MockableAccessory = Mockable.MockableAccessory
  type AccessoryKey = Mockable.AccessoryKey
  type DuplexStream = AccessoryProtocol.DuplexStream

  /** `ExternalAccessoryManagerError`. */
  datatype ExternalAccessoryManagerError = UnknownAccessory | StreamNotOpen

  /** What `write` throws: one of the manager's errors, or what the output stream's write threw. */
  datatype WriteError = ManagerError(error: ExternalAccessoryManagerError) | StreamError(reason: string)

  /** `Data`: the bytes to write. */
  type Data = seq<bv8>

  /** The actor that bridges an InputStream (from the AsyncStream package), by the stream it wraps. */
  datatype InputStreamActor = InputStreamActor(stream: AccessoryProtocol.InputStream)

  /** The actor that bridges an OutputStream (from the AsyncStream package), by the stream it wraps. */
  datatype OutputStreamActor = OutputStreamActor(stream: AccessoryProtocol.OutputStream)

  /** `AsyncStreamPair`: the stream actors of one open session, each optional. */
  datatype AsyncStreamPair = AsyncStreamPair(input: Option<InputStreamActor>, output: Option<OutputStreamActor>)

  /** `input.getReadDataStream()`: the stream of data read through an input actor. */
  datatype ReadDataStream = ReadDataStream(source: InputStreamActor)

  /** `output.getSpaceAvailableStream()`: the write-readiness stream of an output actor. */
  datatype WriteReadyStream = WriteReadyStream(sink: OutputStreamActor)

  /** The delegate object, by identity. */
  datatype Delegate = Delegate(id: nat)

  /** A call from the manager to one of its collaborators. */
  datatype Event =
    | ShouldOpenSession(accessory: MockableAccessory)
    | GetStreams(accessory: MockableAccessory)
    | SessionDidOpen(accessory: MockableAccessory, writeReadyStream: Option<WriteReadyStream>,
                     readDataStream: Option<ReadDataStream>)

  /** What `output.write(data)` returns or throws, for each output actor and data. */
  type OutputWrite = (OutputStreamActor, Data) -> Result<int, string>

  /** `openSession`: wraps each raw half that exists in a stream actor; nil when `getStreams` is. */
  function OpenSession(raw: Option<DuplexStream>): (r: Option<AsyncStreamPair>)
    ensures r.None? <==> raw.None?
    ensures r.Some? ==> (r.value.input.Some? <==> raw.value.input.Some?)
    ensures r.Some? ==> (r.value.output.Some? <==> raw.value.output.Some?)
    ensures RawHalves(r) == raw
  {
    if raw.None? then None
    else
      var input := if raw.value.input.Some? then Some(InputStreamActor(raw.value.input.value)) else None;
      var output := if raw.value.output.Some? then Some(OutputStreamActor(raw.value.output.value)) else None;
      Some(AsyncStreamPair(input, output))
  }

  /** The raw streams a pair of actors wraps. */
  function RawHalves(p: Option<AsyncStreamPair>): Option<DuplexStream>
  {
    match p
    case None => None
    case Some(AsyncStreamPair(input, output)) =>
      Some(AccessoryProtocol.DuplexStream(
        if input.Some? then Some(input.value.stream) else None,
        if output.Some? then Some(output.value.stream) else None))
  }

  /** The read stream handed to the delegate for a session. */
  function ReadDataOf(session: Option<AsyncStreamPair>): Option<ReadDataStream>
  {
    if session.Some? && session.value.input.Some? then Some(ReadDataStream(session.value.input.value)) else None
  }

  /** The write-readiness stream handed to the delegate for a session. */
  function WriteReadyOf(session: Option<AsyncStreamPair>): Option<WriteReadyStream>
  {
    if session.Some? && session.value.output.Some? then Some(WriteReadyStream(session.value.output.value)) else None
  }

  /**
   * The dictionary after `connect`: unchanged unless the delegate accepted;
   * then `map[accessory] = session`, which removes the key when the session is nil.
   */
  function ConnectMap(m: map<AccessoryKey, AsyncStreamPair>, k: AccessoryKey, accepted: bool,
                      raw: Option<DuplexStream>): map<AccessoryKey, AsyncStreamPair>
  {
    if !accepted then m
    else match OpenSession(raw)
      case None => m - {k}
      case Some(p) => m[k := p]
  }

  /** The calls `connect` makes: the policy question when there is a delegate, then, if accepted, the session. */
  function ConnectTrace(hasDelegate: bool, a: MockableAccessory, accepts: bool, raw: Option<DuplexStream>): seq<Event>
  {
    if !hasDelegate then []
    else if !accepts then [ShouldOpenSession(a)]
    else [ShouldOpenSession(a), GetStreams(a),
          SessionDidOpen(a, WriteReadyOf(OpenSession(raw)), ReadDataOf(OpenSession(raw)))]
  }

  /** The result of `write(data, to:)` for the accessory with key `k`. */
  function WriteOutcome(m: map<AccessoryKey, AsyncStreamPair>, k: AccessoryKey, data: Data,
                        write: OutputWrite): Result<int, WriteError>
  {
    if k !in m then Failure(ManagerError(UnknownAccessory))
    else if m[k].output.None? then Failure(ManagerError(StreamNotOpen))
    else match write(m[k].output.value, data)
      case Success(n) => Success(n)
      case Failure(e) => Failure(StreamError(e))
  }

  /** The dictionary after `connect` has run on each accessory of `list` in turn. */
  function ConnectAll(m: map<AccessoryKey, AsyncStreamPair>, hasDelegate: bool, list: seq<MockableAccessory>,
                      accepts: seq<bool>, raws: seq<Option<DuplexStream>>): map<AccessoryKey, AsyncStreamPair>
    requires |accepts| == |list| && |raws| == |list|
    decreases |list|
  {
    if |list| == 0 then m
    else
      var n := |list| - 1;
      ConnectMap(ConnectAll(m, hasDelegate, list[..n], accepts[..n], raws[..n]),
                 Mockable.KeyOf(list[n]), hasDelegate && accepts[n], raws[n])
  }

  /** The calls made while `connect` runs on each accessory of `list` in turn. */
  function TraceAll(hasDelegate: bool, list: seq<MockableAccessory>, accepts: seq<bool>,
                    raws: seq<Option<DuplexStream>>): seq<Event>
    requires |accepts| == |list| && |raws| == |list|
    decreases |list|
  {
    if |list| == 0 then []
    else
      var n := |list| - 1;
      TraceAll(hasDelegate, list[..n], accepts[..n], raws[..n]) + ConnectTrace(hasDelegate, list[n], accepts[n], raws[n])
  }

  /** The accessories reported to `sessionDidOpen`, in the order of the calls. */
  function Opened(trace: seq<Event>): seq<MockableAccessory>
  {
    if |trace| == 0 then []
    else
      var rest := Opened(trace[..|trace| - 1]);
      if trace[|trace| - 1].SessionDidOpen? then rest + [trace[|trace| - 1].accessory] else rest
  }

  /** Event `e` reports the session `p` of the accessory whose key is `k`. */
  predicate ReportsSession(e: Event, k: AccessoryKey, p: AsyncStreamPair)
  {
    && e.SessionDidOpen?
    && Mockable.KeyOf(e.accessory) == k
    && e.writeReadyStream == WriteReadyOf(Some(p))
    && e.readDataStream == ReadDataOf(Some(p))
  }

  /** Some call in `trace` handed session `p` of key `k` to a delegate. */
  ghost predicate Reported(trace: seq<Event>, k: AccessoryKey, p: AsyncStreamPair)
  {
    exists i :: 0 <= i < |trace| && ReportsSession(trace[i], k, p)
  }

  lemma ReportedExtends(trace: seq<Event>, more: seq<Event>, k: AccessoryKey, p: AsyncStreamPair)
    requires Reported(trace, k, p)
    ensures Reported(trace + more, k, p)
  {
    var i :| 0 <= i < |trace| && ReportsSession(trace[i], k, p);
    assert (trace + more)[i] == trace[i];
  }

  /** The actor `ExternalAccessoryManager`. */
  class ExternalAccessoryManager {
    /** The delegate `set` installed, if any. */
    var delegate: Option<Delegate>
    /** The source's `map`: the open session of each accessory, keyed by the accessory's `==` class. */
    var sessions: map<AccessoryKey, AsyncStreamPair>
    /** The calls made to the delegate and to `getStreams`, oldest first. */
    var trace: seq<Event>

    /** Every session in the dictionary was handed to a delegate when it was opened (which one, the trace does not say). */
    ghost predicate Valid()
      reads this
    {
      forall k | k in sessions :: Reported(trace, k, sessions[k])
    }

    constructor ()
      ensures Valid()
      ensures delegate.None? && sessions == map[] && trace == []
    {
      delegate := None;
      sessions := map[];
      trace := [];
    }

    /** `set(_:)`: installs the delegate. */
    method Set(d: Delegate)
      requires Valid()
      modifies this`delegate
      ensures Valid()
      ensures delegate == Some(d)
    {
      delegate := Some(d);
    }

    /**
     * `connect(_:)`: `accepts` is the delegate's answer to `shouldOpenSession`
     * and `raw` what the accessory's `getStreams()` yields.
     */
    method Connect(a: MockableAccessory, accepts: bool, raw: Option<DuplexStream>)
      requires Valid()
      modifies this`sessions, this`trace
      ensures Valid()
      ensures sessions == ConnectMap(old(sessions), Mockable.KeyOf(a), delegate.Some? && accepts, raw)
      ensures trace == old(trace) + ConnectTrace(delegate.Some?, a, accepts, raw)
    {
      if delegate.Some? {
        trace := trace + [ShouldOpenSession(a)];
      }
      if !(delegate.Some? && accepts) {
        forall k | k in sessions
          ensures Reported(trace, k, sessions[k])
        {
          ReportedExtends(old(trace), trace[|old(trace)|..], k, sessions[k]);
          assert old(trace) + trace[|old(trace)|..] == trace;
        }
        return;
      }
      var readData: Option<ReadDataStream> := None;
      var writeReady: Option<WriteReadyStream> := None;
      trace := trace + [GetStreams(a)];
      var session := OpenSession(raw);
      if session.Some? && session.value.input.Some? {
        readData := Some(ReadDataStream(session.value.input.value));
      }
      if session.Some? && session.value.output.Some? {
        writeReady := Some(WriteReadyStream(session.value.output.value));
      }
      var k := Mockable.KeyOf(a);
      if session.Some? {
        sessions := sessions[k := session.value];
      } else {
        sessions := sessions - {k};
      }
      trace := trace + [SessionDidOpen(a, writeReady, readData)];
      forall k' | k' in sessions
        ensures Reported(trace, k', sessions[k'])
      {
        if k' == k {
          assert ReportsSession(trace[|trace| - 1], k', sessions[k']);
        } else {
          ReportedExtends(old(trace), trace[|old(trace)|..], k', sessions[k']);
          assert old(trace) + trace[|old(trace)|..] == trace;
        }
      }
    }

    /** `connectToPresentAccessories(_:)`: `connect` on each accessory of `list` in turn. */
    method ConnectToPresentAccessories(list: seq<MockableAccessory>, accepts: seq<bool>,
                                       raws: seq<Option<DuplexStream>>)
      requires Valid()
      requires |accepts| == |list| && |raws| == |list|
      modifies this`sessions, this`trace
      ensures Valid()
      ensures sessions == ConnectAll(old(sessions), delegate.Some?, list, accepts, raws)
      ensures trace == old(trace) + TraceAll(delegate.Some?, list, accepts, raws)
    {
      var i := 0;
      while i < |list|
        invariant 0 <= i <= |list|
        invariant Valid()
        invariant sessions == ConnectAll(old(sessions), delegate.Some?, list[..i], accepts[..i], raws[..i])
        invariant trace == old(trace) + TraceAll(delegate.Some?, list[..i], accepts[..i], raws[..i])
      {
        Connect(list[i], accepts[i], raws[i]);
        assert list[..i + 1][..i] == list[..i];
        assert accepts[..i + 1][..i] == accepts[..i];
        assert raws[..i + 1][..i] == raws[..i];
        i := i + 1;
      }
      assert list[..i] == list && accepts[..i] == accepts && raws[..i] == raws;
    }

    /** `write(_:to:)`: `write` says what the output stream actor's `write` returns or throws. */
    method Write(data: Data, a: MockableAccessory, write: OutputWrite) returns (r: Result<int, WriteError>)
      ensures r == WriteOutcome(sessions, Mockable.KeyOf(a), data, write)
    {
      var k := Mockable.KeyOf(a);
      if k !in sessions {
        return Failure(ManagerError(UnknownAccessory));
      }
      var streamPair := sessions[k];
      if streamPair.output.None? {
        return Failure(ManagerError(StreamNotOpen));
      }
      var written := write(streamPair.output.value, data);
      match written
      case Success(n) => r := Success(n);
      case Failure(e) => r := Failure(StreamError(e));
    }

    /** `disconnect(_:)`: `map[accessory] = nil`. */
    method Disconnect(a: MockableAccessory)
      requires Valid()
      modifies this`sessions
      ensures Valid()
      ensures sessions == old(sessions) - {Mockable.KeyOf(a)}
    {
      sessions := sessions - {Mockable.KeyOf(a)};
    }
  }

  // Properties of `write`.

  /**
   * `write` fails with UnknownAccessory exactly when the accessory has no
   * entry, and then whatever the output stream would do does not matter.
   */
  lemma WriteUnknownAccessory(m: map<AccessoryKey, AsyncStreamPair>, k: AccessoryKey, data: Data,
                              write: OutputWrite, other: OutputWrite)
    ensures WriteOutcome(m, k, data, write) == Failure(ManagerError(UnknownAccessory)) <==> k !in m
    ensures k !in m ==> WriteOutcome(m, k, data, write) == WriteOutcome(m, k, data, other)
  {
  }

  /**
   * `write` fails with StreamNotOpen exactly when the entry exists but has
   * no output half; the unknown-accessory check comes first.
   */
  lemma WriteStreamNotOpen(m: map<AccessoryKey, AsyncStreamPair>, k: AccessoryKey, data: Data, write: OutputWrite)
    ensures WriteOutcome(m, k, data, write) == Failure(ManagerError(StreamNotOpen)) <==>
              k in m && m[k].output.None?
  {
  }

  /** With an output half, `write` passes on exactly what the output stream's write returns or throws. */
  lemma WriteReachesOutput(m: map<AccessoryKey, AsyncStreamPair>, k: AccessoryKey, data: Data, write: OutputWrite)
    requires k in m && m[k].output.Some?
    ensures write(m[k].output.value, data).Success? ==>
              WriteOutcome(m, k, data, write) == Success(write(m[k].output.value, data).value)
    ensures write(m[k].output.value, data).Failure? ==>
              WriteOutcome(m, k, data, write) == Failure(StreamError(write(m[k].output.value, data).error))
  {
  }

  /** Accessories that are `==` are one entry: `write` treats them alike. */
  lemma WriteRespectsEquality(m: map<AccessoryKey, AsyncStreamPair>, a: MockableAccessory, b: MockableAccessory,
                              data: Data, write: OutputWrite)
    requires Mockable.Equal(a, b)
    ensures WriteOutcome(m, Mockable.KeyOf(a), data, write) == WriteOutcome(m, Mockable.KeyOf(b), data, write)
  {
  }

  // Properties of `connect` and `disconnect`.

  /** A declined (or delegate-less) `connect` changes no entry, opens no session and reports nothing. */
  lemma DeclinedConnectIsInert(m: map<AccessoryKey, AsyncStreamPair>, a: MockableAccessory, hasDelegate: bool,
                               accepts: bool, raw: Option<DuplexStream>)
    requires !(hasDelegate && accepts)
    ensures ConnectMap(m, Mockable.KeyOf(a), hasDelegate && accepts, raw) == m
    ensures forall e :: e in ConnectTrace(hasDelegate, a, accepts, raw) ==> e == ShouldOpenSession(a)
    ensures Opened(ConnectTrace(hasDelegate, a, accepts, raw)) == []
  {
  }

  /**
   * An accepted `connect` replaces the entry with the opened pair, or removes
   * it when there are no streams, and reports to `sessionDidOpen` exactly once.
   */
  lemma AcceptedConnectStores(m: map<AccessoryKey, AsyncStreamPair>, a: MockableAccessory, raw: Option<DuplexStream>)
    ensures raw.Some? ==> var m' := ConnectMap(m, Mockable.KeyOf(a), true, raw);
              Mockable.KeyOf(a) in m' && m'[Mockable.KeyOf(a)] == OpenSession(raw).value &&
              RawHalves(Some(m'[Mockable.KeyOf(a)])) == raw
    ensures raw.None? ==> Mockable.KeyOf(a) !in ConnectMap(m, Mockable.KeyOf(a), true, raw)
    ensures Opened(ConnectTrace(true, a, true, raw)) == [a]
  {
    var t := ConnectTrace(true, a, true, raw);
    assert t[..2][..1] == [ShouldOpenSession(a)];
    assert Opened(t[..1]) == [];
    assert Opened(t[..2]) == [];
  }

  /** `connect` touches no other entry. */
  lemma ConnectTouchesOnlyItsKey(m: map<AccessoryKey, AsyncStreamPair>, k: AccessoryKey, accepted: bool,
                                 raw: Option<DuplexStream>, other: AccessoryKey)
    requires other != k
    ensures other in ConnectMap(m, k, accepted, raw) <==> other in m
    ensures other in m ==> ConnectMap(m, k, accepted, raw)[other] == m[other]
  {
  }

  /** `disconnect` leaves no entry for the accessory, keeps every other one, and a second call changes nothing. */
  lemma DisconnectRemovesOnlyItsKey(m: map<AccessoryKey, AsyncStreamPair>, k: AccessoryKey, other: AccessoryKey)
    requires other != k
    ensures k !in m - {k}
    ensures other in m - {k} <==> other in m
    ensures other in m ==> (m - {k})[other] == m[other]
    ensures (m - {k}) - {k} == m - {k}
  {
  }

  /**
   * `connect` does not check for an existing session: connecting the same
   * accessory twice reports two sessions, and the second replaces the first.
   */
  lemma ReconnectReportsTwice(m: map<AccessoryKey, AsyncStreamPair>, a: MockableAccessory,
                              raw1: DuplexStream, raw2: DuplexStream)
    ensures Opened(ConnectTrace(true, a, true, Some(raw1)) + ConnectTrace(true, a, true, Some(raw2))) == [a, a]
    ensures var k := Mockable.KeyOf(a);
            ConnectMap(ConnectMap(m, k, true, Some(raw1)), k, true, Some(raw2))[k] == OpenSession(Some(raw2)).value
  {
    var t1 := ConnectTrace(true, a, true, Some(raw1));
    var t2 := ConnectTrace(true, a, true, Some(raw2));
    AcceptedConnectStores(m, a, Some(raw1));
    AcceptedConnectStores(m, a, Some(raw2));
    OpenedAppend(t1, t2);
  }

  /**
   * A simulated accessory that comes back on a new connection id is `same`
   * as before but a new key: disconnecting the new one leaves the old entry.
   */
  lemma StaleEntrySurvivesReconnect(m: map<AccessoryKey, AsyncStreamPair>, a: MockableAccessory, id: int,
                                    raw1: DuplexStream, raw2: DuplexStream)
    requires a.Simulated? && id != a.mock.connectionID
    ensures var b := Mockable.Simulated(a.mock.(connectionID := id), a.inputStream, a.outputStream);
            var m1 := ConnectMap(m, Mockable.KeyOf(a), true, Some(raw1));
            var m2 := ConnectMap(m1, Mockable.KeyOf(b), true, Some(raw2)) - {Mockable.KeyOf(b)};
            Mockable.KeyOf(a) in m2 && m2[Mockable.KeyOf(a)] == OpenSession(Some(raw1)).value
  {
  }

  /**
   * Streams obtained through a MockableAccessory always have both halves, so
   * once such a session is in the dictionary `write` never reports StreamNotOpen.
   */
  lemma MockableSessionsAreWritable(m: map<AccessoryKey, AsyncStreamPair>, a: MockableAccessory,
                                    open: AccessoryProtocol.SessionOracle, data: Data, write: OutputWrite)
    requires Mockable.Streams(a, open).Some?
    ensures var m' := ConnectMap(m, Mockable.KeyOf(a), true, Mockable.AsDuplex(Mockable.Streams(a, open)));
            WriteOutcome(m', Mockable.KeyOf(a), data, write) != Failure(ManagerError(StreamNotOpen))
  {
  }

  // Properties of `connectToPresentAccessories`.

  lemma {:induction false} OpenedAppend(t1: seq<Event>, t2: seq<Event>)
    ensures Opened(t1 + t2) == Opened(t1) + Opened(t2)
    decreases |t2|
  {
    if |t2| == 0 {
      assert t1 + t2 == t1;
    } else {
      var t2' := t2[..|t2| - 1];
      assert (t1 + t2)[..|t1 + t2| - 1] == t1 + t2';
      OpenedAppend(t1, t2');
    }
  }

  /** Accessories whose key is not among those of `list` keep their entry. */
  lemma {:induction false} ConnectAllKeepsOthers(m: map<AccessoryKey, AsyncStreamPair>, hasDelegate: bool,
                                                 list: seq<MockableAccessory>, accepts: seq<bool>,
                                                 raws: seq<Option<DuplexStream>>, k: AccessoryKey)
    requires |accepts| == |list| && |raws| == |list|
    requires forall i :: 0 <= i < |list| ==> Mockable.KeyOf(list[i]) != k
    ensures k in ConnectAll(m, hasDelegate, list, accepts, raws) <==> k in m
    ensures k in m ==> ConnectAll(m, hasDelegate, list, accepts, raws)[k] == m[k]
    decreases |list|
  {
    if |list| > 0 {
      var n := |list| - 1;
      ConnectAllKeepsOthers(m, hasDelegate, list[..n], accepts[..n], raws[..n], k);
    }
  }

  /** With no delegate, or with every accessory declined, the dictionary is unchanged and nothing is reported. */
  lemma {:induction false} ConnectAllDeclined(m: map<AccessoryKey, AsyncStreamPair>, hasDelegate: bool,
                                              list: seq<MockableAccessory>, accepts: seq<bool>,
                                              raws: seq<Option<DuplexStream>>)
    requires |accepts| == |list| && |raws| == |list|
    requires !hasDelegate || forall i :: 0 <= i < |list| ==> !accepts[i]
    ensures ConnectAll(m, hasDelegate, list, accepts, raws) == m
    ensures Opened(TraceAll(hasDelegate, list, accepts, raws)) == []
    decreases |list|
  {
    if |list| > 0 {
      var n := |list| - 1;
      ConnectAllDeclined(m, hasDelegate, list[..n], accepts[..n], raws[..n]);
      var a := list[n];
      DeclinedConnectIsInert(ConnectAll(m, hasDelegate, list[..n], accepts[..n], raws[..n]), a, hasDelegate,
                             accepts[n], raws[n]);
      OpenedAppend(TraceAll(hasDelegate, list[..n], accepts[..n], raws[..n]),
                   ConnectTrace(hasDelegate, a, accepts[n], raws[n]));
    }
  }

  /**
   * With every accessory accepted and yielding streams, every one of them
   * ends up in the dictionary, and each is reported once, in list order.
   */
  lemma {:induction false} ConnectAllRegistersAll(m: map<AccessoryKey, AsyncStreamPair>, list: seq<MockableAccessory>,
                                                  accepts: seq<bool>, raws: seq<Option<DuplexStream>>)
    requires |accepts| == |list| && |raws| == |list|
    requires forall i :: 0 <= i < |list| ==> accepts[i] && raws[i].Some?
    ensures forall i :: 0 <= i < |list| ==> Mockable.KeyOf(list[i]) in ConnectAll(m, true, list, accepts, raws)
    ensures Opened(TraceAll(true, list, accepts, raws)) == list
    decreases |list|
  {
    if |list| > 0 {
      var n := |list| - 1;
      var before := ConnectAll(m, true, list[..n], accepts[..n], raws[..n]);
      ConnectAllRegistersAll(m, list[..n], accepts[..n], raws[..n]);
      AcceptedConnectStores(before, list[n], raws[n]);
      forall i | 0 <= i < |list|
        ensures Mockable.KeyOf(list[i]) in ConnectAll(m, true, list, accepts, raws)
      {
        if i < n {
          assert list[..n][i] == list[i];
          if Mockable.KeyOf(list[i]) != Mockable.KeyOf(list[n]) {
            ConnectTouchesOnlyItsKey(before, Mockable.KeyOf(list[n]), true, raws[n], Mockable.KeyOf(list[i]));
          }
        }
      }
      OpenedAppend(TraceAll(true, list[..n], accepts[..n], raws[..n]), ConnectTrace(true, list[n], accepts[n], raws[n]));
      assert list[..n] + [list[n]] == list;
    }
  }

  /**
   * With distinct accessories, all accepted and all yielding streams, each
   * accessory's entry is the session opened from its own streams.
   */
  lemma {:induction false} ConnectAllDistinct(m: map<AccessoryKey, AsyncStreamPair>, list: seq<MockableAccessory>,
                                              accepts: seq<bool>, raws: seq<Option<DuplexStream>>, i: nat)
    requires |accepts| == |list| && |raws| == |list| && i < |list|
    requires forall j :: 0 <= j < |list| ==> accepts[j] && raws[j].Some?
    requires forall j, l :: 0 <= j < l < |list| ==> Mockable.KeyOf(list[j]) != Mockable.KeyOf(list[l])
    ensures Mockable.KeyOf(list[i]) in ConnectAll(m, true, list, accepts, raws)
    ensures ConnectAll(m, true, list, accepts, raws)[Mockable.KeyOf(list[i])] == OpenSession(raws[i]).value
    decreases |list|
  {
    var n := |list| - 1;
    var before := ConnectAll(m, true, list[..n], accepts[..n], raws[..n]);
    AcceptedConnectStores(before, list[n], raws[n]);
    if i < n {
      assert list[..n][i] == list[i] && raws[..n][i] == raws[i];
      ConnectAllDistinct(m, list[..n], accepts[..n], raws[..n], i);
      ConnectTouchesOnlyItsKey(before, Mockable.KeyOf(list[n]), true, raws[n], Mockable.KeyOf(list[i]));
    }
  }
}
