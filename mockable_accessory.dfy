/**
 * Sources/AsyncExternalAccessory/MockableAccessory.swift: the accessory value
 * the manager works with. The source chooses one of two layouts at compile
 * time (simulator or device); the model keeps both as the two variants of one
 * datatype, so that properties of each build can be stated side by side.
 */
module Mockable {
  import opened Wrappers
  import AccessoryProtocol
  import AccessoryMocks

  type InputStream = AccessoryProtocol.InputStream
  type OutputStream = AccessoryProtocol.OutputStream
  type EASession = AccessoryProtocol.EASession
  type DuplexStream = AccessoryProtocol.DuplexStream

  datatype MockableAccessory =
    | Simulated(mock: AccessoryMocks.AccessoryMock, inputStream: InputStream, outputStream: OutputStream)
    | Device(accessory: AccessoryProtocol.EAAccessory)

  /**
   * The synthesized `==` of the Hashable struct: field by field, with
   * AccessoryMock's own `==` for the mock and object identity for the streams
   * and for the EAAccessory. A value of one build never meets one of the other.
   */
  predicate Equal(a: MockableAccessory, b: MockableAccessory)
  {
    match (a, b)
    case (Simulated(m1, i1, o1), Simulated(m2, i2, o2)) => AccessoryMocks.Equal(m1, m2) && i1 == i2 && o1 == o2
    case (Device(x), Device(y)) => x.handle == y.handle
    case _ => false
  }

  /**
   * One representative for each class of `==`-equal accessories: what a
   * Swift dictionary keyed by MockableAccessory tells apart.
   */
  datatype AccessoryKey =
    | SimulatedKey(serialNumber: string, name: string, connectionID: int, input: InputStream, output: OutputStream)
    | DeviceKey(handle: nat)

  function KeyOf(a: MockableAccessory): AccessoryKey
  {
    match a
    case Simulated(m, i, o) => SimulatedKey(m.serialNumber, m.name, m.connectionID, i, o)
    case Device(x) => DeviceKey(x.handle)
  }

  /** Two accessories share a dictionary key exactly when they are `==`. */
  lemma KeyOfIsEquality(a: MockableAccessory, b: MockableAccessory)
    ensures KeyOf(a) == KeyOf(b) <==> Equal(a, b)
  {
  }

  /** Hence `==` on accessories is an equivalence relation. */
  lemma EqualIsEquivalence(a: MockableAccessory, b: MockableAccessory, c: MockableAccessory)
    ensures Equal(a, a)
    ensures Equal(a, b) ==> Equal(b, a)
    ensures Equal(a, b) && Equal(b, c) ==> Equal(a, c)
  {
  }

  /** The same simulated device on a new connection is a different key. */
  lemma NewConnectionIsNewKey(m: AccessoryMocks.AccessoryMock, i: InputStream, o: OutputStream, id: int)
    requires id != m.connectionID
    ensures AccessoryMocks.Same(m, m.(connectionID := id))
    ensures KeyOf(Simulated(m, i, o)) != KeyOf(Simulated(m.(connectionID := id), i, o))
  {
  }

  /** The device variant accepts a session only when both of its halves exist. */
  predicate BothHalves(s: EASession)
  {
    s.inputStream.Some? && s.outputStream.Some?
  }

  /** The value `getStreams()` returns in either build. */
  function Streams(a: MockableAccessory, open: AccessoryProtocol.SessionOracle): Option<(InputStream, OutputStream)>
  {
    match a
    case Simulated(_, i, o) => Some((i, o))
    case Device(x) =>
      match AccessoryProtocol.FirstMatch(x.protocolStrings, open, BothHalves)
      case None => None
      case Some(k) =>
        var session := open(x.protocolStrings[k]).value;
        Some((session.inputStream.value, session.outputStream.value))
  }

  /**
   * `getStreams()`. Simulator: the stored pair of streams. Device: tries the
   * protocol strings in order and returns the streams of the first session
   * that opens with both halves; nil when there is none.
   */
  method GetStreams(a: MockableAccessory, open: AccessoryProtocol.SessionOracle) returns (r: Option<(InputStream, OutputStream)>)
    ensures r == Streams(a, open)
  {
    match a
    case Simulated(_, i, o) =>
      r := Some((i, o));
    case Device(x) =>
      var protocols := x.protocolStrings;
      var k := 0;
      while k < |protocols|
        invariant 0 <= k <= |protocols|
        invariant forall j :: 0 <= j < k ==> !AccessoryProtocol.Opens(open, protocols[j], BothHalves)
      {
        var session := open(protocols[k]);
        if session.Some? && session.value.inputStream.Some? && session.value.outputStream.Some? {
          assert AccessoryProtocol.Opens(open, protocols[k], BothHalves);
          return Some((session.value.inputStream.value, session.value.outputStream.value));
        }
        k := k + 1;
      }
      r := None;
  }

  /** The simulator never fails to produce streams, and they are the stored ones. */
  lemma SimulatedStreamsAreStored(m: AccessoryMocks.AccessoryMock, i: InputStream, o: OutputStream,
                                  open: AccessoryProtocol.SessionOracle)
    ensures Streams(Simulated(m, i, o), open) == Some((i, o))
  {
  }

  /** On a device, nil exactly when no protocol string opens a session that has both halves. */
  lemma DeviceStreamsNoneIff(x: AccessoryProtocol.EAAccessory, open: AccessoryProtocol.SessionOracle)
    ensures Streams(Device(x), open).None? <==>
              forall j :: 0 <= j < |x.protocolStrings| ==> !BothHalvesOpen(open, x.protocolStrings[j])
  {
  }

  /** `open(p)` is a session that has both halves. */
  predicate BothHalvesOpen(open: AccessoryProtocol.SessionOracle, p: string)
  {
    open(p).Some? && open(p).value.inputStream.Some? && open(p).value.outputStream.Some?
  }

  /**
   * On a device, the result is the pair of the first protocol string whose
   * session has both halves; every earlier string failed, and what later
   * strings would open does not matter.
   */
  lemma DeviceStreamsIsFirstMatch(x: AccessoryProtocol.EAAccessory, open: AccessoryProtocol.SessionOracle, k: nat)
    requires k < |x.protocolStrings| && BothHalvesOpen(open, x.protocolStrings[k])
    requires forall j :: 0 <= j < k ==> !BothHalvesOpen(open, x.protocolStrings[j])
    ensures Streams(Device(x), open) ==
              Some((open(x.protocolStrings[k]).value.inputStream.value, open(x.protocolStrings[k]).value.outputStream.value))
  {
  }

  /**
   * The device search and `EAAccessory.getStreams` disagree on half-open
   * sessions: a first session without an output stream is returned by the
   * latter and skipped by the former.
   */
  lemma HalfOpenSessionIsSkipped(x: AccessoryProtocol.EAAccessory, open: AccessoryProtocol.SessionOracle,
                                 i: InputStream)
    requires |x.protocolStrings| == 1
    requires open(x.protocolStrings[0]) == Some(AccessoryProtocol.EASession(Some(i), None))
    ensures Streams(Device(x), open) == None
    ensures AccessoryProtocol.Streams(x, open) == Some(AccessoryProtocol.DuplexStream(Some(i), None))
  {
  }

  /**
   * Whenever the device search succeeds, `EAAccessory.getStreams` also
   * succeeds (by `StricterMatchIsNotEarlier`, on the same or an earlier string).
   */
  lemma DeviceSearchIsStricter(x: AccessoryProtocol.EAAccessory, open: AccessoryProtocol.SessionOracle)
    ensures Streams(Device(x), open).Some? ==> AccessoryProtocol.Streams(x, open).Some?
  {
  }

  /** The pair of streams as the manager's `openSession` reads it: a DuplexStream with both halves. */
  function AsDuplex(pair: Option<(InputStream, OutputStream)>): (r: Option<DuplexStream>)
    ensures r.None? <==> pair.None?
    ensures r.Some? ==> r.value.input == Some(pair.value.0) && r.value.output == Some(pair.value.1)
  {
    match pair
    case None => None
    case Some((i, o)) => Some(AccessoryProtocol.DuplexStream(Some(i), Some(o)))
  }
}
