/**
 * Sources/AsyncExternalAccessory/AccessoryProtocol.swift: the duplex stream
 * record, the accessory as the ExternalAccessory framework presents it, the
 * first-match search for a session over its protocol strings, and the
 * serial-number identity test.
 *
 * The framework's EASession initializer is foreign code; it enters the model
 * as an oracle `open` from a protocol string to the session it would open
 * (or None when `EASession(accessory:forProtocol:)` fails).
 */
module AccessoryProtocol {
  import opened Wrappers

  /** An Objective-C InputStream, known only by its object identity. */
  datatype InputStream = InputStream(handle: nat)

  /** An Objective-C OutputStream, known only by its object identity. */
  datatype OutputStream = OutputStream(handle: nat)

  /** `DuplexStream`: the two halves of a session, each independently optional. */
  datatype DuplexStream = DuplexStream(input: Option<InputStream>, output: Option<OutputStream>)

  /** An opened EASession: its `inputStream` and `outputStream`, each possibly nil. */
  datatype EASession = EASession(inputStream: Option<InputStream>, outputStream: Option<OutputStream>)

  /** What `EASession(accessory:forProtocol:)` yields for each protocol string of one accessory. */
  type SessionOracle = string -> Option<EASession>

  /**
   * An EAAccessory with the properties that AccessoryProtocol requires.
   * EAAccessory is an Objective-C object compared by identity; `handle`
   * stands for that identity.
   */
  datatype EAAccessory = EAAccessory(
    handle: nat,
    name: string,
    modelNumber: string,
    serialNumber: string,
    manufacturer: string,
    firmwareRevision: string,
    hardwareRevision: string,
    protocolStrings: seq<string>,
    connectionID: int)

  /** The protocol string `p` opens a session and the caller accepts that session. */
  predicate Opens(open: SessionOracle, p: string, usable: EASession -> bool)
  {
    open(p).Some? && usable(open(p).value)
  }

  /**
   * The index of the first protocol string, in list order, that opens a
   * session the caller accepts: the common shape of the two `for` loops with
   * an early return over `protocolStrings`.
   */
  function FirstMatch(protocols: seq<string>, open: SessionOracle, usable: EASession -> bool): (r: Option<nat>)
    ensures r.Some? ==> r.value < |protocols| && Opens(open, protocols[r.value], usable)
    ensures r.Some? ==> forall j :: 0 <= j < r.value ==> !Opens(open, protocols[j], usable)
    ensures r.None? <==> forall j :: 0 <= j < |protocols| ==> !Opens(open, protocols[j], usable)
    decreases |protocols|
  {
    if |protocols| == 0 then None
    else if Opens(open, protocols[0], usable) then Some(0)
    else
      match FirstMatch(protocols[1..], open, usable)
      case None => None
      case Some(i) => Some(i + 1)
  }

  /** `FirstMatch` consults the oracle only on the strings up to the chosen one. */
  lemma FirstMatchIgnoresLaterStrings(protocols: seq<string>, open1: SessionOracle, open2: SessionOracle,
                                       usable: EASession -> bool, k: nat)
    requires FirstMatch(protocols, open1, usable) == Some(k)
    requires forall j :: 0 <= j <= k ==> open1(protocols[j]) == open2(protocols[j])
    ensures FirstMatch(protocols, open2, usable) == Some(k)
  {
  }

  /** A stricter acceptance test never picks an earlier string than a weaker one. */
  lemma StricterMatchIsNotEarlier(protocols: seq<string>, open: SessionOracle,
                                   strict: EASession -> bool, loose: EASession -> bool)
    requires forall s :: strict(s) ==> loose(s)
    ensures FirstMatch(protocols, open, strict).Some? ==> FirstMatch(protocols, open, loose).Some?
    ensures FirstMatch(protocols, open, strict).Some? ==>
              FirstMatch(protocols, open, loose).value <= FirstMatch(protocols, open, strict).value
  {
  }

  /** Every session counts as a match for `EAAccessory.getStreams`. */
  predicate AnySession(s: EASession) { true }

  /** The value `EAAccessory.getStreams()` returns, as a function of the session oracle. */
  function Streams(accessory: EAAccessory, open: SessionOracle): Option<DuplexStream>
  {
    match FirstMatch(accessory.protocolStrings, open, AnySession)
    case None => None
    case Some(i) =>
      var session := open(accessory.protocolStrings[i]).value;
      Some(DuplexStream(session.inputStream, session.outputStream))
  }

  /**
   * `EAAccessory.getStreams()`: tries the protocol strings in order and
   * returns the halves of the first session that opens, each as the session
   * has it; nil when no string opens a session.
   */
  method GetStreams(accessory: EAAccessory, open: SessionOracle) returns (r: Option<DuplexStream>)
    ensures r == Streams(accessory, open)
  {
    var protocols := accessory.protocolStrings;
    var i := 0;
    while i < |protocols|
      invariant 0 <= i <= |protocols|
      invariant forall j :: 0 <= j < i ==> open(protocols[j]).None?
    {
      var session := open(protocols[i]);
      if session.Some? {
        assert Opens(open, protocols[i], AnySession);
        return Some(DuplexStream(session.value.inputStream, session.value.outputStream));
      }
      i := i + 1;
    }
    assert forall j :: 0 <= j < |protocols| ==> !Opens(open, protocols[j], AnySession);
    return None;
  }

  /** What `getStreams` promises: nil exactly when no protocol string opens a session. */
  lemma StreamsNoneIffNoSession(accessory: EAAccessory, open: SessionOracle)
    ensures Streams(accessory, open).None? <==>
              forall j :: 0 <= j < |accessory.protocolStrings| ==> open(accessory.protocolStrings[j]).None?
  {
  }

  /**
   * Otherwise the result carries, unchanged, the halves of the session of the
   * first string that opens one, even when a half is missing.
   */
  lemma StreamsIsFirstSession(accessory: EAAccessory, open: SessionOracle, k: nat)
    requires k < |accessory.protocolStrings|
    requires open(accessory.protocolStrings[k]).Some?
    requires forall j :: 0 <= j < k ==> open(accessory.protocolStrings[j]).None?
    ensures Streams(accessory, open) ==
              Some(DuplexStream(open(accessory.protocolStrings[k]).value.inputStream,
                                open(accessory.protocolStrings[k]).value.outputStream))
  {
  }

  /** A half-open session is a match here: the result may lack either half. */
  lemma HalfOpenSessionIsReturned(accessory: EAAccessory, open: SessionOracle, input: InputStream)
    requires |accessory.protocolStrings| > 0
    requires open(accessory.protocolStrings[0]) == Some(EASession(Some(input), None))
    ensures Streams(accessory, open) == Some(DuplexStream(Some(input), None))
  {
  }

  /** `EAAccessory.same`: two accessories are the same device when their serial numbers agree. */
  predicate Same(a: EAAccessory, b: EAAccessory)
  {
    a.serialNumber == b.serialNumber
  }

  /** `same` is an equivalence relation. */
  lemma SameIsEquivalence()
    ensures forall a :: Same(a, a)
    ensures forall a, b :: Same(a, b) ==> Same(b, a)
    ensures forall a, b, c :: Same(a, b) && Same(b, c) ==> Same(a, c)
  {
  }

  /** `same` ignores every property but the serial number, the name and the connection id among them. */
  lemma SameIgnoresAllButSerial(a: EAAccessory, b: EAAccessory)
    ensures Same(a, b) <==> b == a.(handle := b.handle, name := b.name, modelNumber := b.modelNumber,
                                    manufacturer := b.manufacturer, firmwareRevision := b.firmwareRevision,
                                    hardwareRevision := b.hardwareRevision, protocolStrings := b.protocolStrings,
                                    connectionID := b.connectionID)
  {
  }
}
