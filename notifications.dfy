/**
 * Extracting the accessory from an accessory notification: `findAccessory`
 * (Sources/AsyncExternalAccessory/AccessoryProtocol.swift) and the failable
 * `init?(from:)` of both builds (Sources/AsyncExternalAccessory/MockableAccessory.swift).
 *
 * A notification's `userInfo` is a dictionary of untyped values; the model
 * names the dynamic types a value under `EAAccessoryKey` can have. In these
 * sources only EAAccessory conforms to AccessoryProtocol.
 */
module Notifications {
  import opened Wrappers
  import AccessoryProtocol
  import AccessoryMocks
  import Mockable

  /** The key under which the framework stores the accessory. */
  const EAAccessoryKey: string := "EAAccessoryKey"

  /** A `userInfo` value, by its dynamic type. */
  datatype Payload =
    | AccessoryValue(accessory: AccessoryProtocol.EAAccessory)
    | MockableValue(mockable: Mockable.MockableAccessory)
    | MockValue(mock: AccessoryMocks.AccessoryMock)
    | OtherValue(typeName: string)

  /** An NSNotification: its name and its optional `userInfo` dictionary. */
  datatype Notification = Notification(name: string, userInfo: Option<map<string, Payload>>)

  /**
   * A notification has a `userInfo` dictionary: every reader below
   * force-unwraps it (`userInfo!`), which traps when it is nil.
   */
  predicate HasUserInfo(n: Notification)
  {
    n.userInfo.Some?
  }

  /** The value under `EAAccessoryKey`, if any. */
  function Lookup(n: Notification): Option<Payload>
    requires HasUserInfo(n)
  {
    if EAAccessoryKey in n.userInfo.value then Some(n.userInfo.value[EAAccessoryKey]) else None
  }

  /** `findAccessory()`: the payload when it conforms to AccessoryProtocol, otherwise nil. */
  function FindAccessory(n: Notification): (r: Option<AccessoryProtocol.EAAccessory>)
    requires HasUserInfo(n)
    ensures r.Some? <==> Lookup(n).Some? && Lookup(n).value.AccessoryValue?
    ensures r.Some? ==> Lookup(n) == Some(AccessoryValue(r.value))
  {
    match Lookup(n)
    case Some(AccessoryValue(x)) => Some(x)
    case _ => None
  }

  /** The simulator's `init?(from:)`: the payload when it is a MockableAccessory, otherwise nil. */
  function FromNotificationSimulated(n: Notification): (r: Option<Mockable.MockableAccessory>)
    requires HasUserInfo(n)
    ensures r.Some? <==> Lookup(n).Some? && Lookup(n).value.MockableValue?
    ensures r.Some? ==> Lookup(n) == Some(MockableValue(r.value))
  {
    match Lookup(n)
    case Some(MockableValue(m)) => Some(m)
    case _ => None
  }

  /** The device's `init?(from:)`: wraps the payload when it is an EAAccessory, otherwise nil. */
  function FromNotificationDevice(n: Notification): (r: Option<Mockable.MockableAccessory>)
    requires HasUserInfo(n)
    ensures r.Some? <==> Lookup(n).Some? && Lookup(n).value.AccessoryValue?
    ensures r.Some? ==> r.value.Device? && Lookup(n) == Some(AccessoryValue(r.value.accessory))
  {
    match Lookup(n)
    case Some(AccessoryValue(x)) => Some(Mockable.Device(x))
    case _ => None
  }

  /** A notification that carries `p` under `EAAccessoryKey`, as the framework posts it. */
  function Carrying(name: string, p: Payload): Notification
  {
    Notification(name, Some(map[EAAccessoryKey := p]))
  }

  /** Each reader returns what was posted, unchanged, when it has the expected type. */
  lemma ReadersReturnPostedValue(name: string, x: AccessoryProtocol.EAAccessory, m: Mockable.MockableAccessory)
    ensures FindAccessory(Carrying(name, AccessoryValue(x))) == Some(x)
    ensures FromNotificationDevice(Carrying(name, AccessoryValue(x))) == Some(Mockable.Device(x))
    ensures FromNotificationSimulated(Carrying(name, MockableValue(m))) == Some(m)
  {
  }

  /**
   * A notification that carries a bare AccessoryMock, as the plug/unplug tests
   * post it, is read as nil by both builds: the manager then does nothing. (The
   * other tests post a MockableAccessory, which the simulator build accepts.)
   */
  lemma BareMockIsIgnored(name: string, mock: AccessoryMocks.AccessoryMock)
    ensures FromNotificationSimulated(Carrying(name, MockValue(mock))).None?
    ensures FromNotificationDevice(Carrying(name, MockValue(mock))).None?
    ensures FindAccessory(Carrying(name, MockValue(mock))).None?
  {
  }

  /** A `userInfo` without the key is read as nil. */
  lemma MissingKeyIsNil(n: Notification)
    requires HasUserInfo(n) && EAAccessoryKey !in n.userInfo.value
    ensures FindAccessory(n).None? && FromNotificationSimulated(n).None? && FromNotificationDevice(n).None?
  {
  }
}
