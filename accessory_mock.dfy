/**
 * Sources/AsyncExternalAccessory/AccessoryMock.swift: the simulator's stand-in
 * for an accessory, an immutable record, with its two identity relations and
 * its hash.
 *
 * The memberwise initializer `init(name:modelNumber:...)` is the datatype's
 * constructor `AccessoryMock(...)`: it stores each argument in the field of
 * the same name.
 */
module AccessoryMocks {
  import AccessoryProtocol

  datatype AccessoryMock = AccessoryMock(
    name: string,
    modelNumber: string,
    serialNumber: string,
    manufacturer: string,
    hardwareRevision: string,
    protocolStrings: seq<string>,
    connectionID: int)

  /** `init(accessory:)`: copies the properties of an EAAccessory; its firmware revision has no field here. */
  function FromAccessory(accessory: AccessoryProtocol.EAAccessory): AccessoryMock
  {
    AccessoryMock(accessory.name, accessory.modelNumber, accessory.serialNumber, accessory.manufacturer,
                  accessory.hardwareRevision, accessory.protocolStrings, accessory.connectionID)
  }

  /** `same`: the same device, by serial number and name. */
  predicate Same(a: AccessoryMock, b: AccessoryMock)
  {
    a.serialNumber == b.serialNumber && a.name == b.name
  }

  /** `==`: the same device on the same connection, by serial number, name and connection id. */
  predicate Equal(a: AccessoryMock, b: AccessoryMock)
  {
    a.serialNumber == b.serialNumber && a.name == b.name && a.connectionID == b.connectionID
  }

  /** The values `hash(into:)` feeds to the hasher, in order. */
  function HashInput(a: AccessoryMock): seq<string>
  {
    [a.serialNumber, a.name]
  }

  /** `hash(into:)` followed by finalization, for any hasher (a function of what it was fed). */
  function Hash(a: AccessoryMock, hasher: seq<string> -> int): int
  {
    hasher(HashInput(a))
  }

  /** `==` ignores exactly the model number, manufacturer, hardware revision and protocol strings. */
  lemma EqualIgnoresMetadata(a: AccessoryMock, b: AccessoryMock)
    ensures Equal(a, b) <==> b == a.(modelNumber := b.modelNumber, manufacturer := b.manufacturer,
                                     hardwareRevision := b.hardwareRevision, protocolStrings := b.protocolStrings)
  {
  }

  /** `same` ignores, in addition, the connection id. */
  lemma SameIgnoresConnection(a: AccessoryMock, b: AccessoryMock)
    ensures Same(a, b) <==> b == a.(modelNumber := b.modelNumber, manufacturer := b.manufacturer,
                                    hardwareRevision := b.hardwareRevision, protocolStrings := b.protocolStrings,
                                    connectionID := b.connectionID)
  {
  }

  /** `==` refines `same`. */
  lemma EqualImpliesSame(a: AccessoryMock, b: AccessoryMock)
    ensures Equal(a, b) ==> Same(a, b)
  {
  }

  /** The refinement is strict: a reconnection under a new connection id is `same` but not `==`. */
  lemma ReconnectionIsSameButNotEqual(a: AccessoryMock, id: int)
    requires id != a.connectionID
    ensures Same(a, a.(connectionID := id)) && !Equal(a, a.(connectionID := id))
  {
  }

  /** `same` and `==` are both equivalence relations. */
  lemma RelationsAreEquivalences()
    ensures forall a :: Same(a, a) && Equal(a, a)
    ensures forall a, b :: (Same(a, b) ==> Same(b, a)) && (Equal(a, b) ==> Equal(b, a))
    ensures forall a, b, c :: Same(a, b) && Same(b, c) ==> Same(a, c)
    ensures forall a, b, c :: Equal(a, b) && Equal(b, c) ==> Equal(a, c)
  {
  }

  /** The hash depends on the serial number and name only, so it agrees with `same` and hence with `==`. */
  lemma HashRespectsIdentity(a: AccessoryMock, b: AccessoryMock, hasher: seq<string> -> int)
    ensures Same(a, b) ==> Hash(a, hasher) == Hash(b, hasher)
    ensures Equal(a, b) ==> Hash(a, hasher) == Hash(b, hasher)
  {
  }

  /** Conversely, every change of serial number or name shows in what the hasher is fed. */
  lemma HashInputDeterminesSame(a: AccessoryMock, b: AccessoryMock)
    ensures HashInput(a) == HashInput(b) <==> Same(a, b)
  {
  }

  /**
   * Mocks made from two EAAccessories are `same` exactly when serial number
   * and name agree; EAAccessory's own `same` asks for the serial number only.
   */
  lemma FromAccessoryIdentity(x: AccessoryProtocol.EAAccessory, y: AccessoryProtocol.EAAccessory)
    ensures Same(FromAccessory(x), FromAccessory(y)) <==> AccessoryProtocol.Same(x, y) && x.name == y.name
    ensures Equal(FromAccessory(x), FromAccessory(y)) <==>
              Same(FromAccessory(x), FromAccessory(y)) && x.connectionID == y.connectionID
  {
  }

  /** The two `same` relations differ: a renamed accessory is `same` as an EAAccessory but not as a mock. */
  lemma RenamedAccessoryDiffers(x: AccessoryProtocol.EAAccessory, name: string)
    requires name != x.name
    ensures AccessoryProtocol.Same(x, x.(name := name))
    ensures !Same(FromAccessory(x), FromAccessory(x.(name := name)))
  {
  }
}
