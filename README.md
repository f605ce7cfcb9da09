# AsyncExternalAccessory — session registry and accessory identity, in Dafny

This project models the core of AsyncExternalAccessory, a Swift package that exposes
ExternalAccessory sessions as async streams. The model covers four parts:

- **The session registry.** The `ExternalAccessoryManager` actor keeps a dictionary from
  accessory to the stream actors of its open session. `connect` asks the delegate whether
  to open a session and, if it agrees, opens one through the accessory's `getStreams()`,
  stores it and reports it with `sessionDidOpen`. `disconnect` removes the entry. `write`
  finds the output stream of an accessory or fails with `UnknownAccessory` or `StreamNotOpen`.
- **Accessory identity.** `AccessoryMock`'s `same` compares serial number and name. Its `==`
  also compares the connection id. Its hash uses serial number and name. MockableAccessory's
  synthesized `==` is what the registry's dictionary uses to tell keys apart.
- **Session selection.** Both `getStreams` implementations search the protocol strings in
  order and stop at the first match. `EAAccessory.getStreams` accepts any session that
  opens. The device build of `MockableAccessory.getStreams` accepts only sessions that have
  both streams.
- **Reading a notification.** `findAccessory` and both builds of `init?(from:)` read the
  accessory that a notification carries.

Files, one module each:

| file | module | source |
|---|---|---|
| `wrappers.dfy` | `Wrappers` | Swift's `Optional` and `throws` |
| `accessory_protocol.dfy` | `AccessoryProtocol` | Sources/AsyncExternalAccessory/AccessoryProtocol.swift |
| `accessory_mock.dfy` | `AccessoryMocks` | Sources/AsyncExternalAccessory/AccessoryMock.swift |
| `mockable_accessory.dfy` | `Mockable` | Sources/AsyncExternalAccessory/MockableAccessory.swift |
| `notifications.dfy` | `Notifications` | `findAccessory` and `init?(from:)` from the two files above |
| `external_accessory_manager.dfy` | `Manager` | Sources/AsyncExternalAccessory/ExternalAccessoryManager.swift |

`findAccessory` and the `init?(from:)` initializers live in their own module. The notification
payload has to be able to hold a MockableAccessory, and MockableAccessory already depends on
AccessoryProtocol, so putting them there would create a cycle between modules.

How the model is shaped:

- **The manager is a class.** Each actor method is one atomic step on that class. Its fields are:
  - `delegate`: the delegate object, or none.
  - `sessions`: the source's `map`. It maps an accessory's key to its `AsyncStreamPair`.
  - `trace`: every call the manager makes to its delegate (`shouldOpenSession`,
    `sessionDidOpen`) and to `getStreams`, in order.
- **Each method is proved against a function.** Every method's `ensures` ties the new state
  or the result to a function of the old state and the inputs:
  - `Connect` to `ConnectMap` and `ConnectTrace`.
  - `ConnectToPresentAccessories` to `ConnectAll` and `TraceAll`.
  - `Write` to `WriteOutcome`.
  - `Disconnect` to removal of the key.

  The lemmas state what the source promises about those functions.
- **The class invariant.** `Valid()` says that every session in the dictionary was handed to
  a delegate by a `sessionDidOpen` call in `trace`. Every method keeps it.
- **Dictionary keys.** `Mockable.KeyOf` maps an accessory to its class under the synthesized
  `==`. The simulator key is the mock's serial number, name and connection id, plus the
  identities of both streams. The device key is the EAAccessory object's identity.
  `KeyOfIsEquality` proves that two accessories share a key exactly when they are `==`.
  Keying the map this way matches how a Swift dictionary looks up keys.
- **Both builds are modelled.** The source picks the simulator or device layout of
  MockableAccessory with `#if`. The model keeps both, as the two constructors of one datatype.
- **Collaborators are oracle parameters:**
  - The delegate's answer to `shouldOpenSession` is a `bool`.
  - The result of `getStreams()` is an `Option<DuplexStream>`.
  - `EASession(accessory:forProtocol:)` is a function from protocol string to optional session.
  - The stream actor's `write` is a function that returns a count or throws
    (`Result<int, string>`).

## Code and design notes

Where the code and other descriptions of the package disagree, the model follows the code:

- **No at-most-one-session check in `connect`.** `connect` does not check whether the accessory
  already has a session. Connecting again asks the delegate again, opens a second session,
  overwrites the entry and calls `sessionDidOpen` a second time (`Manager.ReconnectReportsTwice`).
  The dictionary still holds at most one entry per key, because it is a dictionary.
- **Two different `same` relations.** `EAAccessory.same` compares only the serial number.
  `AccessoryMock.same` compares serial number and name (`AccessoryMocks.RenamedAccessoryDiffers`).
  The registry uses neither: its keys come from the synthesized `==`, which includes the
  connection id. So a simulated accessory that returns under a new connection id gets a new
  entry, and removing the new one leaves the old one in place
  (`Manager.StaleEntrySurvivesReconnect`).
- **The sources come from different revisions.** `MockableAccessory.getStreams` returns a
  tuple of two non-optional streams, but `openSession` reads `.input` and `.output` as it would
  on a `DuplexStream`. `Mockable.AsDuplex` makes the tuple into a `DuplexStream` with both
  halves. The tests in Tests/AsyncExternalAccessoryTests/AsyncExternalAccessoryTests.swift post
  a `MockableAccessory`, which the simulator `init?(from:)` accepts. Those in
  Tests/AsyncExternalAccessoryTests/PlugUnplugTests.swift post a bare `AccessoryMock`, which
  neither `init?(from:)` accepts (`Notifications.BareMockIsIgnored`).
- **`userInfo!`.** The notification readers force-unwrap `userInfo`, which traps when it is nil.
  The model turns that into the precondition `HasUserInfo`.

## Model

| member | source | states |
|---|---|---|
| `AccessoryProtocol.FirstMatch` | Sources/AsyncExternalAccessory/AccessoryProtocol.swift:55-60 | the chosen index is in range and its string opens an acceptable session; every earlier string fails; None exactly when every string fails |
| `AccessoryProtocol.FirstMatchIgnoresLaterStrings` | Sources/AsyncExternalAccessory/MockableAccessory.swift:57-62 | strings after the chosen one are never consulted: changing the session oracle on them does not change the choice |
| `AccessoryProtocol.StricterMatchIsNotEarlier` | Sources/AsyncExternalAccessory/AccessoryProtocol.swift:55-57 | a stricter acceptance test can only succeed where a looser one does, and never on an earlier string |
| `AccessoryProtocol.GetStreams` | Sources/AsyncExternalAccessory/AccessoryProtocol.swift:54-61 | the loop returns the halves of the first session that opens, or nil, equal to `Streams` |
| `AccessoryProtocol.StreamsNoneIffNoSession` | Sources/AsyncExternalAccessory/AccessoryProtocol.swift:55-60 | `getStreams` is nil exactly when no protocol string opens a session, including an empty list |
| `AccessoryProtocol.StreamsIsFirstSession` | Sources/AsyncExternalAccessory/AccessoryProtocol.swift:55-58 | otherwise it carries the two halves of the first opening session, unchanged, each possibly absent |
| `AccessoryProtocol.HalfOpenSessionIsReturned` | Sources/AsyncExternalAccessory/AccessoryProtocol.swift:56-57 | a session without an output stream still counts as a match |
| `AccessoryProtocol.SameIsEquivalence` | Sources/AsyncExternalAccessory/AccessoryProtocol.swift:62-64 | `EAAccessory.same` is reflexive, symmetric and transitive |
| `AccessoryProtocol.SameIgnoresAllButSerial` | Sources/AsyncExternalAccessory/AccessoryProtocol.swift:62-64 | `same` holds exactly when the accessories differ in nothing but properties other than the serial number (name and connection id included) |
| `AccessoryMocks.EqualIgnoresMetadata` | Sources/AsyncExternalAccessory/AccessoryMock.swift:63-67 | `==` holds exactly when the mocks differ only in model number, manufacturer, hardware revision and protocol strings |
| `AccessoryMocks.SameIgnoresConnection` | Sources/AsyncExternalAccessory/AccessoryMock.swift:57-61 | `same` holds exactly when the mocks differ only in those properties and the connection id |
| `AccessoryMocks.EqualImpliesSame` | Sources/AsyncExternalAccessory/AccessoryMock.swift:57-67 | `==` implies `same` |
| `AccessoryMocks.ReconnectionIsSameButNotEqual` | Sources/AsyncExternalAccessory/AccessoryMock.swift:57-67 | two mocks that differ only in connection id are `same` but not `==` |
| `AccessoryMocks.RelationsAreEquivalences` | Sources/AsyncExternalAccessory/AccessoryMock.swift:57-67 | `same` and `==` are each reflexive, symmetric and transitive |
| `AccessoryMocks.HashRespectsIdentity` | Sources/AsyncExternalAccessory/AccessoryMock.swift:69-74 | for every hasher, `same` mocks, and so `==` mocks, hash alike |
| `AccessoryMocks.HashInputDeterminesSame` | Sources/AsyncExternalAccessory/AccessoryMock.swift:69-74 | the hasher is fed the same values exactly when the mocks are `same` |
| `AccessoryMocks.FromAccessoryIdentity` | Sources/AsyncExternalAccessory/AccessoryMock.swift:36-44 | mocks copied from two EAAccessories are `same` iff the accessories share serial number and name, and `==` iff they also share the connection id |
| `AccessoryMocks.RenamedAccessoryDiffers` | Sources/AsyncExternalAccessory/AccessoryMock.swift:57-61 | a renamed accessory is `same` under `EAAccessory.same` but its mock is not `same` under `AccessoryMock.same` |
| `Mockable.KeyOfIsEquality` | Sources/AsyncExternalAccessory/MockableAccessory.swift:26-35 | two accessories share a dictionary key exactly when the synthesized `==` holds |
| `Mockable.EqualIsEquivalence` | Sources/AsyncExternalAccessory/MockableAccessory.swift:26-35 | the synthesized `==` is reflexive, symmetric and transitive |
| `Mockable.NewConnectionIsNewKey` | Sources/AsyncExternalAccessory/MockableAccessory.swift:26-35 | the same simulated device under a new connection id is `same` but has a different key |
| `Mockable.GetStreams` | Sources/AsyncExternalAccessory/MockableAccessory.swift:42-65 | the loop for either build returns exactly `Streams`: the stored pair, or the first session that has both streams |
| `Mockable.SimulatedStreamsAreStored` | Sources/AsyncExternalAccessory/MockableAccessory.swift:42-44 | the simulator always returns its stored input and output stream, never nil |
| `Mockable.DeviceStreamsNoneIff` | Sources/AsyncExternalAccessory/MockableAccessory.swift:56-65 | the device result is nil exactly when no protocol string, if any, yields a session with both streams |
| `Mockable.DeviceStreamsIsFirstMatch` | Sources/AsyncExternalAccessory/MockableAccessory.swift:57-62 | otherwise it is the streams of the first such string; every earlier string failed |
| `Mockable.HalfOpenSessionIsSkipped` | Sources/AsyncExternalAccessory/MockableAccessory.swift:58-61 | a session missing its output stream is skipped here but returned by `EAAccessory.getStreams` |
| `Mockable.DeviceSearchIsStricter` | Sources/AsyncExternalAccessory/MockableAccessory.swift:57-62 | whenever the device search succeeds, `EAAccessory.getStreams` succeeds too |
| `Notifications.FindAccessory` | Sources/AsyncExternalAccessory/AccessoryProtocol.swift:44-51 | nil unless the value under `EAAccessoryKey` is an accessory conforming to AccessoryProtocol, and then that value |
| `Notifications.FromNotificationSimulated` | Sources/AsyncExternalAccessory/MockableAccessory.swift:36-41 | nil unless the payload is a MockableAccessory, and then that accessory unchanged |
| `Notifications.FromNotificationDevice` | Sources/AsyncExternalAccessory/MockableAccessory.swift:50-55 | nil unless the payload is an EAAccessory, and then a device accessory wrapping it |
| `Notifications.ReadersReturnPostedValue` | Sources/AsyncExternalAccessory/MockableAccessory.swift:36-55 | a posted value of the expected type comes back unchanged from each reader |
| `Notifications.BareMockIsIgnored` | Sources/AsyncExternalAccessory/MockableAccessory.swift:36-41 | a notification that carries a bare AccessoryMock is read as nil |
| `Notifications.MissingKeyIsNil` | Sources/AsyncExternalAccessory/AccessoryProtocol.swift:46-48 | a `userInfo` without the key is read as nil by every reader |
| `Manager.OpenSession` | Sources/AsyncExternalAccessory/ExternalAccessoryManager.swift:104-118 | nil exactly when `getStreams` is; an input actor iff a raw input, an output actor iff a raw output; the actors wrap exactly the raw halves |
| `Manager.ExternalAccessoryManager.constructor` | Sources/AsyncExternalAccessory/ExternalAccessoryManager.swift:43-49 | no delegate, empty dictionary, no calls made |
| `Manager.ExternalAccessoryManager.Set` | Sources/AsyncExternalAccessory/ExternalAccessoryManager.swift:71-73 | installs the delegate and changes nothing else |
| `Manager.ExternalAccessoryManager.Connect` | Sources/AsyncExternalAccessory/ExternalAccessoryManager.swift:120-135 | new dictionary is `ConnectMap` of the old one; the calls made are `ConnectTrace`; every stored session has been reported |
| `Manager.ExternalAccessoryManager.ConnectToPresentAccessories` | Sources/AsyncExternalAccessory/ExternalAccessoryManager.swift:75-79 | same as `connect` applied to each accessory of the list in order (`ConnectAll`, `TraceAll`) |
| `Manager.ExternalAccessoryManager.Write` | Sources/AsyncExternalAccessory/ExternalAccessoryManager.swift:94-102 | changes nothing and returns `WriteOutcome` of the current dictionary |
| `Manager.ExternalAccessoryManager.Disconnect` | Sources/AsyncExternalAccessory/ExternalAccessoryManager.swift:137-139 | the new dictionary is the old one without the accessory's key |
| `Manager.WriteUnknownAccessory` | Sources/AsyncExternalAccessory/ExternalAccessoryManager.swift:95-97 | `write` fails with UnknownAccessory iff the accessory has no entry, and then the output stream's behaviour is irrelevant |
| `Manager.WriteStreamNotOpen` | Sources/AsyncExternalAccessory/ExternalAccessoryManager.swift:95-100 | `write` fails with StreamNotOpen iff the entry exists and has no output half (the unknown check comes first) |
| `Manager.WriteReachesOutput` | Sources/AsyncExternalAccessory/ExternalAccessoryManager.swift:98-101 | with an output half, `write` returns exactly the count the output returns, or rethrows its error |
| `Manager.WriteRespectsEquality` | Sources/AsyncExternalAccessory/ExternalAccessoryManager.swift:94-97 | writing to two `==` accessories has the same outcome |
| `Manager.DeclinedConnectIsInert` | Sources/AsyncExternalAccessory/ExternalAccessoryManager.swift:120-123 | with no delegate, or a declining one, `connect` leaves the dictionary unchanged, calls at most `shouldOpenSession` and reports no session |
| `Manager.AcceptedConnectStores` | Sources/AsyncExternalAccessory/ExternalAccessoryManager.swift:126-134 | an accepted `connect` stores the opened pair, which wraps the raw halves, or removes the key when `getStreams` is nil; it calls `sessionDidOpen` exactly once |
| `Manager.ConnectTouchesOnlyItsKey` | Sources/AsyncExternalAccessory/ExternalAccessoryManager.swift:133 | `connect` leaves every other key and its entry unchanged |
| `Manager.DisconnectRemovesOnlyItsKey` | Sources/AsyncExternalAccessory/ExternalAccessoryManager.swift:137-139 | after `disconnect` the key is absent, other entries are unchanged, and a second `disconnect` changes nothing |
| `Manager.ReconnectReportsTwice` | Sources/AsyncExternalAccessory/ExternalAccessoryManager.swift:120-135 | two accepted connects of one accessory report two sessions and keep the second |
| `Manager.StaleEntrySurvivesReconnect` | Sources/AsyncExternalAccessory/ExternalAccessoryManager.swift:133-138 | a simulated accessory reconnected under a new connection id leaves its old entry behind after the new one is disconnected |
| `Manager.MockableSessionsAreWritable` | Sources/AsyncExternalAccessory/ExternalAccessoryManager.swift:105-117 | a session opened from a MockableAccessory's streams never makes `write` fail with StreamNotOpen |
| `Manager.ConnectAllKeepsOthers` | Sources/AsyncExternalAccessory/ExternalAccessoryManager.swift:75-79 | connecting a list leaves the entries of accessories outside the list unchanged |
| `Manager.ConnectAllDeclined` | Sources/AsyncExternalAccessory/ExternalAccessoryManager.swift:75-79 | with no delegate or every accessory declined, the dictionary is unchanged and no session is reported |
| `Manager.ConnectAllRegistersAll` | Sources/AsyncExternalAccessory/ExternalAccessoryManager.swift:75-79 | with all accepted and all yielding streams, every listed accessory has an entry and each is reported once, in list order |
| `Manager.ConnectAllDistinct` | Sources/AsyncExternalAccessory/ExternalAccessoryManager.swift:75-79 | with distinct accessories as well, each entry is the session opened from that accessory's own streams |

## Left out

- The stream bridge (`InputStreamActor`, `OutputStreamActor`, `getReadDataStream`, `getSpaceAvailableStream`, `output.write`) comes from the external AsyncStream package, which is not part of this model. The actors and their streams are values naming the raw stream they wrap. A write is an oracle result.
- Actor reentrancy: the `await`s inside `connect` could let other manager calls run in between. Each manager method is modelled as one atomic step, so racing connect/disconnect is not modelled.
- Notification plumbing: `listen()`, `accessoryConnect` and `accessoryDisconnect`, and their `@MainActor` / `Task.detached` hops. These only dispatch to `connect` and `disconnect` with what `init?(from:)` returns.
- `connectToPresentAccessories()` without arguments is left out. It reads the list from `EAAccessoryManager.shared()`, a foreign call, and then does what the list-taking overload does.
- The behaviour of EASession, InputStream and OutputStream: sessions are oracle results and no bytes move. The session oracle is a function of the protocol string, so opening a session for the same string twice is assumed to give the same result.
- The delegate is a `weak` reference. The model does not capture it becoming nil when its object is released.
- `print(#function)` logging, the test scaffolding and Package.swift.
- The memberwise `AccessoryMock` initializer is the datatype constructor. That it stores each argument unchanged holds by construction, so no separate member states it.
- AccessoryMocks.Same, AccessoryMocks.Equal, AccessoryProtocol.Same, Mockable.Equal and Mockable.KeyOf compare names and serial numbers code point by code point. Swift's `String ==` and its String hash treat canonically equivalent Unicode strings as equal (for example "caf\u{E9}" and "cafe\u{301}"). The model does not capture that such strings make `same`, `==` and the dictionary key agree; Unicode normalisation is not modelled.
- Notifications.FindAccessory, Notifications.FromNotificationSimulated and Notifications.FromNotificationDevice require `HasUserInfo`. The source force-unwraps `userInfo` and traps when it is nil; the model has no trap, so that case is excluded rather than modelled.
- The events in `trace` do not record which delegate was called. After a second `set`, `Valid()` is also met by a session that was reported to the previous delegate.
- MockableAccessory's synthesized `hash(into:)` is not modelled. `Mockable.KeyOf` captures the equality that the hash must agree with.
