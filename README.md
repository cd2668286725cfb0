# Cast demo session logic in Dafny

A model of the session logic in the Pixplicity Cast demo for Android. The app
finds a Cast receiver, launches (or joins) a receiver application on it, and
exchanges small JSON messages with it over the Google Cast SDK. The logic sits
in two places:

- `CastProxy` is the process-wide proxy. Its static part (`sInstance`,
  `sInstanceCount`) counts the registered observers. It switches route
  discovery on for the first observer and off when the count falls to zero,
  and it tears the session down for the last observer when asked. Its
  instance part tracks one session: the selected device, the API client, the
  `applicationStarted` and `waitingForReconnect` flags, and the session id.
- `MainActivity` is an earlier inline copy of the same session logic. It adds
  the payload it sends, the user name carried in that payload, and the text
  field it clears after a send.

The Cast SDK is closed code, so the model treats it as an oracle:

- Every call that asks the SDK, the media router or the channel to act is
  appended to a ghost `trace` of `Sdk.Effect` values instead of being run:
  discovery callbacks, building, connecting and disconnecting a client,
  join, launch, leave and stop, setting and removing message callbacks,
  sending a message, and the channel's `onConnected`, `onReconnected` and
  `onDisconnected`. Queries are not recorded: `getNamespace()` is the
  `namespace` of a `Sdk.ChannelRef` (or of the activity), and
  `isConnected()` / `isConnecting()` are an argument (below).
  `setResultCallback` is not recorded either; its callback is the result
  method of each class.
- Every SDK callback is a method that takes the delivered result as an
  argument (`Sdk.AppResult`, or the "application no longer running" hint).
- What the client reports through `isConnected()` / `isConnecting()` is a
  `Sdk.ClientStatus` argument to every operation that can reach
  `disconnect()`.
- A GoogleApiClient is an object of the empty class `Sdk.ApiClient`, so a
  client built by `connect` is provably fresh.

Modules:

- `Optional`: the Option datatype for nullable references.
- `Payloads`: the JSON payload as a record.
- `Sdk`: the SDK vocabulary and `DiscoveryOn`, which tells from a trace
  whether discovery is on.
- `Accounts`: `getUsername` together with Java's `String.split`.
- `Proxy`: the `CastProxy` class, with the static part as class `Registry`.
- `Activity`: the `MainActivity` class.

Behaviour of the code worth knowing:

- Only a null message is the handshake (code 1). An empty text from the text
  field is a user message (code 2 with an empty `msg`).
- The last observer's teardown is immediate. There is no grace-period
  delayed disconnect.
- `connect` replaces a client through `disconnect()`. That calls the old
  client's `disconnect()` only when an application was started on it and it
  was connected or connecting. Otherwise the old client is dropped without
  being disconnected. `MainActivity.connect` never disconnects the old client.
- "Discovery is on exactly while the count is positive" holds across
  `registerInstance` and `unregisterInstance` only. `unregisterAllInstances`
  resets the count to 0 but leaves the discovery callback registered
  (`Proxy.UnregisterAllLeavesDiscoveryOn`). It also ignores its `disconnect`
  argument and always disconnects.
- The only guard against a stale callback is the `mApiClient == null` check
  in `onConnected`. The launch/join result callback has no such check.

## Model

| member | source | states |
|---|---|---|
| `Payloads.BuildPayload` | android/src/com/pixplicity/castdemo/MainActivity.java:433-441 | The payload is well formed. Its code is 1 exactly when the message is null, and then it has no `msg`. Otherwise its code is 2 and `msg` is the message. `name` is the user name, left out when that name is null. |
| `Payloads.ReadPayload` | android/src/com/pixplicity/castdemo/MainActivity.java:433-441 | A receiver's reading of a payload succeeds exactly on the two well-formed shapes. |
| `Payloads.ReadBuiltPayload` | android/src/com/pixplicity/castdemo/MainActivity.java:433-441 | Reading a built payload gives back the message (null for the handshake) and the name. So a handshake never looks like a user message, even an empty one. |
| `Payloads.BuildReadPayload` | android/src/com/pixplicity/castdemo/MainActivity.java:433-441 | Every well-formed payload is the one built from what a receiver reads out of it. |
| `Sdk.DiscoveryOnAppend` | android/src/com/pixplicity/castdemo/CastProxy.java:305-335 | Calls that do not add or remove the media-router callback leave discovery as it was. |
| `Sdk.DiscoveryOnLast` | android/src/com/pixplicity/castdemo/CastProxy.java:307-310 | Discovery is on right after the callback is added and off right after it is removed. |
| `Accounts.LocalPart` | android/src/com/pixplicity/castdemo/MainActivity.java:485-488 | The result is the longest prefix of the name without an '@'. Either it is the whole name or the next character is '@'. |
| `Accounts.DropTrailingEmpty` | android/src/com/pixplicity/castdemo/MainActivity.java:486 | Java's split drops trailing empty strings: the result is the prefix of the pieces that ends in a non-empty piece, and every piece after it is empty. |
| `Accounts.PiecesJoin` | android/src/com/pixplicity/castdemo/MainActivity.java:486 | The pieces of the split contain no '@', and joining them with '@' gives back the name. |
| `Accounts.FirstPieceIsLocalPart` | android/src/com/pixplicity/castdemo/MainActivity.java:486-488 | The first piece of the split is the local part of the name. |
| `Accounts.PiecesAllEmpty` | android/src/com/pixplicity/castdemo/MainActivity.java:486-487 | Every piece is empty exactly when every character of the name is '@'. |
| `Accounts.LocalPartWithoutSeparator` | android/src/com/pixplicity/castdemo/MainActivity.java:486-488 | A name without '@' is its own local part. |
| `Accounts.GetUsernameSpec` | android/src/com/pixplicity/castdemo/MainActivity.java:475-495 | The user name is null in three cases: there are no accounts, the first name is null, or the first name is non-empty and made of '@' only (split then returns an empty array). Otherwise it is the part of the first name before its first '@'. |
| `Proxy.TeardownEffects` | android/src/com/pixplicity/castdemo/CastProxy.java:146-163 | Teardown calls are made exactly when a client exists, an application was started and the client is connected or connecting. In order they are: leave the application, remove the channel's callbacks, disconnect that client, notify the channel. None of them touches discovery. |
| `Proxy.CastProxy.constructor` | android/src/com/pixplicity/castdemo/CastProxy.java:65-94 | A new proxy has no device, no client, no session id, both flags false, the given channel, and an empty trace. |
| `Proxy.CastProxy.SetChannel` | android/src/com/pixplicity/castdemo/CastProxy.java:96-98 | The channel is replaced. |
| `Proxy.CastProxy.Disconnect` | android/src/com/pixplicity/castdemo/CastProxy.java:144-171 | Afterwards there is no client, no device, no session id and no pending reconnect. `applicationStarted` is false whenever a client existed. The trace grows by exactly the teardown calls. Discovery is unchanged. A started application keeps its client (Consistent) and is stopped. |
| `Proxy.DisconnectTwice` | android/src/com/pixplicity/castdemo/CastProxy.java:144-171 | Disconnect is idempotent: two calls give the session state (channel included) and the trace of the first call alone. |
| `Proxy.CastProxy.Connect` | android/src/com/pixplicity/castdemo/CastProxy.java:106-139 | Afterwards exactly one fresh client exists. With an old client, the old session is disconnected first, which clears the selected device. The new client is built from the device as it was before that disconnect, then connected. With no old client nothing else changes. |
| `Proxy.CastProxy.OnRouteSelected` | android/src/com/pixplicity/castdemo/CastProxy.java:78-84 | The selected device is recorded, then connect runs. The new client targets that device. The device stays recorded only when there was no client before. |
| `Proxy.CastProxy.OnRouteUnselected` | android/src/com/pixplicity/castdemo/CastProxy.java:87-90 | Route unselection is a full disconnect: the same new session (channel kept) and trace as `Disconnect`. |
| `Proxy.CastProxy.CreateMessageChannel` | android/src/com/pixplicity/castdemo/CastProxy.java:266-275 | It registers message callbacks on the channel's namespace, and nothing else. |
| `Proxy.CastProxy.LaunchApp` | android/src/com/pixplicity/castdemo/CastProxy.java:210-219 | Exactly one call: join with the last session id, or launch. |
| `Proxy.CastProxy.OnConnected` | android/src/com/pixplicity/castdemo/CastProxy.java:180-208 | With no client it does nothing. After a suspension it clears the flag, then disconnects as `Disconnect` does, channel kept (application no longer running), or registers the channel again, leaving the rest of the session alone. Otherwise it issues a join and changes no field. |
| `Proxy.CastProxy.OnApplicationResult` | android/src/com/pixplicity/castdemo/CastProxy.java:223-262 | On success it records the session id, registers the channel and marks the application started. It tells the channel it connected only if no application had been started. A join refused with "application not running" issues exactly one launch and changes no field. A launch result never falls back again. Every other failure is a full disconnect with the same new session (channel kept) and trace as `Disconnect`. |
| `Proxy.CastProxy.OnConnectionSuspended` | android/src/com/pixplicity/castdemo/CastProxy.java:278-281 | The session waits for a reconnect. |
| `Proxy.CastProxy.OnConnectionFailed` | android/src/com/pixplicity/castdemo/CastProxy.java:291-294 | A failed connection is a full disconnect: the same new session (channel kept) and trace as `Disconnect`. |
| `Proxy.CastProxy.OnApplicationDisconnected` | android/src/com/pixplicity/castdemo/CastProxy.java:112-115 | A stopped receiver application is a full disconnect: the same new session (channel kept) and trace as `Disconnect`. |
| `Proxy.Registry.constructor` | android/src/com/pixplicity/castdemo/CastProxy.java:29-30 | At first there is no proxy and the count is 0. |
| `Proxy.Registry.Init` | android/src/com/pixplicity/castdemo/CastProxy.java:297-303 | On first use a fresh proxy with the given channel is created. Later calls only replace the channel of the existing proxy. The count is unchanged. |
| `Proxy.Registry.RegisterInstance` | android/src/com/pixplicity/castdemo/CastProxy.java:305-320 | Without a proxy nothing changes, not even the count. With one, the count rises by exactly 1 and discovery is on. On 0 to 1 the discovery callback is added, and connect runs exactly when a device is selected and there is no client. Later registrations only notify the channel that it reconnected, and only when a device is selected and a client exists. Discovery equals "count > 0" if it did before. |
| `Proxy.Registry.UnregisterInstance` | android/src/com/pixplicity/castdemo/CastProxy.java:322-335 | The count is never negative. Above zero it just decrements and nothing else changes. At zero or below it is reset to exactly 0. If a proxy exists, discovery is then switched off, and the session is disconnected only when `disconnectIfLast` is set, keeping the channel (otherwise it is untouched). Discovery equals "count > 0" if it did before. |
| `Proxy.Registry.UnregisterAllInstances` | android/src/com/pixplicity/castdemo/CastProxy.java:337-342 | The count becomes 0 and the proxy always disconnects, whatever the argument, keeping its channel. Discovery stays as it was. |
| `Proxy.UnregisterAllLeavesDiscoveryOn` | android/src/com/pixplicity/castdemo/CastProxy.java:305-342 | After register, register, unregister and unregisterAll, the count is 0 while discovery is still on. |
| `Activity.TeardownEffects` | android/src/com/pixplicity/castdemo/MainActivity.java:393-412 | Teardown calls are made exactly when a client exists, an application was started and the client is connected; connecting is not enough. They start with leave and end with the client's disconnect. Channel callbacks are removed exactly when a channel exists. |
| `Activity.MainActivity.constructor` | android/src/com/pixplicity/castdemo/MainActivity.java:80-92 | A new activity has no client, no channel, both flags false, no session id, an empty text field and an empty trace. |
| `Activity.MainActivity.Connect` | android/src/com/pixplicity/castdemo/MainActivity.java:239-265 | A fresh client is built for the given device and connected. No other field changes, and the old client is not disconnected. |
| `Activity.MainActivity.OnRouteSelected` | android/src/com/pixplicity/castdemo/MainActivity.java:217-223 | Route selection is connect on the route's device. |
| `Activity.MainActivity.Disconnect` | android/src/com/pixplicity/castdemo/MainActivity.java:391-419 | Afterwards there is no client, no session id and no pending reconnect. `applicationStarted` is false whenever a client existed. The channel is dropped only on the teardown path. The trace grows by exactly the teardown calls. |
| `Activity.MainActivity.OnRouteUnselected` | android/src/com/pixplicity/castdemo/MainActivity.java:226-229 | Route unselection is disconnect: the same new session, channel flag and trace as `Disconnect`, with the text field kept. |
| `Activity.MainActivity.CreateMessageChannel` | android/src/com/pixplicity/castdemo/MainActivity.java:357-366 | It registers callbacks on the namespace only when a channel exists. |
| `Activity.MainActivity.LaunchApp` | android/src/com/pixplicity/castdemo/MainActivity.java:304-311 | Exactly one call: join with the last session id, or launch. |
| `Activity.MainActivity.OnConnected` | android/src/com/pixplicity/castdemo/MainActivity.java:274-302 | With no client it does nothing. After a suspension it clears the flag, then disconnects as `Disconnect` does, channel flag included (application no longer running), or registers the channel again. Otherwise it issues a join and changes no field. The text field is kept. |
| `Activity.MainActivity.SendMessage` | android/src/com/pixplicity/castdemo/MainActivity.java:432-473 | The result is true exactly when a client and a channel exist and the SDK does not throw. A send of the built payload is issued exactly when a client and a channel exist. |
| `Activity.MainActivity.SendTextMessage` | android/src/com/pixplicity/castdemo/MainActivity.java:421-425 | The field's text is sent as a code-2 message with the user name. The field is cleared exactly when the send returned true. |
| `Activity.MainActivity.OnApplicationResult` | android/src/com/pixplicity/castdemo/MainActivity.java:315-353 | On success it records the session id, marks the application started, creates and registers the channel, then sends the code-1 handshake with the user name if a client exists. A join refused with "application not running" issues exactly one launch. Every other failure disconnects as `Disconnect` does, channel flag included. The text field is kept. |
| `Activity.MainActivity.OnConnectionSuspended` | android/src/com/pixplicity/castdemo/MainActivity.java:369-372 | The session waits for a reconnect. |
| `Activity.MainActivity.OnConnectionFailed` | android/src/com/pixplicity/castdemo/MainActivity.java:382-385 | A failed connection is disconnect: the same new session, channel flag and trace as `Disconnect`, with the text field kept. |
| `Activity.MainActivity.OnApplicationDisconnected` | android/src/com/pixplicity/castdemo/MainActivity.java:244-247 | A stopped receiver application is disconnect: the same new session, channel flag and trace as `Disconnect`, with the text field kept. |

## Left out

- User interface and Android lifecycle: `onCreate`, the click and editor listeners, voice recognition, the options menu, and the `onResume`, `onPause` and `onDestroy` wiring. Toasts and log lines are left out too. None of them holds session logic beyond calling the modelled methods.
- Cast SDK and media router behaviour. Their calls are recorded, never run. Status codes are reduced to success, "application not running" and any other failure. Application metadata, application status text and the "was launched" flag are only logged by the source.
- JSON text: the payload is a record, and key order and `toString` output are not modelled.
- Resources and accounts: `R.string.app_id` and `R.string.namespace` are fields given at construction. The Google account names are a given list.
- Concurrency: `synchronized` on the static methods and asynchronous callback delivery. Every method is one atomic step.
- Exceptions other than the SDK throwing in `sendMessage`. The model takes every other SDK call to return normally. For example, an `IOException` from leave or remove in `disconnect` would skip the rest of that block.
- The null-pointer path of `init` when no proxy and no context exist: `Proxy.Registry.Init` requires one of them.
- The accessors `getMediaRouteSelector`, `getChannel` and `getApiClient` only read a field of the proxy.
- `onMessageReceived` only logs.
- The implementation of the application's channel. Its `onConnected`, `onReconnected` and `onDisconnected` are recorded as effects, and its `getNamespace()` is the `namespace` field of `Sdk.ChannelRef`.
- Proxy.Registry.RegisterInstance (and the count bound in `Valid`, kept by UnregisterInstance): `sInstanceCount` is a Java `int`, while `Registry.count` is unbounded. In Java, `sInstanceCount++` would wrap to a negative value after 2^31 - 1 registrations without an unregister, which the model does not capture; "the count is never negative" holds only below that bound.
- Proxy.CastProxy.OnApplicationResult: keeps "a started application has a client" only when the result arrives while a client is held. The source has no guard: a result for a client that was already dropped would set `applicationStarted` with no client. What the SDK does with a null client is not modelled.
- Activity.MainActivity.OnApplicationResult: the same applies; a stale success also creates a channel with no client.
