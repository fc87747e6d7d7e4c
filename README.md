# Saxiib messenger core in Dafny

A model of the core of the Saxiib peer-to-peer messenger, a React web app
whose users exchange contact cards by QR code and then send each other text
and media messages over peer connections. It covers four parts:

- **Message log** (`Messaging.dfy`): the `useP2PMessaging` hook as the class
  `MessageLog`. Its state is the `messages` list, the peer flag, the `peerId`,
  the storage map, and the effects the hook has on the network and on
  notifications: connections made, frames written, media reads in progress
  and notifications shown. Sending, the `'open'` event of a connection, an
  inbound frame, the end of a media read and loading the stored log are
  method calls. Every method that logs a message writes the store first and
  keeps the in-memory log equal to the stored one (`Persisted`).
- **Contact-card codec** (`Json.dfy`, `ContactCard.dfy`): the QR payload
  `JSON.stringify({id, name, publicKey})` and the scanner's result callback.
  That callback classifies a scanned text as accepted, invalid format or
  parse failure. `Json.dfy` holds the JSON value type, a parser for the
  grammar `JSON.parse` accepts, the string quoting of `JSON.stringify`,
  JavaScript truthiness and property access on parsed values. It proves that
  parsing the stringified value gives the value back.
- **Identity store** (`Identity.dfy`): the `useUserProfile` hook as the class
  `IdentityStore`. Its `LoadProfile` loads or creates the profile and its
  `UpdateProfile` renames it. Each writes the store before it replaces the
  profile in memory. The clock, the random id suffix, the key pair and the
  QR renderer are parameters.
- **Composer** (`Composer.dfy`): the draft field of `MessageComposer`, its
  change, send and key-press handlers, and ECMAScript `trim` over the
  whitespace and line-terminator code points that `trim` removes.

`Wrappers.dfy` holds `Option`. `Text.dfy` holds the decimal rendering of a
`Date.now()` reading, as used in generated ids.

Behaviour of the hooks worth knowing:

- No per-peer session table and no de-duplication exist. Every send calls
  `peer.connect` afresh, so every send adds a connection.
- An inbound frame whose `type` is `'message'` is logged whatever its
  `content` holds. Malformed frames are not dropped.
- The `senderId` of a sent message is the PeerJS id of the current session
  (`peerId`), not the profile's `user_…` id.
- `sendMediaMessage` returns `null` in every case. Its message is logged
  when the file read completes, on top of the log as it was when the read
  started, so messages logged in between are overwritten
  (`MessageLog.OnMediaRead`).

## Model

| member | source | states |
|---|---|---|
| `Text.DecimalRoundTrip` | src/hooks/useUserProfile.ts:30 | Reading back the decimal digits written for a clock value gives that value. |
| `Json.LastIndex` | src/components/messaging/QRScanner.tsx:21 | The position of the last member with the key: every later member has another key, and -1 means no member has it. |
| `Json.Lookup` | src/components/messaging/QRScanner.tsx:22 | A property is found exactly when the object has a member with that key. Its value is that of the last member with the key, as `JSON.parse` keeps the last duplicate. |
| `Json.TinyNumberIsFalsy` | src/components/messaging/QRScanner.tsx:21-22 | `1e-400` is at most half the smallest subnormal double, so `JSON.parse` reads it as `0` and it is falsy. |
| `Json.ParseStringify` | src/hooks/useUserProfile.ts:41-45 | `JSON.parse(JSON.stringify(v))` is `v` for every value without number members. |
| `ContactCard.CardObject` | src/hooks/useUserProfile.ts:41-45 | The payload object has exactly the three members `id`, `name` and `publicKey`, each holding the card's string. |
| `ContactCard.Encode` | src/hooks/useUserProfile.ts:72-76 | The payload text parses back to exactly the card's object. |
| `ContactCard.Decode` | src/components/messaging/QRScanner.tsx:20-30 | Parse failure exactly when the text is not JSON or is `null`. Accepted exactly when the parsed value has truthy `id`, `name` and `publicKey` (a number is falsy when it is zero or rounds to zero), with the parsed value as data. Otherwise invalid format. |
| `ContactCard.DecodeEncode` | src/components/messaging/QRScanner.tsx:21-23 | A card with non-empty fields is accepted, and the accepted data gives back its id, name and public key. |
| `ContactCard.EncodedCardAccepted` | src/components/messaging/QRScanner.tsx:22-26 | An encoded card is accepted if and only if no field is empty; otherwise it is an invalid format, never a parse failure. |
| `ContactCard.NotJsonIsParseFailure` | src/components/messaging/QRScanner.tsx:28-29 | Any text the parser rejects is a parse failure, and the parser rejects `not json`. |
| `ContactCard.NullIsParseFailure` | src/components/messaging/QRScanner.tsx:20-29 | The text `null` is a parse failure, because reading `.id` of `null` throws inside the same `try`. |
| `ContactCard.MissingFieldsIsInvalidFormat` | src/components/messaging/QRScanner.tsx:22-26 | Any text that parses to an object without an `id`, `name` or `publicKey` member is an invalid format, and `{"id":"x"}` parses to such an object. |
| `ContactCard.FalsyFieldIsInvalidFormat` | src/components/messaging/QRScanner.tsx:22-26 | Any text that parses to an object whose `id`, `name` or `publicKey` is `""`, `0`, `-0`, `1e-400`, `false` or `null` is an invalid format. |
| `ContactCard.ErrorMessage` | src/components/messaging/QRScanner.tsx:25-40 | An accepted scan sets no error. The two rejections set "Invalid QR code format" and "Failed to parse QR code", both distinct from "Failed to access camera". |
| `ContactCard.Scanner.constructor` | src/components/messaging/QRScanner.tsx:11 | The scanner starts with no error and no calls made. |
| `ContactCard.Scanner.OnResult` | src/components/messaging/QRScanner.tsx:19-31 | An accepted scan calls `onScan` once with the parsed data, then `onClose`, and leaves the error alone. If `onScan` throws, `onClose` is not called and the error becomes "Failed to parse QR code"; the same error follows a throwing `onClose`. A rejected scan sets its error message and calls nothing. |
| `ContactCard.Scanner.OnCameraFailure` | src/components/messaging/QRScanner.tsx:38-40 | A camera failure sets "Failed to access camera" and calls nothing. |
| `Identity.Substring` | src/hooks/useUserProfile.ts:34 | `substring(0, n)` is the first `n` characters, or the whole string when it is shorter. |
| `Identity.QrPayload` | src/hooks/useUserProfile.ts:41-45 | The text handed to the QR renderer parses to the profile's public card object. |
| `Identity.NewProfileShape` | src/hooks/useUserProfile.ts:29-38 | A new id starts with `user_`. The default name is `User_` plus the id's first 8 characters. The keys are the generated pair. |
| `Identity.DefaultNameIgnoresSuffix` | src/hooks/useUserProfile.ts:30-34 | From clock value 100 on, the default name is `User_user_` plus the first three digits of the clock, whatever the random suffix. |
| `Identity.PayloadHasNoSecret` | src/hooks/useUserProfile.ts:72-76 | The payload object has no `secretKey` member, and the payload does not depend on the secret key or the QR code. |
| `Identity.PayloadScansBack` | src/hooks/useUserProfile.ts:41-45 | A profile's payload is accepted by the scanner if and only if its id, name and public key are all non-empty, and then gives back its id. |
| `Identity.IdentityStore.constructor` | src/hooks/useUserProfile.ts:17 | No profile is loaded at first; the store is whatever storage holds. |
| `Identity.IdentityStore.LoadProfile` | src/hooks/useUserProfile.ts:23-63 | A stored profile is set as it is, with no write. Otherwise the new profile, with its rendered QR code, is written and then set. A failing read, render or write changes nothing. Store and memory stay in agreement. |
| `Identity.IdentityStore.UpdateProfile` | src/hooks/useUserProfile.ts:65-92 | Without a profile nothing happens. Otherwise only the name and QR code change, the store is written before memory, and a failure changes nothing. |
| `Identity.LoadTwiceOnFreshStore` | src/hooks/useUserProfile.ts:25-59 | When the QR renderer succeeds on the first profile, two loads over a fresh storage give the same profile, the one the first load created. |
| `Messaging.MessageIdDistinct` | src/hooks/useP2PMessaging.ts:34 | Two message ids are equal exactly when their clock readings are, so messages created in the same millisecond share an id. |
| `Messaging.Restore` | src/hooks/useP2PMessaging.ts:58-62 | Nothing stored gives the empty log. Otherwise the log keeps the stored length and order, and every field, with each timestamp keeping its time value. |
| `Messaging.RestoreStored` | src/hooks/useP2PMessaging.ts:59-62 | Restoring a stored log gives that same log. |
| `Messaging.MessageLog.constructor` | src/hooks/useP2PMessaging.ts:10-12 | The hook starts with an empty log, no peer and an empty peer id. |
| `Messaging.MessageLog.InitPeer` | src/hooks/useP2PMessaging.ts:22-53 | Creating the peer sets the peer and changes nothing else. |
| `Messaging.MessageLog.OnPeerOpen` | src/hooks/useP2PMessaging.ts:25-28 | The peer's `'open'` event sets the peer id and nothing else. |
| `Messaging.MessageLog.LoadMessages` | src/hooks/useP2PMessaging.ts:56-66 | A successful load installs the restored stored log, which then equals the stored one. A failing read changes nothing. |
| `Messaging.MessageLog.SendMessage` | src/hooks/useP2PMessaging.ts:68-103 | Without a peer or peer id it returns `None` and changes nothing. Otherwise it adds one connection and logs one sent text to the recipient as the old log plus that message, writing the store first, and returns that message. The log does not wait for the connection to open. A failing write returns `None` and logs nothing. |
| `Messaging.MessageLog.SendMediaMessage` | src/hooks/useP2PMessaging.ts:105-147 | It always returns `None`. With a peer and a peer id it starts one file read, which captures the current peer id and log. |
| `Messaging.MessageLog.OnMediaRead` | src/hooks/useP2PMessaging.ts:116-140 | A finished read adds one media connection, then writes and installs the captured log plus one sent media message of the read's kind. |
| `Messaging.MessageLog.OnConnectionOpen` | src/hooks/useP2PMessaging.ts:77-82 | An opening connection writes its one frame to its peer and leaves the log alone. |
| `Messaging.MessageLog.OnData` | src/hooks/useP2PMessaging.ts:31-50 | A `'message'` frame appends one received text from the sending peer and raises one "Contact" notification. Any other frame, `'media'` included, changes neither the log, the store nor the notifications. |
| `Messaging.ReloadAfterSend` | src/hooks/useP2PMessaging.ts:58-96 | After a successful send, a new mount over the same storage loads the old log plus the sent message. |
| `Messaging.InboundLogAsWritten` | src/hooks/useP2PMessaging.ts:31-45 | As written, the inbound handler's new log is one received message addressed to the empty peer id. |
| `Messaging.InboundAsWrittenDropsHistory` | src/hooks/useP2PMessaging.ts:43-45 | As written, an inbound message over a non-empty log does not give the old log plus that message. |
| `Composer.Leading` | src/components/messaging/MessageComposer.tsx:18 | The count of whitespace characters before the first other character. |
| `Composer.Trailing` | src/components/messaging/MessageComposer.tsx:18 | The count of whitespace characters after the last other character. |
| `Composer.Trim` | src/components/messaging/MessageComposer.tsx:18-19 | `trim` is empty exactly for a blank draft. Its result neither starts nor ends with whitespace. It is a contiguous slice of the draft, and only whitespace was removed around it. |
| `Composer.TrimIdempotent` | src/components/messaging/MessageComposer.tsx:19 | Trimming an already trimmed string changes nothing. |
| `Composer.Draft.constructor` | src/components/messaging/MessageComposer.tsx:15 | The draft starts empty and nothing has been sent. |
| `Composer.Draft.OnChange` | src/components/messaging/MessageComposer.tsx:36 | An input change replaces the draft and sends nothing. |
| `Composer.Draft.HandleSend` | src/components/messaging/MessageComposer.tsx:17-22 | A blank draft sends nothing and stays. Otherwise the trimmed draft is sent once and the draft is cleared. Every sent content stays non-empty and trimmed. |
| `Composer.Draft.HandleKeyPress` | src/components/messaging/MessageComposer.tsx:24-29 | Enter without Shift prevents the default and acts as `HandleSend`. Any other key, Shift+Enter included, changes nothing. |

## Left out

- PeerJS transport: creating the peer, connecting, `'open'` and `'data'` events and `send` are method calls and recorded effects. A connection error surfaces only as the `connectOk` parameter.
- Durable storage (idb-keyval) is a map in each class. Reads and writes that fail are boolean parameters. Asynchronous interleaving of the awaited calls is not modelled: each method runs to completion.
- The QR renderer (`QRCode.toDataURL`) is an arbitrary function parameter returning `None` on failure. Its options and image format are not modelled.
- `generateKeyPair`, `Date.now()` and `Math.random().toString(36)` are parameters. Each operation reads the clock once, although the source reads it separately for the id and the timestamp.
- `FileReader` encoding is not modelled: the data URL is a parameter of `OnMediaRead`.
- `notificationService` is reduced to the list of calls made to it.
- The camera and the scanner's lifecycle (`qr-scanner` start, stop and destroy) are left out, apart from the camera-failure message.
- The disconnect on unmount is not modelled, because the model has no unmount.
- `Json.ParseStringify`: holds for values without number members. A number is kept as its lexeme and only its truthiness is interpreted (zero, or so small that it rounds to zero). JavaScript's number formatting and rounding of other values are not modelled. The contact card holds strings only.
- `Json.Parse`: a `\u` escape that leaves a lone surrogate is refused, whereas `JSON.parse` accepts it. Strings are sequences of Unicode scalar values.
- `Json.Property`: the prototype chain is not modelled. Reading `id`, `name` or `publicKey` of a non-object gives nothing.
- Messaging.MessageLog.OnData: the frame's `content` is taken as a string. Frames whose content is another JSON value are not modelled.
- Message ids are not unique (`Messaging.MessageIdDistinct` shows why), and no uniqueness is claimed.
- The stale closure of the inbound handler is a finding below. The rest of the model logs inbound messages on the current log.
- The contact directory (`useContacts`), the messaging screen layout and the profile QR display component are not part of this model. They hold no core logic of their own.

## Findings

| source | as written | input that shows it | evidently intended | confidence | as-written member | corrected member |
|---|---|---|---|---|---|---|
| src/hooks/useP2PMessaging.ts:43 | The inbound `'data'` handler is registered once, when the peer is created. It appends to the `messages` and uses the `peerId` of that first render, which are the empty list and the empty id. | The log holds one sent message and a `'message'` frame arrives: the stored and shown log becomes the received message alone, addressed to `""`. | Append the received message to the current log and address it to the local peer id. | not executed | `Messaging.InboundAsWrittenDropsHistory` | `Messaging.MessageLog.OnData` |
