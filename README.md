# rings-fe session state, modelled in Dafny

This project models the state that the rings-fe front end keeps in its context providers and
hooks, and proves properties of that model:

- **Presence roster** (`Presence`, presence.dfy): the reducer of the websocket provider over an
  address-keyed map of online peers. It covers the actions `join`, `leave`, `connected` (a full
  snapshot), `changeStatus` and `changeName`, and unrecognised action types. The module also holds
  the mapping from inbound presence messages to actions, the guard on the outbound join/leave
  announcement, and the filters that choose which peers still need a BNS or ENS name lookup.
  The reducer is a method over a roster object. It shows which actions return a new object and
  which edit and return the given one (`leave` deletes in place).
- **Transport session** (`Rings`, rings.dfy): the rings provider as a class over its state cells
  and the two maps it edits in place (`peerMap`, `chats`). It covers address canonicalisation in
  `fetchPeers`, the `peerMap` seeding loop, the read/unread flags, chat appends on receive and
  on send, the `initClient` guard and status sequence, the bootstrap URL list, and the relay and
  bootstrap configuration loaded from storage.
- **Identity selection** (`Identity`, identity.dfy): the multi-wallet provider's effect, which
  picks Ethereum over Solana over none. It sets `chain`, `account`, `accountName`,
  `addressType`, `signature` and `unsignedInfo`. The module also models the account-name effect.
- **Legacy onliner list** (`Onliners`, onliners.dfy): the list updates of the older presence
  hook, and its join announcement.
- **Modal store** (`Modals`, modals.dfy): the present/dismiss state machine and the overlay it
  renders.
- **Local-storage state** (`Storage`, storage.dfy): the key-value store, the
  `useLocalStorageState` initialiser and setter, and the no-race case of `getFastestEndpoint`.

`Shared` (shared.dfy) holds `Option`, `Result`, the address types and the socket ready states.
`Strings` (strings.dfy) holds ASCII lower-casing, `startsWith`, and `split`/`join` on one
character, with their round-trip lemmas.

Some helpers are called by the source but their code is not part of this model:
`getAddressWithType`, `formatAddress`, `hexToBytes`, `JSON.stringify`/`JSON.parse`,
`UnsignedInfo.auth`, the wallet signers and the text encoder. Each one is a function-typed
parameter. Most are grouped in `Presence.Env`, `Identity.Wallets` and `Storage.Serializer`;
`Rings.RingsSession.InitClient` and `Rings.StartUp` take `hexToBytes` as a parameter of its own. The model
assumes only what the cited code relies on: `Storage.RoundTrips` for the JSON pair, and nothing
at all for the others. The outcomes of transport and wallet calls are parameters too: whether
`send_message` resolved, whether signing or client construction succeeded, and what
`list_peers` returned. The clock (`Date.now()`) is the parameter `now`.

A JavaScript object may lack some properties. This happens to the entries that `changeName`,
`readAllMessages` and the message callback create for an unknown key, because they spread
`undefined`. Such an object is a record whose fields are `Option`s, with `None` for a missing
property. JavaScript truthiness of a string is "present and non-empty".

In these places the code does something a reader may not expect, and the model follows the code:

- The seeding effect inserts only addresses that are not yet in `peerMap`. It never updates an
  existing entry, and never marks one disconnected (`Rings.Seeded`).
- `changeName` on an unknown address creates an entry holding only the named property
  (`Presence.NameChanged`).
- An inbound message always sets `hasNewMessage`, whichever chat is open
  (`Rings.RingsSession.ReceiveMessage`).
- `initClient` sets the status to `connected` after the bootstrap race even when every attempt
  fails (`Rings.RingsSession.InitClient`).

## Model

| member | source | states |
|---|---|---|
| `Presence.Joined` | contexts/WebsocketProvider.tsx:27-42 | upserts exactly the canonical address, with the formatted name, empty ens/bns/status and the derived type; every other entry is unchanged |
| `Presence.Removed` | contexts/WebsocketProvider.tsx:43-50 | removes the canonical address and keeps every other entry |
| `Presence.Snapshot` | contexts/WebsocketProvider.tsx:51-69 | the keys are exactly the canonical addresses of the list; every entry has its own address, the formatted name and empty ens/bns/status, so values resolved earlier are dropped |
| `Presence.AddressesSnoc` | contexts/WebsocketProvider.tsx:54-68 | the addresses of a list are those of its prefix plus its last element's (one step of the fold) |
| `Presence.SnapshotSnoc` | contexts/WebsocketProvider.tsx:54-68 | the last identifier of a snapshot sets its own address's entry, and every other entry is the one the rest of the list produced |
| `Presence.SnapshotLastWins` | contexts/WebsocketProvider.tsx:54-68 | when identifiers share a canonical address, the entry comes from the last of them, as in the left-to-right fold |
| `Presence.StatusChanged` | contexts/WebsocketProvider.tsx:70-85 | an unknown address leaves the roster unchanged; for a known one only `status` changes |
| `Presence.WithField` | contexts/WebsocketProvider.tsx:91-96 | the property named by `key` gets the value; every other property is kept |
| `Presence.NameChanged` | contexts/WebsocketProvider.tsx:86-97 | sets only the property named by `key`; for an unknown address it creates an entry holding only that property; other entries are unchanged |
| `Presence.Reducer` | contexts/WebsocketProvider.tsx:24-101 | the new roster per action; `leave`, an unknown `changeStatus` and an unrecognised type return the given object (`leave` after deleting from it), the others a fresh object that leaves the old one untouched |
| `Presence.SnapshotThenLeave` | contexts/WebsocketProvider.tsx:43-69 | a one-peer snapshot followed by that peer's `leave` gives the empty roster |
| `Presence.JoinThenLeave` | contexts/WebsocketProvider.tsx:27-50 | `join` then `leave` of one identifier gives the old roster without that address |
| `Presence.ActionFor` | contexts/WebsocketProvider.tsx:198-212 | `'join'` gives `join`, `'leave'` gives `leave`, otherwise `data.list` gives `connected`, in that order; no message or no list dispatches nothing; a missing `data` throws |
| `Presence.Announcement` | contexts/WebsocketProvider.tsx:171-184 | sent exactly when the socket is open and the account is non-empty; carries the account, the time and the status; the did type is `ED25519` exactly for an ED25519 address type, otherwise `DEFAULT` |
| `Presence.PendingLookups` | contexts/WebsocketProvider.tsx:166-169 | an address is looked up for a name kind exactly when it is a `0x`-prefixed key whose name of that kind is empty or missing |
| `Presence.ResolvedNotPending` | contexts/WebsocketProvider.tsx:138-169 | once a non-empty name is stored for an address, that address is not looked up again for that kind; other addresses keep their lookup status |
| `Presence.JoinedIsPending` | contexts/WebsocketProvider.tsx:27-42 | a freshly joined `0x` address is looked up for both BNS and ENS |
| `Presence.EnsNeedsLowerKey` | contexts/WebsocketProvider.tsx:155-160 | an ENS name is accepted only for an all-lower-case key, because only the resolved side is lowercased |
| `Strings.Lower` | contexts/RingsProvider.tsx:87 | `toLowerCase` keeps the length, lowers each character and leaves no upper-case letter |
| `Strings.LowerOfLower` | contexts/RingsProvider.tsx:87 | lowering a lower-case string changes nothing |
| `Strings.LowerConcat` | contexts/RingsProvider.tsx:87 | lowering distributes over concatenation |
| `Strings.Split` | contexts/RingsProvider.tsx:279 | `split(';')` gives at least one piece, and no piece contains the separator |
| `Strings.SplitLength` | contexts/RingsProvider.tsx:279 | there is one more piece than there are separators |
| `Strings.JoinSplit` | contexts/RingsProvider.tsx:279 | joining the pieces of a split gives back the string |
| `Strings.SplitJoin` | contexts/RingsProvider.tsx:279 | splitting a join of separator-free pieces gives back the pieces |
| `Strings.SplitPiece` | contexts/RingsProvider.tsx:279 | a separator-free prefix joins the first piece of what follows |
| `Rings.CanonicalAddress` | contexts/RingsProvider.tsx:87 | the result is `0x` followed by the address without a leading `0x`, lowercased: an address with the prefix is only lowercased, any other gets `0x` prepended; so it is lower case and as long as the input, or two characters longer |
| `Rings.CanonicalEqualIff` | contexts/RingsProvider.tsx:87 | two addresses have the same canonical form exactly when they agree, letter case aside, after a leading `0x` is dropped; different addresses keep different forms |
| `Rings.CanonicalIdempotent` | contexts/RingsProvider.tsx:87 | canonicalisation is idempotent |
| `Rings.CanonicalMergesSpellings` | contexts/RingsProvider.tsx:87 | every spelling of an unprefixed address that differs only in letter case has the address's canonical form when `0x` is put in front of it, and also when it has no prefix |
| `Rings.UpperPrefixKept` | contexts/RingsProvider.tsx:87 | the prefix test is case-sensitive: `0XAB` becomes `0x0xab` |
| `Rings.CanonicalPeers` | contexts/RingsProvider.tsx:84-89 | keeps the length and order of the listed peers and rewrites only `address` |
| `Rings.RingsSession.FetchPeers` | contexts/RingsProvider.tsx:80-91 | with a client, `peers` becomes the canonicalised list; without one, nothing changes |
| `Rings.AddressSetSnoc` | contexts/RingsProvider.tsx:122-126 | the addresses of a list are those of its prefix plus its last element's (one loop step) |
| `Rings.Seeded` | contexts/RingsProvider.tsx:121-126 | the keys become the old keys plus the listed addresses; existing entries, resolved names included, are untouched; new entries have their address, no new message, and empty name and bns |
| `Rings.SeededStep` | contexts/RingsProvider.tsx:122-125 | one more loop iteration seeds the next peer into the map built so far |
| `Rings.SeededFirstWins` | contexts/RingsProvider.tsx:122-125 | when an address repeats in the list, the first peer with it is the one seeded |
| `Rings.SeedKnown` | contexts/RingsProvider.tsx:121-126 | seeding with peers that all have entries changes nothing |
| `Rings.SeedTwice` | contexts/RingsProvider.tsx:121-130 | running the seeding effect again over the same list is a no-op |
| `Rings.RingsSession.SeedPeerMap` | contexts/RingsProvider.tsx:121-130 | the `forEach` loop leaves `peerMap` equal to `Seeded` of the old map and `peers` |
| `Rings.WithUnread` | contexts/RingsProvider.tsx:132-139 | only `hasNewMessage` of that one key changes; an unknown key gets an entry holding only the flag |
| `Rings.RingsSession.ReadAllMessages` | contexts/RingsProvider.tsx:132-139 | clears the flag of the given address; an empty address does nothing |
| `Rings.AppendChat` | contexts/RingsProvider.tsx:254-258 | appends exactly one line at the end of the key's history, or creates a one-line history; every other history is unchanged |
| `Rings.RingsSession.ReceiveMessage` | contexts/RingsProvider.tsx:241-264 | appends `{from, to, message}` to `chats[from]` and sets `peerMap[from].hasNewMessage` to true |
| `Rings.ReceiveThenRead` | contexts/RingsProvider.tsx:132-139 | after a message is received and read, the history holds that one line and the flag is false |
| `Rings.AppendSentAsWritten` | contexts/RingsProvider.tsx:145 | the written append throws exactly when `to` has no history; otherwise it equals `AppendChat` |
| `Rings.FirstSendThrowsAsWritten` | contexts/RingsProvider.tsx:141-146 | the first message to a peer that has never written throws as written; the receive-path append creates the history instead |
| `Rings.RingsSession.SendMessage` | contexts/RingsProvider.tsx:141-147 | nothing is attempted without a client or with no peers; a rejected send appends nothing; a delivered one appends exactly one line with `from = account` (corrected append, see Findings) |
| `Rings.BootstrapTargetsAsWritten` | contexts/RingsProvider.tsx:279-281 | as written there is one attempt per `;`-segment, and each attempt is given the whole `nodeUrl` |
| `Rings.BootstrapTargets` | contexts/RingsProvider.tsx:279-281 | one attempt per `;`-segment, each given its own segment; joined back, they spell out `nodeUrl` |
| `Rings.BootstrapIgnoresSegmentAsWritten` | contexts/RingsProvider.tsx:279-281 | with the list `a;b`, the written code dials `a;b` twice, and the intended code dials `a` and then `b` |
| `Rings.InitStatusesAsWritten` | contexts/RingsProvider.tsx:227-306 | as written the statuses are exactly `connecting` then `connected` on success, and only `connecting` when signing or client construction fails; `failed` is never set |
| `Rings.InitStatuses` | contexts/RingsProvider.tsx:297-305 | `connecting`, then `connected` on success and `failed` on failure |
| `Rings.InitFailureStuckAsWritten` | contexts/RingsProvider.tsx:297-305 | as written a failed start-up ends at `connecting`; as intended it ends at `failed` |
| `Rings.RingsSession.InitClient` | contexts/RingsProvider.tsx:227-295 | does nothing unless account, provider, wasm, turnUrl and nodeUrl are all truthy; otherwise sets the statuses of `InitStatuses` in order; on success, builds the client from the account, the decoded signature and the relay URL, then dials `BootstrapTargets(nodeUrl)`; reaches `connected` whatever the attempts return (corrected statuses and bootstrap, see Findings) |
| `Rings.StartUp` | contexts/RingsProvider.tsx:192-289 | from stored configuration with two URLs: the statuses are `connecting` then `connected`, each URL is dialled once (corrected bootstrap, see Findings), and the client carries the decoded signature |
| `Rings.StoredOr` | contexts/RingsProvider.tsx:193-194 | uses the stored value when it is non-empty, otherwise the build-time default, which is `undefined` when its variable is unset |
| `Rings.ConfigReloadStable` | contexts/RingsProvider.tsx:192-201 | after the chosen value is written back, the next load chooses the same value, except that an `undefined` choice comes back as the text `undefined` |
| `Rings.UnsetDefaultReloadsAsText` | contexts/RingsProvider.tsx:192-201 | with nothing stored and the default unset, the first load gives `undefined` and the second the truthy text `undefined`, which passes `initClient`'s guard |
| `Rings.RingsSession.LoadConfig` | contexts/RingsProvider.tsx:192-201 | both URLs are chosen by `StoredOr` from the defaults as given (possibly `undefined`), and both are written back under their keys as `StoredText` gives them |
| `Rings.RingsSession.constructor` | contexts/RingsProvider.tsx:68-78 | starts disconnected, with no client, empty URLs, no peers and empty maps |
| `Identity.ChainFor` | contexts/MultiWeb3Provider.tsx:59-100 | Ethereum exactly when there is an Ethereum account and a provider, whatever the Solana state; otherwise Solana exactly when the wallet is connected and has a key; otherwise none |
| `Identity.MultiWeb3.SelectIdentity` | contexts/MultiWeb3Provider.tsx:53-101 | Ethereum sets `chain` and the lowercased account and keeps `accountName` and `addressType`; Solana sets the key, its formatted name and ED25519; none resets `chain`, `account`, `signature` and `addressType` and keeps `unsignedInfo` and `accountName`; a completed signing sets `unsignedInfo` and `signature` |
| `Identity.MultiWeb3.ApplyEnsName` | contexts/MultiWeb3Provider.tsx:47-51 | `accountName` becomes the ENS name only when both the Ethereum account and the name are non-empty |
| `Identity.MultiWeb3.constructor` | contexts/MultiWeb3Provider.tsx:40-45 | all cells start empty, with the DEFAULT address type |
| `Identity.SolanaThenEthereum` | contexts/MultiWeb3Provider.tsx:59-83 | after a Solana session, an Ethereum session keeps the ED25519 address type |
| `Onliners.Without` | hooks/useWebsocket.ts:23-24 | removes every occurrence of the identifier and keeps every other one as many times as before |
| `Onliners.WithoutConcat` | hooks/useWebsocket.ts:24 | the filter works piecewise, so the survivors keep their relative order |
| `Onliners.JoinThenLeave` | hooks/useWebsocket.ts:21-24 | a join then a leave of one identifier is the same as that leave alone |
| `Onliners.Step` | hooks/useWebsocket.ts:16-29 | no message leaves the list unchanged; `join` appends at the end (duplicates allowed); `leave` filters; a `list` replaces the roster; another string, or an object without `list`, leaves the list unchanged; a missing `data` throws |
| `Onliners.JoinAnnouncement` | hooks/useWebsocket.ts:31-39 | `{did: account, data: 'join'}` is sent exactly when the socket is open, `joinPublicRoom` is set and the account is non-empty |
| `Modals.ModalStore.constructor` | contexts/Modals/Modals.tsx:17-19 | starts closed with no content and no key |
| `Modals.ModalStore.Present` | contexts/Modals/Modals.tsx:21-28 | opens with the given content and key, replacing any earlier content |
| `Modals.ModalStore.Dismiss` | contexts/Modals/Modals.tsx:30-36 | closes and clears the content; `modalKey` is kept |
| `Modals.ModalStore.View` | contexts/Modals/Modals.tsx:48-56 | the overlay is shown exactly while open, with the content when it is a valid element |
| `Modals.PresentDismissPresent` | contexts/Modals/Modals.tsx:16-36 | present, dismiss, then present with no key: the second content is shown and the key becomes undefined |
| `Storage.KeyValueStore.SetItem` | utils/index.ts:23 | stores the string under the key; nothing else changes |
| `Storage.KeyValueStore.RemoveItem` | utils/index.ts:21 | removes the key; nothing else changes |
| `Storage.InitialState` | utils/index.ts:5-11 | a non-empty stored string is parsed, and a parse error throws; anything else gives the default |
| `Storage.StoredAfter` | utils/index.ts:19-24 | `null` removes the key; `undefined` is stored as the text `undefined`; a value is stored serialised; no other key changes |
| `Storage.LocalStorageState.SetState` | utils/index.ts:13-27 | a value equal to the state changes neither the state nor storage; any other value becomes the state, and storage changes as `StoredAfter` says |
| `Storage.LocalStorageState.constructor` | utils/index.ts:5 | holds the key, the store and the initial state |
| `Storage.UseLocalStorageState` | utils/index.ts:4-11 | the state starts at `InitialState` of the stored item; a parse error fails the render |
| `Storage.ReloadAfterSet` | utils/index.ts:6-23 | assuming the serialiser round-trips, a fresh initialiser after setting a non-null value gives that value |
| `Storage.ReloadAfterClear` | utils/index.ts:6-21 | after `null` is set, a fresh initialiser gives the default |
| `Storage.FastestEndpoint` | utils/index.ts:32-38 | with exactly one endpoint, or no `Promise.any`, the first endpoint is returned at once; otherwise all endpoints are raced |

## Left out

- The asynchronous behaviour is not modelled:
  - React's render and effect scheduling, and the stale `state` that the `useLocalStorageState`
    setter closes over;
  - the interleaving of wallet signing with later runs of the selection effect. The model takes
    each signing to finish before the next run, so a signature that arrives after a reset is
    not covered.
- The network races are left out: the `Promise.any` bootstrap race, `Promise.all` in
  `disconnect`, and the HTTP race in `getFastestEndpoint`. Only their inputs are modelled
  (the dialled URLs) and the fact that their outcome does not change the status.
- The 5-second `setInterval` polling of `fetchPeers`, the WASM `init`, `listen`, and the
  websocket reconnect options are left out. They are timers and library configuration with no
  state of their own to check.
- `connectByAddress`, `createOffer`, `answerOffer`, `acceptAnswer` and `disconnect` are left out.
  Each checks `client` and forwards to the transport client, which is not part of this model.
  `connectByAddress`, `answerOffer` and `acceptAnswer` also check an argument. `createOffer`
  checks nothing else. `disconnect` checks for a non-empty `peers` and disconnects every peer.
- The ENS and BNS lookups (`resolveENS`, `resolveBNS`, hooks/useENS.ts) are left out as
  external calls. Only the ENS acceptance rule is modelled, as `Presence.EnsConfirmed`.
- The `return () => setStatus('disconnected')` inside `initClient` is left out. It is the value
  the async callback resolves to, not an effect clean-up, so it never runs.
- `Strings.Lower`: does not model Unicode case mapping, because only ASCII letters are lowered;
  canonical addresses are hexadecimal.
- `Storage.LocalStorageState.SetState`: does not model reference identity, because the `===`
  test is taken as value equality. Two equal objects with different identities, and `NaN`, are
  not distinguished.
- `Modals.ModalStore.View`: does not inject the `onDismiss` prop into the rendered element,
  because that is markup. The backdrop's click handler is `Dismiss` itself.
- `Rings.RingsSession.ReceiveMessage`: does not decode the relay (`relay.path[0]`,
  `relay.destination`) or the message bytes, because those are foreign calls; they arrive
  already decoded as `from`, `to` and `text`.
- `Presence.ActionFor`: does not model messages with no `did` object, because the source reads
  `did.id` without checking it; `did` is always present in the model.
- `Presence.NameChanged`: does not model `key` values other than the string fields of
  `OnlinePeer`, because the source only dispatches `'ens'` and `'bns'`.
- `getAddressWithType` is not part of this model: utils/index.ts as given does not define it, so
  `Presence.Env` takes it as a parameter.

## Findings

| source | as written | input that shows it | evidently intended | confidence | as-written member | corrected member |
|---|---|---|---|---|---|---|
| contexts/RingsProvider.tsx:279-281 | each bootstrap attempt calls `connect_peer_via_http(nodeUrl)` and ignores its own `url` | `nodeUrl = "http://a;http://b"` dials `"http://a;http://b"` twice | each attempt dials its own segment (`"http://a"`, then `"http://b"`) | high, not executed | `Rings.BootstrapTargetsAsWritten` | `Rings.BootstrapTargets` |
| contexts/RingsProvider.tsx:297-305 | `initClient()` is async and not awaited, so a rejection from signing or `Client.new_client` never reaches the `catch` that sets `failed` | the wallet rejects the signature: the status stays `connecting` | a failed start-up sets the status to `failed` | high, not executed | `Rings.InitStatusesAsWritten` | `Rings.InitStatuses` |
| contexts/RingsProvider.tsx:145 | `[...chats.get(to)!, entry]` spreads `undefined` when `to` has no history, and throws after the message was sent | first `sendMessage("0xbb", "hi")` to a peer that never wrote: `TypeError`, nothing recorded | create a one-line history, as the receive path does at lines 256-258 | medium, not executed | `Rings.AppendSentAsWritten` | `Rings.AppendChat` |

`Rings.RingsSession.InitClient` and `Rings.RingsSession.SendMessage` use the corrected members.
