/** The transport session of the rings provider: the peers the transport client reports, the
    per-peer bookkeeping (`peerMap`), the chat histories, the relay/bootstrap configuration and the
    client start-up. */
module Rings {
  import opened Shared
  import opened Strings
  import Storage

  /** A peer as the transport client's `list_peers` reports it. */
  datatype Peer = Peer(address: string, state: Option<string>, transportId: string)

  /** A `peerMap` value. A field is `None` when the object lacks that property, which happens
      for the entries that `readAllMessages` and the message callback create for an unknown key. */
  datatype PeerRecord = PeerRecord(
    address: Option<string>,
    state: Option<string>,
    transportId: Option<string>,
    hasNewMessage: Option<bool>,
    name: Option<string>,
    bns: Option<string>)

  /** The object `{}`. */
  const NoRecord := PeerRecord(None, None, None, None, None, None)

  /** One chat line. */
  datatype Chat = Chat(from: string, to: string, message: string)

  /** The `status` cell. */
  datatype Status = Disconnected | Connecting | Connected | Failed

  /** The transport client, recorded by what it was constructed with: the account, the decoded
      signature and the relay (turn) URL. */
  datatype ClientInfo = ClientInfo(account: string, signature: seq<bv8>, turnUrl: string)

  // ---------------------------------------------------------------------------------------------
  // Address canonicalisation

  /** An address without a leading `0x`. */
  function Rest(address: string): string
  {
    if StartsWith(address, "0x") then address[2..] else address
  }

  /** The canonical address `fetchPeers` stores: an address starting with `0x` is lowercased,
      any other gets `0x` prepended and is then lowercased. Either way it is `0x` followed by the
      rest of the address, lowercased. */
  function CanonicalAddress(address: string): (r: string)
    ensures r == "0x" + Lower(Rest(address))
    ensures StartsWith(r, "0x") && IsLower(r)
    ensures |r| == if StartsWith(address, "0x") then |address| else |address| + 2
  {
    LowerOfLower("0x");
    if StartsWith(address, "0x") then
      assert address == "0x" + address[2..];
      LowerConcat("0x", address[2..]);
      Lower(address)
    else
      LowerConcat("0x", address);
      Lower("0x" + address)
  }

  /** Two addresses have the same canonical form exactly when they agree, letter case aside,
      once a leading `0x` is dropped. */
  lemma CanonicalEqualIff(a: string, b: string)
    ensures CanonicalAddress(a) == CanonicalAddress(b) <==> Lower(Rest(a)) == Lower(Rest(b))
  {
    if CanonicalAddress(a) == CanonicalAddress(b) {
      assert CanonicalAddress(a)[2..] == Lower(Rest(a));
      assert CanonicalAddress(b)[2..] == Lower(Rest(b));
    }
  }

  /** Canonicalising a canonical address changes nothing. */
  lemma CanonicalIdempotent(address: string)
    ensures CanonicalAddress(CanonicalAddress(address)) == CanonicalAddress(address)
  {
    LowerOfLower(CanonicalAddress(address));
  }

  /** An address without the prefix, and any spelling of it that differs only in letter case,
      with or without the prefix, have one canonical form. */
  lemma CanonicalMergesSpellings(address: string, spelling: string)
    requires !StartsWith(address, "0x") && Lower(spelling) == Lower(address)
    ensures CanonicalAddress("0x" + spelling) == CanonicalAddress(address)
    ensures !StartsWith(spelling, "0x") ==> CanonicalAddress(spelling) == CanonicalAddress(address)
  {
    assert ("0x" + spelling)[..2] == "0x" && ("0x" + spelling)[2..] == spelling;
    CanonicalEqualIff("0x" + spelling, address);
    CanonicalEqualIff(spelling, address);
  }

  /** The prefix test is case-sensitive: `0X` does not count as the prefix and is kept. */
  lemma UpperPrefixKept()
    ensures CanonicalAddress("0XAB") == "0x0xab"
  {
    assert "0XAB"[..2][1] == 'X';
    var s := "0x" + "0XAB";
    var r := Lower(s);
    assert |r| == 6;
    assert r[0] == LowerChar(s[0]) == '0' && r[1] == LowerChar(s[1]) == 'x';
    assert r[2] == LowerChar(s[2]) == '0' && r[3] == LowerChar(s[3]) == 'x';
    assert r[4] == LowerChar(s[4]) == 'a' && r[5] == LowerChar(s[5]) == 'b';
    assert r == "0x0xab";
  }

  /** `fetchPeers`' rewrite of the listed peers: same length and order, only `address` changed. */
  function CanonicalPeers(listed: seq<Peer>): (r: seq<Peer>)
    ensures |r| == |listed|
    ensures forall i :: 0 <= i < |r| ==>
      r[i].address == CanonicalAddress(listed[i].address) &&
      r[i].state == listed[i].state && r[i].transportId == listed[i].transportId
  {
    if listed == [] then []
    else [listed[0].(address := CanonicalAddress(listed[0].address))] + CanonicalPeers(listed[1..])
  }

  // ---------------------------------------------------------------------------------------------
  // Seeding the peer map

  /** `{ ...peer, hasNewMessage: false, name: '', bns: '' }`. */
  function SeedRecord(p: Peer): PeerRecord
  {
    PeerRecord(Some(p.address), p.state, Some(p.transportId), Some(false), Some(""), Some(""))
  }

  /** One step of the seeding loop: a peer whose address is not yet a key is inserted. */
  function SeedOne(m: map<string, PeerRecord>, p: Peer): map<string, PeerRecord>
  {
    if p.address in m then m else m[p.address := SeedRecord(p)]
  }

  /** The addresses of a peer list. */
  function AddressSet(ps: seq<Peer>): set<string>
  {
    set i | 0 <= i < |ps| :: ps[i].address
  }

  lemma AddressSetSnoc(ps: seq<Peer>)
    requires ps != []
    ensures AddressSet(ps) == AddressSet(ps[..|ps| - 1]) + {ps[|ps| - 1].address}
  {
    var n := |ps| - 1;
    forall k | k in AddressSet(ps) ensures k in AddressSet(ps[..n]) + {ps[n].address} {
      var i :| 0 <= i < |ps| && ps[i].address == k;
      if i < n { assert ps[..n][i] == ps[i]; }
    }
    forall k | k in AddressSet(ps[..n]) ensures k in AddressSet(ps) {
      var i :| 0 <= i < n && ps[..n][i].address == k;
      assert ps[..n][i] == ps[i];
    }
    assert ps[n].address in AddressSet(ps);
  }

  /** The peer map after the seeding loop has run over `ps`: the listed addresses are added,
      existing entries (names resolved earlier included) are untouched, and every added entry
      starts with no new message and empty names. */
  function Seeded(m: map<string, PeerRecord>, ps: seq<Peer>): (r: map<string, PeerRecord>)
    ensures r.Keys == m.Keys + AddressSet(ps)
    ensures forall k :: k in m ==> r[k] == m[k]
    ensures forall k :: k in r && k !in m ==>
      r[k].address == Some(k) && r[k].hasNewMessage == Some(false) && r[k].name == Some("") && r[k].bns == Some("")
  {
    if ps == [] then m
    else
      AddressSetSnoc(ps);
      SeedOne(Seeded(m, ps[..|ps| - 1]), ps[|ps| - 1])
  }

  /** One more iteration of the seeding loop. */
  lemma SeededStep(m: map<string, PeerRecord>, ps: seq<Peer>, i: int)
    requires 0 <= i < |ps|
    ensures Seeded(m, ps[..i + 1]) == SeedOne(Seeded(m, ps[..i]), ps[i])
  {
    assert ps[..i + 1][..i] == ps[..i];
    assert ps[..i + 1][i] == ps[i];
  }

  /** Position `i` is the first one in `ps` with address `k`. */
  predicate FirstWith(ps: seq<Peer>, i: int, k: string)
    requires 0 <= i < |ps|
  {
    ps[i].address == k && forall j :: 0 <= j < i ==> ps[j].address != k
  }

  /** When a list repeats an address, the first peer with it is the one seeded. */
  lemma {:induction false} SeededFirstWins(m: map<string, PeerRecord>, ps: seq<Peer>, k: string)
    requires k in Seeded(m, ps) && k !in m
    ensures exists i :: 0 <= i < |ps| && FirstWith(ps, i, k) && Seeded(m, ps)[k] == SeedRecord(ps[i])
  {
    var n := |ps| - 1;
    var prev := Seeded(m, ps[..n]);
    if k in prev {
      SeededFirstWins(m, ps[..n], k);
      var i :| 0 <= i < n && FirstWith(ps[..n], i, k) && prev[k] == SeedRecord(ps[..n][i]);
      assert ps[..n][i] == ps[i];
      forall j | 0 <= j < i ensures ps[j].address != k {
        assert ps[..n][j] == ps[j];
      }
      assert FirstWith(ps, n, k) || FirstWith(ps, i, k);
    } else {
      assert ps[n].address == k;
      forall j | 0 <= j < n ensures ps[j].address != k {
        assert ps[..n][j] == ps[j];
        assert ps[j].address in AddressSet(ps[..n]);
      }
      assert FirstWith(ps, n, k);
    }
  }

  /** Seeding with peers that all have entries already changes nothing; in particular the
      seeding effect running again over the same list is a no-op. */
  lemma {:induction false} SeedKnown(m: map<string, PeerRecord>, ps: seq<Peer>)
    requires AddressSet(ps) <= m.Keys
    ensures Seeded(m, ps) == m
  {
    if ps != [] {
      AddressSetSnoc(ps);
      SeedKnown(m, ps[..|ps| - 1]);
    }
  }

  lemma SeedTwice(m: map<string, PeerRecord>, ps: seq<Peer>)
    ensures Seeded(Seeded(m, ps), ps) == Seeded(m, ps)
  {
    SeedKnown(Seeded(m, ps), ps);
  }

  // ---------------------------------------------------------------------------------------------
  // Read/unread flags and chat histories

  /** `peerMap.set(a, { ...peerMap.get(a)!, hasNewMessage: flag })`: only that flag of that one key
      changes; an unknown key gets an entry holding only the flag. */
  function WithUnread(m: map<string, PeerRecord>, address: string, flag: bool): (r: map<string, PeerRecord>)
    ensures r.Keys == m.Keys + {address}
    ensures r[address].hasNewMessage == Some(flag)
    ensures address in m ==> r[address] == m[address].(hasNewMessage := Some(flag))
    ensures address !in m ==> r[address] == NoRecord.(hasNewMessage := Some(flag))
    ensures forall k :: k in m && k != address ==> r[k] == m[k]
  {
    m[address := (if address in m then m[address] else NoRecord).(hasNewMessage := Some(flag))]
  }

  /** A chat line appended at the end of one key's history, a one-line history created when there
      is none; every other history is unchanged. */
  function AppendChat(chats: map<string, seq<Chat>>, key: string, c: Chat): (r: map<string, seq<Chat>>)
    ensures r.Keys == chats.Keys + {key}
    ensures |r[key]| == (if key in chats then |chats[key]| else 0) + 1
    ensures r[key][|r[key]| - 1] == c
    ensures key in chats ==> r[key][..|chats[key]|] == chats[key]
    ensures forall k :: k in chats && k != key ==> r[k] == chats[k]
  {
    chats[key := (if key in chats then chats[key] else []) + [c]]
  }

  /** `sendMessage`'s append as written: `[...chats.get(to)!, entry]` spreads `undefined` and
      throws when `to` has no history yet. */
  function AppendSentAsWritten(chats: map<string, seq<Chat>>, to: string, c: Chat): (r: Result<map<string, seq<Chat>>, string>)
    ensures r.Err? <==> to !in chats
    ensures r.Ok? ==> r.value == AppendChat(chats, to, c)
  {
    if to in chats then Ok(chats[to := chats[to] + [c]])
    else Err("TypeError: chats.get(...) is not iterable")
  }

  /** The first message sent to a peer that has never written throws, although the receive path
      creates the history in the same situation. */
  lemma FirstSendThrowsAsWritten(from: string, to: string, text: string)
    ensures AppendSentAsWritten(map[], to, Chat(from, to, text)).Err?
    ensures to in AppendChat(map[], to, Chat(from, to, text))
  {
  }

  // ---------------------------------------------------------------------------------------------
  // Client start-up

  /** `initClient`'s guard: an account, a provider, the loaded WASM module, a relay URL and a
      bootstrap URL list. */
  predicate ReadyToInit(account: string, hasProvider: bool, wasmReady: bool, turnUrl: Option<string>, nodeUrl: Option<string>)
  {
    account != "" && hasProvider && wasmReady && Truthy(turnUrl) && Truthy(nodeUrl)
  }

  /** The URLs handed to `connect_peer_via_http` as written: one call per `;`-segment, each given
      the whole list. */
  function BootstrapTargetsAsWritten(nodeUrl: string): (r: seq<string>)
    ensures |r| == Count(nodeUrl, ';') + 1
    ensures forall i :: 0 <= i < |r| ==> r[i] == nodeUrl
  {
    SplitLength(nodeUrl, ';');
    seq(|Split(nodeUrl, ';')|, i => nodeUrl)
  }

  /** The URLs the bootstrap race evidently means to try: one per `;`-segment, each given its own
      segment; together they spell out the configured list. */
  function BootstrapTargets(nodeUrl: string): (r: seq<string>)
    ensures |r| == Count(nodeUrl, ';') + 1
    ensures forall i :: 0 <= i < |r| ==> ';' !in r[i]
    ensures Join(r, ';') == nodeUrl
  {
    SplitLength(nodeUrl, ';');
    JoinSplit(nodeUrl, ';');
    Split(nodeUrl, ';')
  }

  /** With two configured URLs, written code dials the joined list twice instead of each URL. */
  lemma BootstrapIgnoresSegmentAsWritten(a: string, b: string)
    requires ';' !in a && ';' !in b
    ensures BootstrapTargets(a + [';'] + b) == [a, b]
    ensures BootstrapTargetsAsWritten(a + [';'] + b) == [a + [';'] + b, a + [';'] + b]
    ensures BootstrapTargetsAsWritten(a + [';'] + b) != BootstrapTargets(a + [';'] + b)
  {
    var list := a + [';'] + b;
    assert Join([a, b], ';') == list by {
      assert [a, b][1..] == [b];
    }
    SplitJoin([a, b], ';');
    assert |list| > |a|;
  }

  /** The statuses `initClient` sets as written, once its guard passes: `connecting`, then
      `connected` after the bootstrap race whatever its outcome. A rejected signature or client
      construction rejects the un-awaited promise, which the effect's `try`/`catch` never sees, so
      nothing more is set. */
  function InitStatusesAsWritten(signed: bool, created: bool): (r: seq<Status>)
    ensures |r| == (if signed && created then 2 else 1) && r[0] == Connecting
    ensures r[|r| - 1] == Connected <==> signed && created
    ensures Failed !in r
  {
    if signed && created then [Connecting, Connected] else [Connecting]
  }

  /** The statuses evidently intended: a start-up failure reaches the effect's `catch`, which
      sets `failed`. */
  function InitStatuses(signed: bool, created: bool): (r: seq<Status>)
    ensures |r| == 2 && r[0] == Connecting
    ensures r[1] == Connected <==> signed && created
    ensures r[1] == Failed <==> !(signed && created)
  {
    [Connecting, if signed && created then Connected else Failed]
  }

  /** As written a failed start-up leaves the status at `connecting` for good; as intended the
      status never ends at `connecting`. */
  lemma InitFailureStuckAsWritten(signed: bool, created: bool)
    requires !(signed && created)
    ensures InitStatusesAsWritten(signed, created)[|InitStatusesAsWritten(signed, created)| - 1] == Connecting
    ensures InitStatuses(signed, created)[|InitStatuses(signed, created)| - 1] == Failed
  {
  }

  // ---------------------------------------------------------------------------------------------
  // Configuration

  /** `localStorage.getItem(key) || fallback`, where the build-time default `fallback` is
      `undefined` (`None`) when its environment variable is unset. */
  function StoredOr(items: map<string, string>, key: string, fallback: Option<string>): (r: Option<string>)
    ensures key in items && items[key] != "" ==> r == Some(items[key])
    ensures !(key in items && items[key] != "") ==> r == fallback
  {
    if key in items && items[key] != "" then Some(items[key]) else fallback
  }

  /** The text `setItem` stores for a chosen value: it converts `undefined` to `"undefined"`. */
  function StoredText(v: Option<string>): (r: string)
    ensures v.Some? ==> r == v.value
    ensures v.None? ==> r == "undefined"
  {
    if v.Some? then v.value else "undefined"
  }

  /** Writing the chosen value back makes the next load choose it again, unless it was
      `undefined`: that is stored as the text `"undefined"`, which the next load chooses. */
  lemma ConfigReloadStable(items: map<string, string>, key: string, fallback: Option<string>)
    ensures var first := StoredOr(items, key, fallback);
      StoredOr(items[key := StoredText(first)], key, fallback) == if first.Some? then first else Some("undefined")
  {
  }

  /** With nothing stored and the default unset, the first load leaves the URL `undefined`, but
      the second picks the text `"undefined"`, which passes the truthiness test of
      `initClient`'s guard. */
  lemma UnsetDefaultReloadsAsText(items: map<string, string>, key: string)
    requires key !in items
    ensures StoredOr(items, key, None) == None
    ensures StoredOr(items[key := StoredText(StoredOr(items, key, None))], key, None) == Some("undefined")
    ensures Truthy(StoredOr(items[key := StoredText(StoredOr(items, key, None))], key, None))
  {
    ConfigReloadStable(items, key, None);
  }

  /** Outcome of `sendMessage`. */
  datatype SendOutcome = NotAttempted | SendRejected | Sent

  /** The provider's state cells and the two maps it changes in place. */
  class RingsSession {
    var turnUrl: Option<string>
    var nodeUrl: Option<string>
    var status: Status
    var client: Option<ClientInfo>
    var peers: seq<Peer>
    var peerMap: map<string, PeerRecord>
    var chats: map<string, seq<Chat>>
    /** Every status set so far, in order (the sequence of `setStatus` calls). */
    var statusTrace: seq<Status>
    /** The URLs handed to `connect_peer_via_http` in the last bootstrap race. */
    var attempts: seq<string>

    constructor ()
      ensures turnUrl == Some("") && nodeUrl == Some("") && status == Disconnected && client == None
      ensures peers == [] && peerMap == map[] && chats == map[]
      ensures statusTrace == [] && attempts == []
    {
      turnUrl, nodeUrl := Some(""), Some("");
      status := Disconnected;
      client := None;
      peers, peerMap, chats := [], map[], map[];
      statusTrace, attempts := [], [];
    }

    /** The configuration effect: each URL is the stored one when non-empty, else the build-time
        default (`None` when its variable is unset), and both chosen values are written back, an
        unset one as the text `"undefined"`. */
    method LoadConfig(store: Storage.KeyValueStore, defaultTurn: Option<string>, defaultNode: Option<string>)
      modifies this`turnUrl, this`nodeUrl, store
      ensures turnUrl == StoredOr(old(store.items), "turnUrl", defaultTurn)
      ensures nodeUrl == StoredOr(old(store.items), "nodeUrl", defaultNode)
      ensures store.items == old(store.items)["turnUrl" := StoredText(turnUrl)]["nodeUrl" := StoredText(nodeUrl)]
    {
      var t := StoredOr(store.items, "turnUrl", defaultTurn);
      var n := StoredOr(store.items, "nodeUrl", defaultNode);
      turnUrl := t;
      nodeUrl := n;
      store.SetItem("turnUrl", StoredText(t));
      store.SetItem("nodeUrl", StoredText(n));
    }

    /** `fetchPeers`, given what `list_peers` returned: without a client nothing happens. */
    method FetchPeers(listed: seq<Peer>)
      modifies this`peers
      ensures client.Some? ==> peers == CanonicalPeers(listed)
      ensures client.None? ==> peers == old(peers)
    {
      if client.Some? {
        peers := CanonicalPeers(listed);
      }
    }

    /** The seeding effect: a loop over `peers` inserting each unknown address. */
    method SeedPeerMap()
      modifies this`peerMap
      ensures peerMap == Seeded(old(peerMap), peers)
    {
      var i := 0;
      ghost var start := peerMap;
      while i < |peers|
        invariant 0 <= i <= |peers|
        invariant peerMap == Seeded(start, peers[..i])
      {
        SeededStep(start, peers, i);
        if peers[i].address !in peerMap {
          peerMap := peerMap[peers[i].address := SeedRecord(peers[i])];
        }
        i := i + 1;
      }
      assert peers[..i] == peers;
    }

    /** `readAllMessages(address)`: clears the new-message flag of that address; an empty address
        does nothing. */
    method ReadAllMessages(address: string)
      modifies this`peerMap
      ensures address != "" ==> peerMap == WithUnread(old(peerMap), address, false)
      ensures address == "" ==> peerMap == old(peerMap)
    {
      if address != "" {
        peerMap := WithUnread(peerMap, address, false);
      }
    }

    /** The message callback, given the relay's first hop `from`, its destination `to` and the
        decoded text: the line is appended to `from`'s history and `from` is flagged. */
    method ReceiveMessage(from: string, to: string, text: string)
      modifies this`chats, this`peerMap
      ensures chats == AppendChat(old(chats), from, Chat(from, to, text))
      ensures peerMap == WithUnread(old(peerMap), from, true)
    {
      chats := AppendChat(chats, from, Chat(from, to, text));
      peerMap := WithUnread(peerMap, from, true);
    }

    /** `sendMessage(to, text)` for the signed-in `account`; `delivered` says whether the
        transport's `send_message` resolved. Only with a client and a non-empty peer list is
        anything sent, and only a delivered message is appended, with `from == account`. */
    method SendMessage(to: string, text: string, account: string, delivered: bool) returns (outcome: SendOutcome)
      modifies this`chats
      ensures outcome == (if client.Some? && |peers| > 0 then (if delivered then Sent else SendRejected) else NotAttempted)
      ensures outcome == Sent ==> chats == AppendChat(old(chats), to, Chat(account, to, text))
      ensures outcome != Sent ==> chats == old(chats)
    {
      if !(client.Some? && |peers| > 0) {
        return NotAttempted;
      }
      if !delivered {
        return SendRejected;
      }
      chats := AppendChat(chats, to, Chat(account, to, text));
      outcome := Sent;
    }

    /** `initClient`. `signed` is the signer's hex output (`None` when the wallet rejects),
        `created` whether `Client.new_client` resolved, and `hexToBytes` the hex decoder. Nothing
        happens unless the guard holds; then the statuses of `InitStatuses` are set in order, and
        on success the client is built from the account, the decoded signature and the relay URL,
        and the bootstrap race is run over `BootstrapTargets`. Both are the corrected behaviour:
        as written a failure stops at `connecting` (`InitStatusesAsWritten`) and every attempt
        dials the whole list (`BootstrapTargetsAsWritten`). */
    method InitClient(account: string, hasProvider: bool, wasmReady: bool,
                      signed: Option<string>, created: bool, hexToBytes: string -> seq<bv8>)
      modifies this`status, this`client, this`statusTrace, this`attempts
      ensures !ReadyToInit(account, hasProvider, wasmReady, turnUrl, nodeUrl) ==>
        status == old(status) && client == old(client) && statusTrace == old(statusTrace) && attempts == old(attempts)
      ensures ReadyToInit(account, hasProvider, wasmReady, turnUrl, nodeUrl) ==>
        statusTrace == old(statusTrace) + InitStatuses(signed.Some?, created) &&
        status == InitStatuses(signed.Some?, created)[1]
      ensures ReadyToInit(account, hasProvider, wasmReady, turnUrl, nodeUrl) && signed.Some? && created ==>
        client == Some(ClientInfo(account, hexToBytes(signed.value), turnUrl.value)) &&
        attempts == BootstrapTargets(nodeUrl.value)
      ensures !(signed.Some? && created) ==> client == old(client) && attempts == old(attempts)
    {
      if !ReadyToInit(account, hasProvider, wasmReady, turnUrl, nodeUrl) {
        return;
      }
      status := Connecting;
      statusTrace := statusTrace + [Connecting];
      if signed.None? || !created {
        status := Failed;
        statusTrace := statusTrace + [Failed];
        return;
      }
      client := Some(ClientInfo(account, hexToBytes(signed.value), turnUrl.value));
      attempts := BootstrapTargets(nodeUrl.value);
      status := Connected;
      statusTrace := statusTrace + [Connected];
    }
  }

  /** A message received from a peer that is then read: its history holds that one line and its
      flag is cleared again. */
  method ReceiveThenRead(from: string, to: string, text: string) returns (flag: Option<bool>, history: seq<Chat>)
    requires from != ""
    ensures flag == Some(false) && history == [Chat(from, to, text)]
  {
    var s := new RingsSession();
    s.ReceiveMessage(from, to, text);
    assert s.peerMap[from].hasNewMessage == Some(true);
    s.ReadAllMessages(from);
    flag, history := s.peerMap[from].hasNewMessage, s.chats[from];
  }

  /** Start-up from stored configuration with two bootstrap URLs, under the corrected bootstrap:
      the status goes `connecting`, then `connected`, and each URL is dialled once, whichever of
      them answers. As written, the joined list `a;b` is dialled twice instead
      (`BootstrapIgnoresSegmentAsWritten`). */
  method StartUp(account: string, turn: string, a: string, b: string, signed: string, hexToBytes: string -> seq<bv8>)
    returns (trace: seq<Status>, targets: seq<string>, client: Option<ClientInfo>)
    requires account != "" && turn != "" && ';' !in a && ';' !in b
    ensures trace == [Connecting, Connected] && targets == [a, b]
    ensures client == Some(ClientInfo(account, hexToBytes(signed), turn))
  {
    var store := new Storage.KeyValueStore(map["turnUrl" := turn, "nodeUrl" := a + [';'] + b]);
    var s := new RingsSession();
    s.LoadConfig(store, None, None);
    assert s.nodeUrl == Some(a + [';'] + b) by {
      assert |a + [';'] + b| > 0;
    }
    s.InitClient(account, true, true, Some(signed), true, hexToBytes);
    BootstrapIgnoresSegmentAsWritten(a, b);
    trace, targets, client := s.statusTrace, s.attempts, s.client;
  }
}
