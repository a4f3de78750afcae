/** The presence roster of the websocket provider: the identities the presence service
    reports online, keyed by canonical address, and the messages exchanged with that service. */
module Presence {
  import opened Shared
  import opened Strings

  /** What `getAddressWithType` gives for an identifier: its canonical address and its type. */
  datatype AddressWithType = AddressWithType(address: string, kind: AddressType)

  /** The two helpers the reducer calls, whose code is not part of this model:
      `getAddressWithType` and `formatAddress` (a display string for an address). */
  datatype Env = Env(addressWithType: string -> AddressWithType, formatAddress: string -> string)

  /** An `OnlinePeer` object. A field is `None` when the object lacks that property, which
      happens for an entry that `changeName` creates for an unknown address. */
  datatype OnlinePeer = OnlinePeer(
    address: Option<string>,
    name: Option<string>,
    ens: Option<string>,
    bns: Option<string>,
    status: Option<string>,
    kind: Option<AddressType>)

  /** The object `{}`: no property set. */
  const NoFields := OnlinePeer(None, None, None, None, None, None)

  /** The roster: an object keyed by canonical address. */
  type Roster = map<string, OnlinePeer>

  /** A `did` as the presence service sends it. */
  datatype Did = Did(id: string, kind: string)

  /** The string properties of an `OnlinePeer` that `changeName` may set through `key`. */
  datatype Field = AddressField | NameField | EnsField | BnsField | StatusField

  /** The reducer's actions; `Unrecognised` is any other `type` string. */
  datatype Action =
    | Join(peer: Did)
    | Leave(peer: Did)
    | Connected(peers: seq<Did>)
    | ChangeStatus(address: string, status: string)
    | ChangeName(address: string, key: Field, name: string)
    | Unrecognised(tag: string)

  /** The canonical address of an identifier. */
  function Canon(env: Env, id: string): string
  {
    env.addressWithType(id).address
  }

  /** The entry `join` and `connected` build: canonical address, formatted name, no resolved
      names, no status, and the derived type. */
  function NewEntry(env: Env, id: string): OnlinePeer
  {
    var a := env.addressWithType(id);
    OnlinePeer(Some(a.address), Some(env.formatAddress(a.address)), Some(""), Some(""), Some(""), Some(a.kind))
  }

  /** The value of one string property. */
  function FieldValue(p: OnlinePeer, f: Field): Option<string>
  {
    match f
    case AddressField => p.address
    case NameField => p.name
    case EnsField => p.ens
    case BnsField => p.bns
    case StatusField => p.status
  }

  /** `{ ...p, [key]: v }`: that one property set, every other one kept. */
  function WithField(p: OnlinePeer, key: Field, v: string): (r: OnlinePeer)
    ensures FieldValue(r, key) == Some(v)
    ensures forall f :: f != key ==> FieldValue(r, f) == FieldValue(p, f)
    ensures r.kind == p.kind
  {
    match key
    case AddressField => p.(address := Some(v))
    case NameField => p.(name := Some(v))
    case EnsField => p.(ens := Some(v))
    case BnsField => p.(bns := Some(v))
    case StatusField => p.(status := Some(v))
  }

  /** `join`: an upsert of exactly the canonical address, with a fresh entry. */
  function Joined(state: Roster, env: Env, id: string): (r: Roster)
    ensures r.Keys == state.Keys + {Canon(env, id)}
    ensures r[Canon(env, id)] == NewEntry(env, id)
    ensures forall k :: k in state && k != Canon(env, id) ==> r[k] == state[k]
  {
    state[Canon(env, id) := NewEntry(env, id)]
  }

  /** `leave`: the canonical address removed, every other entry kept. */
  function Removed(state: Roster, env: Env, id: string): (r: Roster)
    ensures r.Keys == state.Keys - {Canon(env, id)}
    ensures forall k :: k in r ==> r[k] == state[k]
  {
    state - {Canon(env, id)}
  }

  /** The canonical addresses of a list of identifiers. */
  function Addresses(env: Env, peers: seq<Did>): set<string>
  {
    set i | 0 <= i < |peers| :: Canon(env, peers[i].id)
  }

  /** Position `i` is the last one in `peers` whose canonical address is `k`. */
  predicate LastWith(env: Env, peers: seq<Did>, i: int, k: string)
    requires 0 <= i < |peers|
  {
    Canon(env, peers[i].id) == k && forall j :: i < j < |peers| ==> Canon(env, peers[j].id) != k
  }

  /** `connected`: the snapshot folded into an empty object, left to right. The keys are exactly
      the canonical addresses of the list, and every entry is fresh, so names resolved earlier
      and statuses are gone. */
  function Snapshot(env: Env, peers: seq<Did>): (r: Roster)
    ensures r.Keys == Addresses(env, peers)
    ensures forall k :: k in r ==>
      r[k].address == Some(k) && r[k].name == Some(env.formatAddress(k)) &&
      r[k].ens == Some("") && r[k].bns == Some("") && r[k].status == Some("")
  {
    if peers == [] then map[]
    else
      var n := |peers| - 1;
      var prev := Snapshot(env, peers[..n]);
      AddressesSnoc(env, peers);
      prev[Canon(env, peers[n].id) := NewEntry(env, peers[n].id)]
  }

  /** The addresses of a non-empty list: those of all but its last element, plus the last's. */
  lemma AddressesSnoc(env: Env, peers: seq<Did>)
    requires peers != []
    ensures Addresses(env, peers) == Addresses(env, peers[..|peers| - 1]) + {Canon(env, peers[|peers| - 1].id)}
  {
    var n := |peers| - 1;
    forall k | k in Addresses(env, peers)
      ensures k in Addresses(env, peers[..n]) + {Canon(env, peers[n].id)}
    {
      var i :| 0 <= i < |peers| && Canon(env, peers[i].id) == k;
      if i < n { assert peers[..n][i] == peers[i]; }
    }
    forall k | k in Addresses(env, peers[..n])
      ensures k in Addresses(env, peers)
    {
      var i :| 0 <= i < n && Canon(env, peers[..n][i].id) == k;
      assert peers[..n][i] == peers[i];
    }
    assert Canon(env, peers[n].id) in Addresses(env, peers);
  }

  /** The last identifier of a snapshot decides its own address's entry and leaves every other
      entry as the rest of the list made it. */
  lemma SnapshotSnoc(env: Env, peers: seq<Did>, k: string)
    requires peers != []
    ensures var n := |peers| - 1;
      k == Canon(env, peers[n].id) ==> k in Snapshot(env, peers) && Snapshot(env, peers)[k] == NewEntry(env, peers[n].id)
    ensures var n := |peers| - 1;
      k != Canon(env, peers[n].id) ==>
        (k in Snapshot(env, peers) <==> k in Snapshot(env, peers[..n])) &&
        (k in Snapshot(env, peers) ==> Snapshot(env, peers)[k] == Snapshot(env, peers[..n])[k])
  {
  }

  /** A last occurrence in a prefix stays the last one when the next identifier has another
      address. */
  lemma LastWithSnoc(env: Env, peers: seq<Did>, i: int, k: string)
    requires peers != [] && 0 <= i < |peers| - 1
    requires LastWith(env, peers[..|peers| - 1], i, k) && Canon(env, peers[|peers| - 1].id) != k
    ensures LastWith(env, peers, i, k)
  {
    var n := |peers| - 1;
    assert peers[..n][i] == peers[i];
    forall j | i < j < |peers| ensures Canon(env, peers[j].id) != k {
      if j < n { assert peers[..n][j] == peers[j]; }
    }
  }

  /** When several identifiers of a snapshot share a canonical address, the last one decides the
      entry, as in the left-to-right fold. */
  lemma {:induction false} SnapshotLastWins(env: Env, peers: seq<Did>, k: string)
    requires k in Snapshot(env, peers)
    ensures exists i :: 0 <= i < |peers| && LastWith(env, peers, i, k) && Snapshot(env, peers)[k] == NewEntry(env, peers[i].id)
  {
    var n := |peers| - 1;
    SnapshotSnoc(env, peers, k);
    if Canon(env, peers[n].id) == k {
      assert LastWith(env, peers, n, k);
    } else {
      SnapshotLastWins(env, peers[..n], k);
      var i :| 0 <= i < n && LastWith(env, peers[..n], i, k) && Snapshot(env, peers[..n])[k] == NewEntry(env, peers[..n][i].id);
      assert peers[..n][i] == peers[i];
      LastWithSnoc(env, peers, i, k);
    }
  }

  /** `changeStatus`: nothing happens for an unknown address; for a known one only its `status`
      changes. */
  function StatusChanged(state: Roster, env: Env, peer: string, status: string): (r: Roster)
    ensures Canon(env, peer) !in state ==> r == state
    ensures Canon(env, peer) in state ==>
      r.Keys == state.Keys &&
      r[Canon(env, peer)] == state[Canon(env, peer)].(status := Some(status)) &&
      forall k :: k in state && k != Canon(env, peer) ==> r[k] == state[k]
  {
    var a := Canon(env, peer);
    if a !in state then state else state[a := state[a].(status := Some(status))]
  }

  /** `changeName`: the one property named by `key` is set. The peer's presence is not checked,
      so for an unknown address an entry holding only that property appears. */
  function NameChanged(state: Roster, env: Env, peer: string, key: Field, name: string): (r: Roster)
    ensures r.Keys == state.Keys + {Canon(env, peer)}
    ensures r[Canon(env, peer)] == WithField(if Canon(env, peer) in state then state[Canon(env, peer)] else NoFields, key, name)
    ensures Canon(env, peer) !in state ==>
      FieldValue(r[Canon(env, peer)], key) == Some(name) &&
      (forall f :: f != key ==> FieldValue(r[Canon(env, peer)], f).None?) && r[Canon(env, peer)].kind.None?
    ensures forall k :: k in state && k != Canon(env, peer) ==> r[k] == state[k]
  {
    var a := Canon(env, peer);
    state[a := WithField(if a in state then state[a] else NoFields, key, name)]
  }

  /** The reducer's new roster for an action. */
  function Transition(state: Roster, env: Env, action: Action): Roster
  {
    match action
    case Join(d) => Joined(state, env, d.id)
    case Leave(d) => Removed(state, env, d.id)
    case Connected(peers) => Snapshot(env, peers)
    case ChangeStatus(peer, status) => StatusChanged(state, env, peer, status)
    case ChangeName(peer, key, name) => NameChanged(state, env, peer, key, name)
    case Unrecognised(_) => state
  }

  /** The actions for which the reducer hands back the state object it was given. */
  predicate KeepsObject(state: Roster, env: Env, action: Action)
  {
    match action
    case Leave(_) => true
    case ChangeStatus(peer, _) => Canon(env, peer) !in state
    case Unrecognised(_) => true
    case _ => false
  }

  /** The roster object held by the reducer hook. */
  class OnlinerMap {
    var entries: Roster

    constructor (entries: Roster)
      ensures this.entries == entries
    {
      this.entries := entries;
    }
  }

  /** The reducer. `leave` deletes from the given object and returns it; an unknown
      `changeStatus` and an unrecognised action return it untouched; every other action leaves
      it alone and returns a new object. */
  method Reducer(state: OnlinerMap, env: Env, action: Action) returns (next: OnlinerMap)
    modifies state
    ensures next.entries == Transition(old(state.entries), env, action)
    ensures KeepsObject(old(state.entries), env, action) ==> next == state
    ensures !KeepsObject(old(state.entries), env, action) ==> fresh(next) && unchanged(state)
  {
    match action {
      case Leave(d) =>
        state.entries := state.entries - {Canon(env, d.id)};
        next := state;
      case Unrecognised(_) =>
        next := state;
      case ChangeStatus(peer, status) =>
        if Canon(env, peer) !in state.entries {
          next := state;
        } else {
          next := new OnlinerMap(StatusChanged(state.entries, env, peer, status));
        }
      case Join(d) =>
        next := new OnlinerMap(Joined(state.entries, env, d.id));
      case Connected(peers) =>
        next := new OnlinerMap(Snapshot(env, peers));
      case ChangeName(peer, key, name) =>
        next := new OnlinerMap(NameChanged(state.entries, env, peer, key, name));
    }
  }

  /** A `connected` snapshot followed by `leave` of its only peer empties the roster. */
  lemma SnapshotThenLeave(state: Roster, env: Env, d: Did)
    ensures Transition(Transition(state, env, Connected([d])), env, Leave(d)) == map[]
  {
    AddressesSnoc(env, [d]);
    assert [d][..0] == [];
    assert Addresses(env, []) == {};
  }

  /** `join` then `leave` of the same identifier leaves every other entry as it was. */
  lemma JoinThenLeave(state: Roster, env: Env, d: Did)
    ensures Transition(Transition(state, env, Join(d)), env, Leave(d)) == state - {Canon(env, d.id)}
  {
  }

  // ---------------------------------------------------------------------------------------------
  // Inbound presence messages

  /** The `data` of an inbound message: a string, an object (with or without `list`), or absent. */
  datatype MessageData = Word(text: string) | Payload(list: Option<seq<Did>>) | NoData

  /** An inbound `{ did, data }` message. */
  datatype Inbound = Inbound(did: Did, data: MessageData)

  /** The action dispatched for the last message, checked in the order `'join'`, `'leave'`,
      `data.list`; a missing message dispatches nothing, and a missing `data` throws when
      `data.list` is read. */
  function ActionFor(msg: Option<Inbound>): (r: Result<Option<Action>, string>)
    ensures msg.None? ==> r == Ok(None)
    ensures r.Err? <==> msg.Some? && msg.value.data.NoData?
    ensures r.Ok? && r.value.Some? ==> r.value.value in {Join(msg.value.did), Leave(msg.value.did)} || r.value.value.Connected?
    ensures msg.Some? && msg.value.data == Word("join") ==> r == Ok(Some(Join(msg.value.did)))
    ensures msg.Some? && msg.value.data == Word("leave") ==> r == Ok(Some(Leave(msg.value.did)))
    ensures msg.Some? && msg.value.data.Word? && msg.value.data.text !in {"join", "leave"} ==> r == Ok(None)
    ensures msg.Some? && msg.value.data.Payload? ==>
      r == Ok(if msg.value.data.list.Some? then Some(Connected(msg.value.data.list.value)) else None)
  {
    match msg
    case None => Ok(None)
    case Some(Inbound(did, data)) =>
      if data == Word("join") then Ok(Some(Join(did)))
      else if data == Word("leave") then Ok(Some(Leave(did)))
      else match data
        case Word(_) => Ok(None)
        case Payload(list) => Ok(if list.Some? then Some(Connected(list.value)) else None)
        case NoData => Err("TypeError: cannot read property 'list' of undefined")
  }

  // ---------------------------------------------------------------------------------------------
  // Outbound announcement

  /** The status argument of `sendMessage`. */
  datatype Announce = AnnounceJoin | AnnounceLeave

  function AnnounceText(s: Announce): string
  {
    match s
    case AnnounceJoin => "join"
    case AnnounceLeave => "leave"
  }

  /** The JSON object sent to the presence service. */
  datatype Outbound = Outbound(didId: string, didType: string, timestamp: int, data: string)

  /** `sendMessage(status)`: the announcement, sent only while the socket is open and there is an
      account; `now` stands for `Date.now()`. */
  function Announcement(readyState: ReadyState, account: string, addressType: AddressType, status: Announce, now: int): (r: Option<Outbound>)
    ensures r.Some? <==> readyState == SocketOpen && account != ""
    ensures r.Some? ==> r.value.didId == account && r.value.timestamp == now && r.value.data == AnnounceText(status)
    ensures r.Some? ==> (r.value.didType == "ED25519" <==> addressType == Ed25519)
    ensures r.Some? ==> r.value.didType in {"ED25519", "DEFAULT"}
  {
    if readyState == SocketOpen && account != "" then
      Some(Outbound(account, if addressType == Ed25519 then "ED25519" else "DEFAULT", now, AnnounceText(status)))
    else None
  }

  // ---------------------------------------------------------------------------------------------
  // Name resolution requests

  /** The addresses handed to the BNS (`key == BnsField`) or ENS (`key == EnsField`) lookup after
      a roster change: `0x`-prefixed keys whose name of that kind is empty or missing. */
  function PendingLookups(state: Roster, key: Field): (r: set<string>)
    ensures forall a :: a in r <==> a in state && StartsWith(a, "0x") && !Truthy(FieldValue(state[a], key))
  {
    set a | a in state && StartsWith(a, "0x") && !Truthy(FieldValue(state[a], key))
  }

  /** Once a non-empty name of a kind is stored for an address, that address is no longer looked
      up for that kind, and the other addresses' lookups are as before. */
  lemma ResolvedNotPending(state: Roster, env: Env, peer: string, key: Field, name: string)
    requires name != ""
    ensures Canon(env, peer) !in PendingLookups(NameChanged(state, env, peer, key, name), key)
    ensures forall a :: a != Canon(env, peer) ==>
      (a in PendingLookups(NameChanged(state, env, peer, key, name), key) <==> a in PendingLookups(state, key))
  {
  }

  /** A freshly joined `0x` address is looked up by both BNS and ENS. */
  lemma JoinedIsPending(state: Roster, env: Env, d: Did)
    requires StartsWith(Canon(env, d.id), "0x")
    ensures Canon(env, d.id) in PendingLookups(Transition(state, env, Join(d)), BnsField)
    ensures Canon(env, d.id) in PendingLookups(Transition(state, env, Join(d)), EnsField)
  {
  }

  /** The ENS acceptance rule of `resolveENS`: the forward-resolved address, lowercased, equals the
      roster key. */
  predicate EnsConfirmed(address: string, resolved: Option<string>)
  {
    Truthy(resolved) && address == Lower(resolved.value)
  }

  /** Only the forward-resolved side is lowercased, so a key holding an upper-case letter never
      has an ENS name accepted. */
  lemma EnsNeedsLowerKey(address: string, resolved: Option<string>)
    requires EnsConfirmed(address, resolved)
    ensures IsLower(address)
  {
  }
}
