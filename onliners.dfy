/** The legacy presence hook: an ordered list of online identifiers updated from the last socket
    message, and the join announcement it sends. */
module Onliners {
  import opened Shared
  import opened Strings

  /** The `data` of a message: a string, an object (with or without `list`), or absent. */
  datatype LegacyData = Word(text: string) | Payload(list: Option<seq<string>>) | NoData

  /** A `{ did, data }` message. */
  datatype LegacyMessage = LegacyMessage(did: string, data: LegacyData)

  /** `prev.filter(o => o !== did)`: every occurrence of `did` gone, every other identifier kept
      as often as before. */
  function Without(s: seq<string>, did: string): (r: seq<string>)
    ensures did !in r
    ensures |r| == |s| - Count(s, did)
    ensures forall y :: y != did ==> Count(r, y) == Count(s, y)
  {
    if s == [] then []
    else if s[0] == did then Without(s[1..], did)
    else [s[0]] + Without(s[1..], did)
  }

  /** Filtering works piecewise, so the survivors keep their relative order. */
  lemma {:induction false} WithoutConcat(a: seq<string>, b: seq<string>, did: string)
    ensures Without(a + b, did) == Without(a, did) + Without(b, did)
  {
    if a != [] {
      assert (a + b)[1..] == a[1..] + b;
      WithoutConcat(a[1..], b, did);
    } else {
      assert a + b == b;
    }
  }

  /** A join then a leave of the same identifier removes every occurrence of it, as if it had
      never joined. */
  lemma JoinThenLeave(s: seq<string>, did: string)
    ensures Without(s + [did], did) == Without(s, did)
  {
    WithoutConcat(s, [did], did);
    assert Without([did], did) == [];
  }

  /** The update of the last message. A missing message leaves the list as it is; `'join'` appends
      the identifier (duplicates allowed); `'leave'` removes all its occurrences; a `list` replaces
      the list; any other string or object without `list` changes nothing; a missing `data`
      throws when `data.list` is read. */
  function Step(prev: seq<string>, msg: Option<LegacyMessage>): (r: Result<seq<string>, string>)
    ensures msg.None? ==> r == Ok(prev)
    ensures r.Err? <==> msg.Some? && msg.value.data.NoData?
    ensures msg.Some? && msg.value.data == Word("join") ==>
      r.Ok? && |r.value| == |prev| + 1 && r.value[..|prev|] == prev && r.value[|prev|] == msg.value.did
    ensures msg.Some? && msg.value.data == Word("leave") ==> r == Ok(Without(prev, msg.value.did))
    ensures msg.Some? && msg.value.data.Payload? && msg.value.data.list.Some? ==> r == Ok(msg.value.data.list.value)
    ensures msg.Some? && msg.value.data.Payload? && msg.value.data.list.None? ==> r == Ok(prev)
    ensures msg.Some? && msg.value.data.Word? && msg.value.data.text !in {"join", "leave"} ==> r == Ok(prev)
  {
    match msg
    case None => Ok(prev)
    case Some(LegacyMessage(did, data)) =>
      if data == Word("join") then Ok(prev + [did])
      else if data == Word("leave") then Ok(Without(prev, did))
      else match data
        case Word(_) => Ok(prev)
        case Payload(list) => Ok(if list.Some? then list.value else prev)
        case NoData => Err("TypeError: cannot read property 'list' of undefined")
  }

  /** The join announcement. */
  datatype LegacyOutbound = LegacyOutbound(did: string, timestamp: int, data: string)

  /** Sent only while the socket is open, the user has opted into the public room and there is an
      account; `now` stands for `Date.now()`. */
  function JoinAnnouncement(readyState: ReadyState, joinPublicRoom: bool, account: string, now: int): (r: Option<LegacyOutbound>)
    ensures r.Some? <==> readyState == SocketOpen && joinPublicRoom && account != ""
    ensures r.Some? ==> r.value == LegacyOutbound(account, now, "join")
  {
    if readyState == SocketOpen && joinPublicRoom && account != "" then Some(LegacyOutbound(account, now, "join"))
    else None
  }
}
