/**
 * The tables of ParticipantInterface as values: the channel registry
 * (m_channels_map), the post-remove store (m_post_removes_map) and the
 * router (route_datagram). Participants and post-remove handles are ids,
 * and what the router hands to a participant's connection is appended to
 * an outbox.
 */
module Registry {
  import opened Wire

  type Channel = Uint64
  type HandlerId = nat

  /** A PostRemoveHandle: its identity, the channel it was added for and its datagram. */
  datatype PostRemove = PostRemove(handle: nat, sender: Channel, payload: Bytes)

  datatype Option<T> = None | Some(value: T)

  /** A datagram handed to the connection of participant `to`. */
  datatype Send = Send(to: HandlerId, frame: Bytes)

  /**
   * std::unordered_map leaves its iteration order to the library, and
   * erase(it, end()) removes the entry at `it` together with every entry
   * that follows it in that order. channelsAfter(keys, c) and
   * postRemovesAfter(keys, c) are the keys that follow c in the two maps;
   * any functions are allowed, so every property below holds whatever
   * order the library picks.
   */
  datatype IterationOrder = IterationOrder(
    channelsAfter: (set<Channel>, Channel) -> set<Channel>,
    postRemovesAfter: (set<Channel>, Channel) -> set<Channel>)

  datatype Tables = Tables(
    channels: map<Channel, HandlerId>,
    postRemoves: map<Channel, seq<PostRemove>>,
    nextHandle: nat,
    outbox: seq<Send>)

  /**
   * What the operations keep true: channel 0 is never registered, every
   * post-remove list holds exactly one handle (an append to an existing
   * list never reaches the stored list), and every stored handle was
   * numbered before `nextHandle`, so a new handle is never equal to a
   * stored one (the number stands for the handle's address).
   */
  ghost predicate Wellformed(t: Tables) {
    && 0 !in t.channels
    && (forall c :: c in t.postRemoves ==> |t.postRemoves[c]| == 1)
    && (forall c, i :: c in t.postRemoves && 0 <= i < |t.postRemoves[c]| ==> t.postRemoves[c][i].handle < t.nextHandle)
  }

  /** has_participant(uint64_t): some entry has key `channel`. */
  function HasParticipant(m: map<Channel, HandlerId>, channel: Channel): (r: bool)
    ensures r <==> GetParticipant(m, channel).Some?
  {
    channel in m
  }

  /** has_participant(Participant*): some entry has `p` as its value. */
  function HasParticipantOwner(m: map<Channel, HandlerId>, p: HandlerId): (r: bool)
    ensures r <==> exists c :: c in m && m[c] == p
  {
    p in m.Values
  }

  /** get_participant: the owner of `channel`, or None for the source's nullptr. */
  function GetParticipant(m: map<Channel, HandlerId>, channel: Channel): (r: Option<HandlerId>)
    ensures r.Some? <==> channel in m
    ensures r.Some? ==> r.value == m[channel]
  {
    if channel in m then Some(m[channel]) else None
  }

  /** add_participant: channel 0 is ignored and the first claim wins. */
  function AddParticipant(m: map<Channel, HandlerId>, channel: Channel, p: HandlerId): (r: map<Channel, HandlerId>)
    ensures channel == 0 || channel in m ==> r == m
    ensures r.Keys == if channel == 0 then m.Keys else m.Keys + {channel}
    ensures forall c :: c in m ==> r[c] == m[c]
    ensures channel != 0 ==> HasParticipant(r, channel)
    ensures channel != 0 && channel !in m ==> GetParticipant(r, channel) == Some(p)
  {
    if channel == 0 || HasParticipant(m, channel) then m else m[channel := p]
  }

  /** erase(find(target), end()): the target and the keys following it go. */
  function EraseFrom<V>(m: map<Channel, V>, target: Channel, after: set<Channel>): (r: map<Channel, V>)
    ensures target !in r
    ensures r.Keys <= m.Keys
    ensures forall c :: c in r ==> r[c] == m[c]
    ensures forall c :: c in m && c != target && c !in after ==> c in r
  {
    m - ({target} + after)
  }

  /**
   * remove_participant(uint64_t): nothing happens for channel 0 or an
   * unregistered channel; otherwise the channel is unregistered, no key
   * appears and every surviving channel keeps its owner. The range erase
   * may also drop other channels.
   */
  function RemoveParticipant(o: IterationOrder, m: map<Channel, HandlerId>, channel: Channel)
    : (r: map<Channel, HandlerId>)
    ensures channel == 0 || channel !in m ==> r == m
    ensures channel != 0 ==> channel !in r
    ensures r.Keys <= m.Keys
    ensures forall c :: c in r ==> r[c] == m[c]
  {
    if channel == 0 || !HasParticipant(m, channel) then m
    else EraseFrom(m, channel, o.channelsAfter(m.Keys, channel))
  }

  /**
   * remove_participant(Participant*): when `p` owns some channel, remove
   * the participant's primary channel (only that one).
   */
  function RemoveParticipantOf(o: IterationOrder, m: map<Channel, HandlerId>, p: HandlerId, primary: Channel)
    : (r: map<Channel, HandlerId>)
    ensures !HasParticipantOwner(m, p) ==> r == m
    ensures HasParticipantOwner(m, p) && primary != 0 ==> primary !in r
    ensures r.Keys <= m.Keys
    ensures forall c :: c in r ==> r[c] == m[c]
  {
    if !HasParticipantOwner(m, p) then m else RemoveParticipant(o, m, primary)
  }

  /** has_post_remove: the handle is in the list stored for `channel`. */
  function HasPostRemove(pm: map<Channel, seq<PostRemove>>, channel: Channel, h: PostRemove): (r: bool)
    ensures r ==> channel in pm
    ensures r <==> channel in pm && exists i :: 0 <= i < |pm[channel]| && pm[channel][i] == h
  {
    channel in pm && h in pm[channel]
  }

  /**
   * add_post_remove: a handle for a channel without an entry is stored as
   * a one-element list. For a channel that has an entry, the handle is
   * pushed onto a copy of the list, so the store does not change.
   */
  function AddPostRemove(pm: map<Channel, seq<PostRemove>>, channel: Channel, h: PostRemove)
    : (r: map<Channel, seq<PostRemove>>)
    ensures channel !in pm ==> r == pm[channel := [h]]
    ensures channel in pm ==> r == pm
  {
    if HasPostRemove(pm, channel, h) then pm
    else if channel in pm then pm  // the push lands on a copy of the list
    else pm[channel := [h]]
  }

  /** std::remove followed by erase: every occurrence of `h` is dropped, order kept. */
  function Without(list: seq<PostRemove>, h: PostRemove): (r: seq<PostRemove>)
    ensures forall x :: x in r <==> x in list && x != h
    ensures |r| <= |list|
  {
    if list == [] then []
    else if list[0] == h then Without(list[1..], h)
    else [list[0]] + Without(list[1..], h)
  }

  /**
   * remove_post_remove: the handle is removed from a copy of the list, so
   * a stored list never changes; when the copy is empty, the channel's
   * entry is erased together with the entries that follow it.
   */
  function RemovePostRemove(o: IterationOrder, pm: map<Channel, seq<PostRemove>>, channel: Channel, h: PostRemove)
    : (r: map<Channel, seq<PostRemove>>)
    ensures !HasPostRemove(pm, channel, h) ==> r == pm
    ensures HasPostRemove(pm, channel, h) && (forall x :: x in pm[channel] ==> x == h) ==> channel !in r
    ensures HasPostRemove(pm, channel, h) && (exists x :: x in pm[channel] && x != h) ==> r == pm
    ensures r.Keys <= pm.Keys
    ensures forall c :: c in r ==> r[c] == pm[c]
  {
    if !HasPostRemove(pm, channel, h) then pm
    else
      var rest := Without(pm[channel], h);
      if |rest| == 0 then EraseFrom(pm, channel, o.postRemovesAfter(pm.Keys, channel))
      else assert rest[0] in rest; pm
  }

  /**
   * route_datagram: a message for channel 0 or for a channel without an
   * owner is dropped. Otherwise the routed frame is appended for the
   * owner, and nothing but the outbox changes.
   */
  function Route(t: Tables, channel: Channel, sender: Channel, msgType: Uint16, payload: Bytes): (r: Tables)
    ensures r.channels == t.channels && r.postRemoves == t.postRemoves && r.nextHandle == t.nextHandle
    ensures channel == 0 || channel !in t.channels ==> r == t
    ensures channel != 0 && channel in t.channels ==>
              r.outbox == t.outbox + [Send(t.channels[channel], RoutedFrame(channel, sender, msgType, payload))]
  {
    if channel == 0 then t
    else match GetParticipant(t.channels, channel)
      case None => t
      case Some(p) => t.(outbox := t.outbox + [Send(p, RoutedFrame(channel, sender, msgType, payload))])
  }

  /**
   * What a delivered route puts on the wire: exactly one new frame, for
   * the owner of the channel, whose application-branch decoding gives back
   * channel, sender, type and payload.
   */
  lemma RouteDelivers(t: Tables, channel: Channel, sender: Channel, msgType: Uint16, payload: Bytes)
    requires channel != 0 && channel in t.channels
    ensures var r := Route(t, channel, sender, msgType, payload);
            && |r.outbox| == |t.outbox| + 1
            && r.outbox[..|t.outbox|] == t.outbox
            && r.outbox[|t.outbox|].to == t.channels[channel]
            && |r.outbox[|t.outbox|].frame| >= HEADER_LENGTH
            && r.outbox[|t.outbox|].frame[0] == 1
            && DecodeApplication(r.outbox[|t.outbox|].frame) == Application(channel, sender, msgType, payload)
  {
    var r := Route(t, channel, sender, msgType, payload);
    assert r.outbox[|t.outbox|].frame == RoutedFrame(channel, sender, msgType, payload);
    RoutedFrameRoundTrip(channel, sender, msgType, payload);
  }
}
