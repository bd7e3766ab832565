/**
 * Participant::receive_datagram, ParticipantInterface::clear_post_removes
 * and Participant::disconnected as functions of the tables and of the
 * participant's primary channel (m_channel).
 *
 * clear_post_removes feeds every stored datagram back through the
 * participant's receive path before it removes the handle, so a stored
 * REMOVE_CHANNEL for the same channel recurses without end in the source.
 * `fuel` bounds the depth of that recursion: a flush with no fuel left
 * delivers nothing.
 */
module Dispatch {
  import opened Wire
  import opened Registry

  const SET_CHANNEL: Uint16 := 2002
  const REMOVE_CHANNEL: Uint16 := 2003
  const SET_CON_NAME: Uint16 := 2004
  const SET_CON_URL: Uint16 := 2005
  const ADD_RANGE: Uint16 := 2006
  const REMOVE_RANGE: Uint16 := 2007
  const ADD_POST_REMOVE: Uint16 := 2008
  const CLEAR_POST_REMOVE: Uint16 := 2009

  /** The participant's side of a step: the tables and its primary channel. */
  datatype Step = Step(tables: Tables, channel: Channel)

  /**
   * receive_datagram of participant `self`. A frame shorter than the
   * header is left unmodelled and changes nothing.
   */
  function Receive(o: IterationOrder, t: Tables, self: HandlerId, primary: Channel, frame: Bytes, fuel: nat): (r: Step)
    ensures Wellformed(t) ==> Wellformed(r.tables)
    ensures primary != 0 ==> r.channel == primary
    decreases fuel, 3, 0
  {
    if |frame| < HEADER_LENGTH then Step(t, primary)
    else match ParseFrame(frame)
      case Control(opcode, sender, body) => Dispatch(o, t, self, primary, opcode, sender, body, fuel)
      case Application(channel, sender, msgType, payload) =>
        Step(Route(t, channel, sender, msgType, payload), primary)
  }

  /** The switch on the opcode of a control frame. */
  function Dispatch(o: IterationOrder, t: Tables, self: HandlerId, primary: Channel,
                    opcode: Uint16, sender: Channel, body: Bytes, fuel: nat): (r: Step)
    ensures Wellformed(t) ==> Wellformed(r.tables)
    ensures primary != 0 ==> r.channel == primary
    decreases fuel, 2, 0
  {
    if opcode == SET_CHANNEL then
      Step(t.(channels := AddParticipant(t.channels, sender, self)),
           if primary == 0 then sender else primary)
    else if opcode == REMOVE_CHANNEL then
      var s := ClearPostRemoves(o, t, self, primary, sender, fuel);
      Step(s.tables.(channels := RemoveParticipant(o, s.tables.channels, sender)), s.channel)
    else if opcode == ADD_POST_REMOVE then
      var h := PostRemove(t.nextHandle, sender, body);
      Step(t.(postRemoves := AddPostRemove(t.postRemoves, sender, h), nextHandle := t.nextHandle + 1),
           primary)
    else if opcode == CLEAR_POST_REMOVE then
      ClearPostRemoves(o, t, self, primary, sender, fuel)
    else
      // SET_CON_NAME, SET_CON_URL, ADD_RANGE, REMOVE_RANGE and unknown opcodes
      Step(t, primary)
  }

  /**
   * clear_post_removes: flush the list stored for `channel`, if any, in
   * list order. With no fuel left nothing is delivered.
   */
  function ClearPostRemoves(o: IterationOrder, t: Tables, self: HandlerId, primary: Channel, channel: Channel, fuel: nat)
    : (r: Step)
    ensures Wellformed(t) ==> Wellformed(r.tables)
    ensures primary != 0 ==> r.channel == primary
    decreases fuel, 1, 0
  {
    if channel !in t.postRemoves || fuel == 0 then Step(t, primary)
    else FlushPrefix(o, t, self, primary, channel, t.postRemoves[channel], |t.postRemoves[channel]|, fuel)
  }

  /**
   * The loop of clear_post_removes over its copy of the list: the step
   * after the first n turns.
   */
  function FlushPrefix(o: IterationOrder, t: Tables, self: HandlerId, primary: Channel, channel: Channel,
                       pending: seq<PostRemove>, n: nat, fuel: nat): (r: Step)
    requires n <= |pending| && fuel > 0
    ensures Wellformed(t) ==> Wellformed(r.tables)
    ensures primary != 0 ==> r.channel == primary
    decreases fuel, 0, n
  {
    if n == 0 then Step(t, primary)
    else
      var s := FlushPrefix(o, t, self, primary, channel, pending, n - 1, fuel);
      FlushOne(o, s.tables, self, s.channel, channel, pending[n - 1], fuel)
  }

  /** One turn of that loop: receive the handle's datagram, then remove_post_remove the handle. */
  function FlushOne(o: IterationOrder, t: Tables, self: HandlerId, primary: Channel, channel: Channel,
                    h: PostRemove, fuel: nat): (r: Step)
    requires fuel > 0
    ensures Wellformed(t) ==> Wellformed(r.tables)
    ensures primary != 0 ==> r.channel == primary
    decreases fuel, 0, 0
  {
    var s := Receive(o, t, self, primary, h.payload, fuel - 1);
    Step(s.tables.(postRemoves := RemovePostRemove(o, s.tables.postRemoves, channel, h)), s.channel)
  }

  /**
   * Participant::disconnected: flush the primary channel's post-removes,
   * then unregister the primary channel as it stands after the flush.
   */
  function Disconnected(o: IterationOrder, t: Tables, self: HandlerId, primary: Channel, fuel: nat): (r: Step)
    ensures Wellformed(t) ==> Wellformed(r.tables)
    ensures primary != 0 ==> r.channel == primary
    ensures r.channel != 0 ==> r.channel !in r.tables.channels
  {
    var s := ClearPostRemoves(o, t, self, primary, primary, fuel);
    Step(s.tables.(channels := RemoveParticipant(o, s.tables.channels, s.channel)), s.channel)
  }

  /** A participant that disconnect_poll disconnects, with its primary channel at that moment. */
  datatype Departure = Departure(id: HandlerId, channel: Channel)

  /**
   * The tables after disconnect_poll has run Participant::disconnected for
   * each departure in turn, each one seeing the tables the previous left.
   */
  function DisconnectEach(o: IterationOrder, t: Tables, departures: seq<Departure>, fuel: nat): (r: Tables)
    ensures Wellformed(t) ==> Wellformed(r)
    ensures |departures| > 0 && departures[|departures| - 1].channel != 0 ==>
              departures[|departures| - 1].channel !in r.channels
    decreases |departures|
  {
    if departures == [] then t
    else
      var last := departures[|departures| - 1];
      Disconnected(o, DisconnectEach(o, t, departures[..|departures| - 1], fuel), last.id, last.channel, fuel).tables
  }

  /** One more departure runs one more disconnected hook on the tables the earlier ones left. */
  lemma DisconnectEachStep(o: IterationOrder, t: Tables, departures: seq<Departure>, d: Departure, fuel: nat)
    ensures DisconnectEach(o, t, departures + [d], fuel)
         == Disconnected(o, DisconnectEach(o, t, departures, fuel), d.id, d.channel, fuel).tables
  {
    assert (departures + [d])[..|departures|] == departures;
  }

  // ---------------------------------------------------------------------
  // The control opcodes, as frames on the wire

  /**
   * SET_CHANNEL sets the primary channel only while it is unset, and
   * always tries to register the operand for this participant (first
   * claim wins). Nothing else changes.
   */
  lemma ReceiveSetChannel(o: IterationOrder, t: Tables, self: HandlerId, primary: Channel,
                          channel: Channel, body: Bytes, fuel: nat)
    ensures var r := Receive(o, t, self, primary, ControlFrame(SET_CHANNEL, channel, body), fuel);
            && r.channel == (if primary == 0 then channel else primary)
            && r.tables.channels == AddParticipant(t.channels, channel, self)
            && r.tables.postRemoves == t.postRemoves
            && r.tables.outbox == t.outbox
  {
    ControlFrameRoundTrip(SET_CHANNEL, channel, body);
  }

  /**
   * REMOVE_CHANNEL first flushes the post-removes of the operand through
   * this participant and then unregisters the operand, so that a later
   * route to it is dropped.
   */
  lemma ReceiveRemoveChannel(o: IterationOrder, t: Tables, self: HandlerId, primary: Channel,
                             channel: Channel, body: Bytes, fuel: nat)
    ensures var r := Receive(o, t, self, primary, ControlFrame(REMOVE_CHANNEL, channel, body), fuel);
            var s := ClearPostRemoves(o, t, self, primary, channel, fuel);
            && r == Step(s.tables.(channels := RemoveParticipant(o, s.tables.channels, channel)), s.channel)
            && (channel != 0 ==> channel !in r.tables.channels)
            && forall sender: Channel, msgType: Uint16, payload: Bytes ::
                 Route(r.tables, channel, sender, msgType, payload) == r.tables
  {
    ControlFrameRoundTrip(REMOVE_CHANNEL, channel, body);
  }

  /**
   * ADD_POST_REMOVE stores the rest of the frame under the operand as a
   * fresh handle when the operand has no entry; when it has one, the
   * store is unchanged (the append is lost). Registry and primary channel
   * are untouched.
   */
  lemma ReceiveAddPostRemove(o: IterationOrder, t: Tables, self: HandlerId, primary: Channel,
                             channel: Channel, body: Bytes, fuel: nat)
    ensures var r := Receive(o, t, self, primary, ControlFrame(ADD_POST_REMOVE, channel, body), fuel);
            && r.channel == primary
            && r.tables.channels == t.channels
            && r.tables.outbox == t.outbox
            && r.tables.postRemoves == (if channel in t.postRemoves then t.postRemoves
                                        else t.postRemoves[channel := [PostRemove(t.nextHandle, channel, body)]])
  {
    ControlFrameRoundTrip(ADD_POST_REMOVE, channel, body);
  }

  /** CLEAR_POST_REMOVE delivers the operand's post-removes rather than discarding them. */
  lemma ReceiveClearPostRemove(o: IterationOrder, t: Tables, self: HandlerId, primary: Channel,
                               channel: Channel, body: Bytes, fuel: nat)
    ensures Receive(o, t, self, primary, ControlFrame(CLEAR_POST_REMOVE, channel, body), fuel)
         == ClearPostRemoves(o, t, self, primary, channel, fuel)
    ensures channel !in t.postRemoves ==>
              Receive(o, t, self, primary, ControlFrame(CLEAR_POST_REMOVE, channel, body), fuel) == Step(t, primary)
  {
    ControlFrameRoundTrip(CLEAR_POST_REMOVE, channel, body);
  }

  /**
   * SET_CON_NAME, SET_CON_URL, ADD_RANGE, REMOVE_RANGE and every opcode
   * the switch does not know leave registry, store and primary channel
   * as they were.
   */
  lemma ReceiveInertOpcode(o: IterationOrder, t: Tables, self: HandlerId, primary: Channel,
                           opcode: Uint16, channel: Channel, body: Bytes, fuel: nat)
    requires opcode !in {SET_CHANNEL, REMOVE_CHANNEL, ADD_POST_REMOVE, CLEAR_POST_REMOVE}
    ensures Receive(o, t, self, primary, ControlFrame(opcode, channel, body), fuel) == Step(t, primary)
  {
    ControlFrameRoundTrip(opcode, channel, body);
  }

  /**
   * An application frame is re-routed: a routed frame received by any
   * participant goes on to the owner of its channel, unless the channel
   * is the control channel.
   */
  lemma ReceiveRoutedFrame(o: IterationOrder, t: Tables, self: HandlerId, primary: Channel,
                           channel: Channel, sender: Channel, msgType: Uint16, payload: Bytes, fuel: nat)
    requires channel != CONTROL_MESSAGE
    ensures Receive(o, t, self, primary, RoutedFrame(channel, sender, msgType, payload), fuel)
         == Step(Route(t, channel, sender, msgType, payload), primary)
  {
    RoutedFrameRoundTrip(channel, sender, msgType, payload);
  }

  // ---------------------------------------------------------------------
  // Flushing and disconnecting

  /**
   * clear_post_removes does nothing for a channel without an entry. For
   * a one-element entry it receives the stored datagram and then removes
   * the handle; when the nested receive left the entry in place, the
   * channel's entry is gone afterwards.
   */
  lemma ClearSingleEntry(o: IterationOrder, t: Tables, self: HandlerId, primary: Channel, channel: Channel, fuel: nat)
    ensures channel !in t.postRemoves ==> ClearPostRemoves(o, t, self, primary, channel, fuel) == Step(t, primary)
    ensures channel in t.postRemoves && |t.postRemoves[channel]| == 1 && fuel > 0 ==>
              var h := t.postRemoves[channel][0];
              var s := Receive(o, t, self, primary, h.payload, fuel - 1);
              var r := ClearPostRemoves(o, t, self, primary, channel, fuel);
              && r == Step(s.tables.(postRemoves := RemovePostRemove(o, s.tables.postRemoves, channel, h)), s.channel)
              && (channel in s.tables.postRemoves && s.tables.postRemoves[channel] == [h] ==>
                    channel !in r.tables.postRemoves)
  {
    if channel in t.postRemoves && |t.postRemoves[channel]| == 1 && fuel > 0 {
      var h := t.postRemoves[channel][0];
      var s := Receive(o, t, self, primary, h.payload, fuel - 1);
      assert FlushPrefix(o, t, self, primary, channel, t.postRemoves[channel], 0, fuel) == Step(t, primary);
      assert FlushPrefix(o, t, self, primary, channel, t.postRemoves[channel], 1, fuel)
          == FlushOne(o, t, self, primary, channel, h, fuel);
      if channel in s.tables.postRemoves && s.tables.postRemoves[channel] == [h] {
        assert HasPostRemove(s.tables.postRemoves, channel, h);
      }
    }
  }

  /**
   * For a participant with a primary channel, disconnecting is the same
   * as receiving REMOVE_CHANNEL for that channel: flush, then unregister.
   */
  lemma DisconnectedIsRemoveChannel(o: IterationOrder, t: Tables, self: HandlerId, primary: Channel, fuel: nat)
    requires primary != 0
    ensures Disconnected(o, t, self, primary, fuel)
         == Receive(o, t, self, primary, ControlFrame(REMOVE_CHANNEL, primary, []), fuel)
    ensures primary !in Disconnected(o, t, self, primary, fuel).tables.channels
  {
    ReceiveRemoveChannel(o, t, self, primary, primary, [], fuel);
  }

  /**
   * A participant claims channel 100; another participant then publishes
   * type 7 with payload "hi" to it; the first participant is sent exactly
   * the routed frame, addressed to channel 100 from the publisher.
   */
  lemma PublishAfterClaim(o: IterationOrder, t: Tables, a: HandlerId, b: HandlerId, bChannel: Channel, fuel: nat)
    requires 100 !in t.channels
    ensures var hi: Bytes := [0x68, 0x69];
            var claimed := Receive(o, t, a, 0, ControlFrame(SET_CHANNEL, 100, []), fuel);
            var published := Receive(o, claimed.tables, b, bChannel, RoutedFrame(100, bChannel, 7, hi), fuel);
            && claimed.channel == 100
            && published.tables.outbox == t.outbox + [Send(a, RoutedFrame(100, bChannel, 7, hi))]
  {
    var hi: Bytes := [0x68, 0x69];
    ReceiveSetChannel(o, t, a, 0, 100, [], fuel);
    var claimed := Receive(o, t, a, 0, ControlFrame(SET_CHANNEL, 100, []), fuel);
    ReceiveRoutedFrame(o, claimed.tables, b, bChannel, 100, bChannel, 7, hi, fuel);
  }

  /**
   * Flushing a channel whose single stored datagram is a REMOVE_CHANNEL
   * frame for another channel without post-removes unregisters that
   * other channel and leaves no entry for the flushed one.
   */
  lemma WillDelivered(o: IterationOrder, t: Tables, a: HandlerId, primary: Channel, target: Channel,
                      h: PostRemove, fuel: nat)
    requires |h.payload| >= HEADER_LENGTH && ParseFrame(h.payload) == Control(REMOVE_CHANNEL, target, [])
    requires primary != 0 && target != 0 && primary != target
    requires primary in t.postRemoves && t.postRemoves[primary] == [h] && target !in t.postRemoves && fuel > 0
    ensures var r := ClearPostRemoves(o, t, a, primary, primary, fuel);
            target !in r.tables.channels && primary !in r.tables.postRemoves && r.channel == primary
  {
    ClearSingleEntry(o, t, a, primary, target, fuel - 1);
    var s := Receive(o, t, a, primary, h.payload, fuel - 1);
    assert s == Dispatch(o, t, a, primary, REMOVE_CHANNEL, target, [], fuel - 1);
    assert s == Step(t.(channels := RemoveParticipant(o, t.channels, target)), primary);
    ClearSingleEntry(o, t, a, primary, primary, fuel);
    assert HasPostRemove(s.tables.postRemoves, primary, h);
  }

  /**
   * A participant whose primary channel is 100 leaves a last will under
   * channel 100: a REMOVE_CHANNEL frame for channel 200. When it then
   * disconnects, the will is delivered through its own receive path, so
   * channel 200 is unregistered; the will is removed, and channel 100 is
   * unregistered too.
   */
  lemma LastWillOnDisconnect(o: IterationOrder, t: Tables, a: HandlerId, fuel: nat)
    requires 100 !in t.postRemoves && 200 !in t.postRemoves && fuel > 0
    ensures var will := ControlFrame(REMOVE_CHANNEL, 200, []);
            var stored := Receive(o, t, a, 100, ControlFrame(ADD_POST_REMOVE, 100, will), fuel);
            var gone := Disconnected(o, stored.tables, a, stored.channel, fuel);
            && stored.tables.postRemoves == t.postRemoves[100 := [PostRemove(t.nextHandle, 100, will)]]
            && 200 !in gone.tables.channels
            && 100 !in gone.tables.channels
            && 100 !in gone.tables.postRemoves
  {
    var will := ControlFrame(REMOVE_CHANNEL, 200, []);
    ReceiveAddPostRemove(o, t, a, 100, 100, will, fuel);
    var stored := Receive(o, t, a, 100, ControlFrame(ADD_POST_REMOVE, 100, will), fuel);
    ControlFrameRoundTrip(REMOVE_CHANNEL, 200, []);
    WillDelivered(o, stored.tables, a, 100, 200, PostRemove(t.nextHandle, 100, will), fuel);
  }
}
