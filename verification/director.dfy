/**
 * The message director's objects as they change in place.
 *
 * ParticipantInterface owns the channel registry, the post-remove store
 * and the outbox of sent frames; Handler is a connection's handler: a
 * plain NetworkHandler when it has no interface, a Participant of the
 * message director when it has one. Every method is proved to leave the
 * state that the value-level definitions of Registry and Dispatch
 * describe, so the properties proved there carry over.
 */
module Director {
  import opened Wire
  import opened Registry
  import Dispatch

  /** The identity of a connection (PT(Connection) in the source). */
  type ConnectionId = nat

  class ParticipantInterface {
    const order: IterationOrder
    var channels: map<Channel, HandlerId>
    var postRemoves: map<Channel, seq<PostRemove>>
    var nextHandle: nat
    var outbox: seq<Send>

    /** The whole state of the interface as a value. */
    function Tables(): Tables
      reads this
    {
      Registry.Tables(channels, postRemoves, nextHandle, outbox)
    }

    ghost predicate Valid()
      reads this
    {
      Wellformed(Tables())
    }

    constructor (order: IterationOrder)
      ensures this.order == order
      ensures channels == map[] && postRemoves == map[] && nextHandle == 0 && outbox == []
      ensures Valid()
    {
      this.order := order;
      channels := map[];
      postRemoves := map[];
      nextHandle := 0;
      outbox := [];
    }

    /** add_participant: channel 0 and an already claimed channel are ignored. */
    method AddParticipant(channel: Channel, p: HandlerId)
      requires Valid()
      modifies this`channels
      ensures channels == Registry.AddParticipant(old(channels), channel, p)
      ensures Valid()
    {
      if channel == 0 {
        return;
      }
      if HasParticipant(channels, channel) {
        return;
      }
      channels := channels[channel := p];
    }

    /** remove_participant(uint64_t): erase from the channel's entry to the end of the map. */
    method RemoveParticipant(channel: Channel)
      requires Valid()
      modifies this`channels
      ensures channels == Registry.RemoveParticipant(order, old(channels), channel)
      ensures Valid()
    {
      if channel == 0 {
        return;
      }
      if !HasParticipant(channels, channel) {
        return;
      }
      channels := EraseFrom(channels, channel, order.channelsAfter(channels.Keys, channel));
    }

    /** remove_participant(Participant*): remove the participant's primary channel if it owns any. */
    method RemoveParticipantOf(p: Handler)
      requires Valid()
      modifies this`channels
      ensures channels == Registry.RemoveParticipantOf(order, old(channels), p.id, p.channel)
      ensures Valid()
    {
      if !HasParticipantOwner(channels, p.id) {
        return;
      }
      RemoveParticipant(p.channel);
    }

    /** `new PostRemoveHandle(sender, datagram)`: a handle no earlier handle shares. */
    method NewPostRemoveHandle(sender: Channel, payload: Bytes) returns (h: PostRemove)
      requires Valid()
      modifies this`nextHandle
      ensures h == PostRemove(old(nextHandle), sender, payload)
      ensures nextHandle == old(nextHandle) + 1
      ensures Valid()
    {
      h := PostRemove(nextHandle, sender, payload);
      nextHandle := nextHandle + 1;
    }

    /** add_post_remove of a handle this interface numbered: the push onto an existing list lands on a copy. */
    method AddPostRemove(channel: Channel, h: PostRemove)
      requires Valid() && h.handle < nextHandle
      modifies this`postRemoves
      ensures postRemoves == Registry.AddPostRemove(old(postRemoves), channel, h)
      ensures Valid()
    {
      if HasPostRemove(postRemoves, channel, h) {
        return;
      }
      if channel in postRemoves {
        var copy := postRemoves[channel];
        copy := copy + [h];
      } else {
        postRemoves := postRemoves[channel := [h]];
      }
    }

    /** remove_post_remove: the handle leaves a copy; an empty copy erases the entry onwards. */
    method RemovePostRemove(channel: Channel, h: PostRemove)
      requires Valid()
      modifies this`postRemoves
      ensures postRemoves == Registry.RemovePostRemove(order, old(postRemoves), channel, h)
      ensures Valid()
    {
      if !HasPostRemove(postRemoves, channel, h) {
        return;
      }
      var copy := postRemoves[channel];
      copy := Without(copy, h);
      if |copy| == 0 {
        postRemoves := EraseFrom(postRemoves, channel, order.postRemovesAfter(postRemoves.Keys, channel));
      }
    }

    /** route_datagram: build the frame field by field and send it to the owner. */
    method RouteDatagram(channel: Channel, sender: Channel, msgType: Uint16, payload: Bytes)
      requires Valid()
      modifies this`outbox
      ensures Tables() == Route(old(Tables()), channel, sender, msgType, payload)
      ensures Valid()
    {
      if channel == 0 {
        return;
      }
      var participant := GetParticipant(channels, channel);
      if participant.None? {
        return;
      }
      var frame: Bytes := [];
      frame := frame + [1];
      assert frame == [1];
      frame := frame + EncodeUint64(channel);
      frame := frame + EncodeUint64(sender);
      frame := frame + EncodeUint16(msgType);
      frame := frame + payload;
      assert frame == RoutedFrame(channel, sender, msgType, payload);
      outbox := outbox + [Send(participant.value, frame)];
    }

    /**
     * clear_post_removes: deliver each handle of a copy of the channel's
     * list to `p` and then remove it. The delivery may come back here, so
     * `fuel` bounds the depth.
     */
    method ClearPostRemoves(p: Handler, channel: Channel, fuel: nat)
      requires p.iface == this && Valid()
      modifies this, p
      ensures Dispatch.Step(Tables(), p.channel)
           == Dispatch.ClearPostRemoves(order, old(Tables()), p.id, old(p.channel), channel, fuel)
      ensures Valid()
      decreases fuel, 1
    {
      if channel !in postRemoves || fuel == 0 {
        return;
      }
      var pending := postRemoves[channel];
      ghost var start := Tables();
      ghost var primary := p.channel;
      var i := 0;
      while i < |pending|
        invariant 0 <= i <= |pending|
        invariant Valid()
        invariant Dispatch.Step(Tables(), p.channel)
               == Dispatch.FlushPrefix(order, start, p.id, primary, channel, pending, i, fuel)
      {
        FlushOne(p, channel, pending[i], fuel);
        i := i + 1;
      }
    }

    /** One turn of the clear_post_removes loop: deliver the handle's datagram to `p`, then remove the handle. */
    method FlushOne(p: Handler, channel: Channel, h: PostRemove, fuel: nat)
      requires p.iface == this && Valid() && fuel > 0
      modifies this, p
      ensures Dispatch.Step(Tables(), p.channel)
           == Dispatch.FlushOne(order, old(Tables()), p.id, old(p.channel), channel, h, fuel)
      ensures Valid()
      decreases fuel, 0
    {
      p.ReceiveDatagram(h.payload, fuel - 1);
      ghost var received := Tables();
      assert Dispatch.Step(received, p.channel)
          == Dispatch.Receive(order, old(Tables()), p.id, old(p.channel), h.payload, fuel - 1);
      RemovePostRemove(channel, h);
      assert Tables() == received.(postRemoves := Registry.RemovePostRemove(order, received.postRemoves, channel, h));
    }
  }

  /**
   * A connection's handler. With no interface it is the base
   * NetworkHandler, whose hooks do nothing; with one it is a Participant
   * whose primary channel (m_channel) is `channel`.
   */
  class Handler {
    const id: HandlerId
    const connection: ConnectionId
    const iface: ParticipantInterface?
    var channel: Channel

    constructor (id: HandlerId, connection: ConnectionId, iface: ParticipantInterface?)
      ensures this.id == id && this.connection == connection && this.iface == iface
      ensures channel == 0
    {
      this.id := id;
      this.connection := connection;
      this.iface := iface;
      channel := 0;
    }

    /**
     * receive_datagram: read the header like a DatagramIterator, then act
     * on a control frame or re-route an application frame.
     */
    method ReceiveDatagram(frame: Bytes, fuel: nat)
      requires iface != null ==> iface.Valid()
      modifies this, iface
      ensures iface == null ==> channel == old(channel)
      ensures iface != null ==>
                && Dispatch.Step(iface.Tables(), channel)
                   == Dispatch.Receive(iface.order, old(iface.Tables()), id, old(channel), frame, fuel)
                && iface.Valid()
      decreases fuel, 3
    {
      if iface == null {
        return;
      }
      if |frame| < HEADER_LENGTH {
        return;
      }
      var recipients := frame[0];
      var destination := DecodeUint64(frame[1..9]);
      if recipients == 1 && destination == CONTROL_MESSAGE {
        var opcode := DecodeUint16(frame[9..11]);
        var sender := DecodeUint64(frame[11..19]);
        assert ParseFrame(frame) == Wire.Control(opcode, sender, frame[19..]);
        Control(opcode, sender, frame[19..], fuel);
      } else {
        var sender := DecodeUint64(frame[9..17]);
        var msgType := DecodeUint16(frame[17..19]);
        assert ParseFrame(frame) == Application(destination, sender, msgType, frame[19..]);
        iface.RouteDatagram(destination, sender, msgType, frame[19..]);
      }
    }

    /** The switch of receive_datagram on the opcode of a control frame. */
    method Control(opcode: Uint16, sender: Channel, body: Bytes, fuel: nat)
      requires iface != null && iface.Valid()
      modifies this, iface
      ensures Dispatch.Step(iface.Tables(), channel)
           == Dispatch.Dispatch(iface.order, old(iface.Tables()), id, old(channel), opcode, sender, body, fuel)
      ensures iface.Valid()
      decreases fuel, 2
    {
      if opcode == Dispatch.SET_CHANNEL {
        if channel == 0 {
          channel := sender;
        }
        iface.AddParticipant(sender, id);
      } else if opcode == Dispatch.REMOVE_CHANNEL {
        iface.ClearPostRemoves(this, sender, fuel);
        iface.RemoveParticipant(sender);
      } else if opcode == Dispatch.ADD_POST_REMOVE {
        var h := iface.NewPostRemoveHandle(sender, body);
        iface.AddPostRemove(sender, h);
      } else if opcode == Dispatch.CLEAR_POST_REMOVE {
        iface.ClearPostRemoves(this, sender, fuel);
      }
    }

    /** disconnected: flush the primary channel's post-removes, then unregister it. */
    method Disconnected(fuel: nat)
      requires iface != null ==> iface.Valid()
      modifies this, iface
      ensures iface == null ==> channel == old(channel)
      ensures iface != null ==>
                && Dispatch.Step(iface.Tables(), channel)
                   == Dispatch.Disconnected(iface.order, old(iface.Tables()), id, old(channel), fuel)
                && iface.Valid()
    {
      if iface == null {
        return;
      }
      iface.ClearPostRemoves(this, channel, fuel);
      iface.RemoveParticipant(channel);
    }
  }
}
