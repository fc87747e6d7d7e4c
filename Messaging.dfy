/**
 * The message log and frame handling of `useP2PMessaging`.
 *
 * The log is a sequence that every operation copies and extends by one
 * message, writes to durable storage, and only then installs as the new
 * `messages` state. The peer network is reduced to what the hook does with
 * it: `peer.connect` creates a connection whose `'open'` event writes one
 * frame, and inbound frames arrive as method calls. The clock, the storage
 * outcome and the encoded media are parameters.
 */
module Messaging {
  import opened Wrappers
  import opened Text

  const MessagesKey: string := "saxiib_messages"

  datatype Status = Sent | Received
  datatype Kind = Text | Image | Video | Voice

  /** A JavaScript `Date`, by its time value in milliseconds. */
  datatype Date = Date(time: int)

  datatype Message = Message(
    id: string,
    senderId: string,
    receiverId: string,
    content: string,
    timestamp: Date,
    status: Status,
    kind: Kind)

  /** A frame written on a connection: `{type: 'message', content}` or `{type: 'media', mediaType, content}`. */
  datatype Frame = TextFrame(content: string) | MediaFrame(mediaType: Kind, content: string)

  /** An inbound frame: its `type` field and its `content` field. */
  datatype Inbound = Inbound(frameType: string, content: string)

  /** A connection made by `peer.connect(remote)`; it writes `frame` once its `'open'` event fires. */
  datatype Connection = Connection(remote: string, frame: Frame, isOpen: bool)

  /**
   * A media file being read by a `FileReader`: the arguments of
   * `sendMediaMessage` and the `peerId` and `messages` its `onload` closes over.
   */
  datatype MediaRead = MediaRead(kind: Kind, recipientId: string, senderId: string, snapshot: seq<Message>)

  /** A call `notifyNewMessage(title, body)`. */
  datatype Notification = Notification(title: string, body: string)

  /** `msg_${Date.now()}`: two messages created in the same millisecond share it. */
  function MessageId(now: nat): string {
    "msg_" + Decimal(now)
  }

  /** Message ids are distinct exactly when the clock readings are. */
  lemma MessageIdDistinct(now1: nat, now2: nat)
    ensures MessageId(now1) == MessageId(now2) <==> now1 == now2
  {
    if MessageId(now1) == MessageId(now2) {
      assert Decimal(now1) == MessageId(now1)[4..];
      assert Decimal(now2) == MessageId(now2)[4..];
      DecimalInjective(now1, now2);
    }
  }

  /** The message `sendMessage` creates and logs. */
  function SentText(peerId: string, recipientId: string, content: string, now: nat): Message {
    Message(MessageId(now), peerId, recipientId, content, Date(now), Sent, Text)
  }

  /** The message created for an inbound `'message'` frame. */
  function ReceivedText(from: string, localId: string, content: string, now: nat): Message {
    Message(MessageId(now), from, localId, content, Date(now), Received, Text)
  }

  /** `new Date(d)`: a copy with the same time value. */
  function RewrapDate(d: Date): (r: Date)
    ensures r.time == d.time
  {
    Date(d.time)
  }

  /**
   * The log `loadMessages` installs: the stored list, or the empty list when
   * nothing is stored, with each timestamp re-wrapped in a `Date`. The store
   * keeps `Date` objects (structured clone), so nothing is lost.
   */
  function Restore(stored: Option<seq<Message>>): (log: seq<Message>)
    ensures stored.None? ==> log == []
    ensures stored.Some? ==> |log| == |stored.value|
    ensures stored.Some? ==> forall i :: 0 <= i < |log| ==>
              log[i].(timestamp := stored.value[i].timestamp) == stored.value[i]
              && log[i].timestamp.time == stored.value[i].timestamp.time
  {
    match stored
    case None => []
    case Some(ms) => seq(|ms|, i requires 0 <= i < |ms| => ms[i].(timestamp := RewrapDate(ms[i].timestamp)))
  }

  /** Restoring what was stored gives back the same log. */
  lemma RestoreStored(log: seq<Message>)
    ensures Restore(Some(log)) == log
  {
    var r := Restore(Some(log));
    assert forall i :: 0 <= i < |log| ==> r[i] == log[i];
  }

  class MessageLog {
    /** The `messages` state. */
    var messages: seq<Message>
    /** Whether the `peer` state is set (it is as soon as the hook has created its `Peer`). */
    var hasPeer: bool
    /** The `peerId` state: empty until the peer network has assigned an id. */
    var peerId: string
    /** The durable key-value store, as far as this hook reads and writes it. */
    var store: map<string, seq<Message>>
    /** Every connection made, in order. */
    var connections: seq<Connection>
    /** The frames written so far, each with the peer id it was written to. */
    var written: seq<(string, Frame)>
    /** Media files being read, in order of the calls. */
    var pending: seq<MediaRead>
    /** The notifications shown so far. */
    var notifications: seq<Notification>

    /** What a reload would find: the stored log, or the empty list. */
    ghost function StoredLog(): seq<Message>
      reads this
    {
      if MessagesKey in store then store[MessagesKey] else []
    }

    /** The log in memory is the one in storage. */
    ghost predicate Persisted()
      reads this
    {
      messages == StoredLog()
    }

    constructor (stored: map<string, seq<Message>>)
      ensures messages == [] && !hasPeer && peerId == "" && store == stored
      ensures connections == [] && written == [] && pending == [] && notifications == []
    {
      messages := [];
      hasPeer := false;
      peerId := "";
      store := stored;
      connections := [];
      written := [];
      pending := [];
      notifications := [];
    }

    /** `initPeer`: the `Peer` object is created and set. */
    method InitPeer()
      modifies this
      ensures hasPeer
      ensures messages == old(messages) && peerId == old(peerId) && store == old(store)
      ensures connections == old(connections) && written == old(written)
      ensures pending == old(pending) && notifications == old(notifications)
    {
      hasPeer := true;
    }

    /** The peer's `'open'` event: the network assigned `id`. */
    method OnPeerOpen(id: string)
      modifies this
      ensures peerId == id
      ensures messages == old(messages) && hasPeer == old(hasPeer) && store == old(store)
      ensures connections == old(connections) && written == old(written)
      ensures pending == old(pending) && notifications == old(notifications)
    {
      peerId := id;
    }

    /**
     * `loadMessages`: install the stored log (or the empty one). A failing
     * read is caught and changes nothing.
     */
    method LoadMessages(readOk: bool)
      modifies this`messages
      ensures readOk ==> messages == Restore(if MessagesKey in store then Some(store[MessagesKey]) else None)
      ensures readOk ==> Persisted()
      ensures !readOk ==> messages == old(messages)
    {
      if !readOk {
        return;
      }
      var stored := if MessagesKey in store then Some(store[MessagesKey]) else None;
      messages := Restore(stored);
      if stored.Some? {
        RestoreStored(stored.value);
      }
    }

    /**
     * `sendMessage`. Without a peer or a peer id it returns `None` and does
     * nothing. Otherwise it connects (the frame waits for `'open'`), then logs
     * the message as sent at once, whether or not the connection ever opens.
     * A failing `connect` or storage write is caught and returns `None`; after
     * a failing write the connection still exists and its frame is still
     * written on `'open'`, but nothing is logged.
     */
    method SendMessage(content: string, recipientId: string, now: nat, connectOk: bool, writeOk: bool)
      returns (r: Option<Message>)
      modifies this
      ensures old(Persisted()) ==> Persisted()
      ensures !old(hasPeer) || old(peerId) == "" || !connectOk ==>
                r == None && messages == old(messages) && store == old(store) && connections == old(connections)
      ensures old(hasPeer) && old(peerId) != "" && connectOk ==>
                connections == old(connections) + [Connection(recipientId, TextFrame(content), false)]
      ensures old(hasPeer) && old(peerId) != "" && connectOk && writeOk ==>
                var m := SentText(old(peerId), recipientId, content, now);
                r == Some(m) && messages == old(messages) + [m] && store == old(store)[MessagesKey := messages]
      ensures old(hasPeer) && old(peerId) != "" && connectOk && !writeOk ==>
                r == None && messages == old(messages) && store == old(store)
      ensures written == old(written) && pending == old(pending) && notifications == old(notifications)
      ensures hasPeer == old(hasPeer) && peerId == old(peerId)
    {
      if !hasPeer || peerId == "" {
        return None;
      }
      if !connectOk {
        return None;
      }
      connections := connections + [Connection(recipientId, TextFrame(content), false)];
      var message := SentText(peerId, recipientId, content, now);
      var updated := messages + [message];
      if !writeOk {
        return None;
      }
      store := store[MessagesKey := updated];
      messages := updated;
      return Some(message);
    }

    /**
     * `sendMediaMessage` for an image, a video or a voice recording:
     * without a peer or a peer id nothing happens; otherwise reading the file
     * starts. It returns `None` in every case; the message is logged later,
     * by `OnMediaRead`.
     */
    method SendMediaMessage(kind: Kind, recipientId: string) returns (r: Option<Message>)
      requires kind != Text
      modifies this`pending
      ensures r == None
      ensures pending == if old(hasPeer) && old(peerId) != "" then old(pending) + [MediaRead(kind, recipientId, peerId, messages)]
                         else old(pending)
    {
      if hasPeer && peerId != "" {
        pending := pending + [MediaRead(kind, recipientId, peerId, messages)];
      }
      return None;
    }

    /**
     * The `FileReader`'s `onload` for read `k`, with the data URL it produced:
     * connect (the media frame waits for `'open'`), then log the message as
     * sent. The new log extends the snapshot taken when the read started, so
     * messages logged while the file was being read are overwritten. A
     * failing `connect` or storage write logs nothing.
     */
    method OnMediaRead(k: nat, dataUrl: string, now: nat, connectOk: bool, writeOk: bool)
      requires k < |pending|
      modifies this
      ensures old(Persisted()) ==> Persisted()
      ensures pending == old(pending[..k] + pending[k + 1..])
      ensures var read := old(pending[k]);
              var m := Message(MessageId(now), read.senderId, read.recipientId, dataUrl, Date(now), Sent, read.kind);
              && connections == (if connectOk then old(connections) + [Connection(read.recipientId, MediaFrame(read.kind, dataUrl), false)]
                                 else old(connections))
              && (connectOk && writeOk ==> messages == read.snapshot + [m] && store == old(store)[MessagesKey := messages])
              && (!(connectOk && writeOk) ==> messages == old(messages) && store == old(store))
      ensures written == old(written) && notifications == old(notifications)
      ensures hasPeer == old(hasPeer) && peerId == old(peerId)
    {
      var read := pending[k];
      pending := pending[..k] + pending[k + 1..];
      if !connectOk {
        return;
      }
      connections := connections + [Connection(read.recipientId, MediaFrame(read.kind, dataUrl), false)];
      var message := Message(MessageId(now), read.senderId, read.recipientId, dataUrl, Date(now), Sent, read.kind);
      var updated := read.snapshot + [message];
      if !writeOk {
        return;
      }
      store := store[MessagesKey := updated];
      messages := updated;
    }

    /** Connection `k` opens and writes its frame; the log is not touched. */
    method OnConnectionOpen(k: nat)
      requires k < |connections| && !connections[k].isOpen
      modifies this`connections, this`written
      ensures connections == old(connections)[k := old(connections)[k].(isOpen := true)]
      ensures written == old(written) + [(old(connections)[k].remote, old(connections)[k].frame)]
    {
      var c := connections[k];
      connections := connections[k := c.(isOpen := true)];
      written := written + [(c.remote, c.frame)];
    }

    /**
     * An inbound frame from peer `from`. Only a `'message'` frame is logged,
     * as a received text, and raises one notification; any other frame,
     * `'media'` included, changes nothing. A failing storage write ends the
     * handler before the log and the notification.
     */
    method OnData(from: string, frame: Inbound, now: nat, writeOk: bool)
      modifies this
      ensures old(Persisted()) ==> Persisted()
      ensures frame.frameType == "message" && writeOk ==>
                var m := ReceivedText(from, old(peerId), frame.content, now);
                messages == old(messages) + [m] && store == old(store)[MessagesKey := messages]
                && notifications == old(notifications) + [Notification("Contact", frame.content)]
      ensures frame.frameType != "message" || !writeOk ==>
                messages == old(messages) && store == old(store) && notifications == old(notifications)
      ensures connections == old(connections) && written == old(written) && pending == old(pending)
      ensures hasPeer == old(hasPeer) && peerId == old(peerId)
    {
      if frame.frameType != "message" {
        return;
      }
      var message := ReceivedText(from, peerId, frame.content, now);
      var updated := messages + [message];
      if !writeOk {
        return;
      }
      store := store[MessagesKey := updated];
      messages := updated;
      notifications := notifications + [Notification("Contact", frame.content)];
    }
  }

  /**
   * A session that loads the stored log, gets its peer id and sends one text;
   * a later mount over the same storage loads the old log with that message
   * appended.
   */
  method ReloadAfterSend(stored: map<string, seq<Message>>, localId: string,
                         content: string, recipientId: string, now: nat)
    returns (before: seq<Message>, sent: Option<Message>, after: seq<Message>)
    requires localId != ""
    ensures before == if MessagesKey in stored then stored[MessagesKey] else []
    ensures sent == Some(SentText(localId, recipientId, content, now))
    ensures after == before + [sent.value]
  {
    var session := new MessageLog(stored);
    session.InitPeer();
    session.OnPeerOpen(localId);
    session.LoadMessages(true);
    before := session.messages;
    sent := session.SendMessage(content, recipientId, now, true, true);
    var remount := new MessageLog(session.store);
    remount.LoadMessages(true);
    after := remount.messages;
  }

  // ---------------------------------------------------------------------
  // The inbound handler as written

  /**
   * The handler registered by `initPeer` closes over the `messages` and
   * `peerId` of the first render: the empty list and the empty id. The log
   * it writes is therefore that empty list plus the new message.
   */
  function InboundLogAsWritten(current: seq<Message>, from: string, content: string, now: nat): (log: seq<Message>)
    ensures |log| == 1 && log[0].status == Received && log[0].receiverId == ""
  {
    [] + [ReceivedText(from, "", content, now)]
  }

  /**
   * As written, a received message replaces the whole history instead of
   * extending it, and is addressed to the empty id instead of the local one.
   */
  lemma InboundAsWrittenDropsHistory(current: seq<Message>, from: string, localId: string, content: string, now: nat)
    requires |current| > 0
    ensures InboundLogAsWritten(current, from, content, now) != current + [ReceivedText(from, localId, content, now)]
    ensures localId != "" ==> InboundLogAsWritten(current, from, content, now)[0] != ReceivedText(from, localId, content, now)
  {
  }
}
