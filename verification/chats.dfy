/**
 * The chat aggregator as values: the table from counterpart id to chat, and
 * what adding direct messages does to it.
 */
module Chats {
  import opened Types

  /** The conversation with one counterpart: its two message lists in arrival order. */
  datatype Chat = Chat(
    username: string,
    userId: Int64,
    receivedDms: seq<DirectMessage>,
    sentDms: seq<DirectMessage>)

  /** Tdm.chats: one chat per counterpart id. */
  type ChatTable = map<Int64, Chat>

  /** A message counts as sent when the authenticated user is its sender. */
  predicate IsSent(dm: DirectMessage, self: Int64) {
    dm.senderId == self
  }

  /** The other party of a message: its recipient when sent, otherwise its sender. */
  function CounterpartId(dm: DirectMessage, self: Int64): Int64 {
    if IsSent(dm, self) then dm.recipientId else dm.senderId
  }

  function CounterpartName(dm: DirectMessage, self: Int64): string {
    if IsSent(dm, self) then dm.recipientScreenName else dm.senderScreenName
  }

  /** The sent messages of the chat with id, none when there is no such chat. */
  function SentOf(chats: ChatTable, id: Int64): seq<DirectMessage> {
    if id in chats then chats[id].sentDms else []
  }

  /** The received messages of the chat with id, none when there is no such chat. */
  function ReceivedOf(chats: ChatTable, id: Int64): seq<DirectMessage> {
    if id in chats then chats[id].receivedDms else []
  }

  function ChatSize(chat: Chat): nat {
    |chat.sentDms| + |chat.receivedDms|
  }

  /**
   * What Tdm.addDm does to the table: find the counterpart's chat, creating
   * an empty one under the counterpart's id and name when there is none,
   * and append the message to its sent or received list.
   */
  function WithDm(chats: ChatTable, self: Int64, dm: DirectMessage): (r: ChatTable)
    ensures r.Keys == chats.Keys + {CounterpartId(dm, self)}
    ensures ChatSize(r[CounterpartId(dm, self)]) == 1 + (if CounterpartId(dm, self) in chats then ChatSize(chats[CounterpartId(dm, self)]) else 0)
  {
    var id := CounterpartId(dm, self);
    var chat := if id in chats then chats[id] else Chat(CounterpartName(dm, self), id, [], []);
    chats[id := if IsSent(dm, self) then chat.(sentDms := chat.sentDms + [dm])
                else chat.(receivedDms := chat.receivedDms + [dm])]
  }

  /** The table after adding the messages one by one, in order. */
  function AddAll(chats: ChatTable, self: Int64, dms: seq<DirectMessage>): (r: ChatTable)
    ensures chats.Keys <= r.Keys
    ensures forall dm :: dm in dms ==> CounterpartId(dm, self) in r
    decreases |dms|
  {
    if dms == [] then chats else AddAll(WithDm(chats, self, dms[0]), self, dms[1..])
  }

  /** A chat is keyed by its counterpart and holds only that counterpart's messages, each on its side. */
  predicate ChatValid(chat: Chat, id: Int64, self: Int64) {
    && chat.userId == id
    && (forall dm :: dm in chat.sentDms ==> IsSent(dm, self) && dm.recipientId == id)
    && (forall dm :: dm in chat.receivedDms ==> !IsSent(dm, self) && dm.senderId == id)
  }

  predicate ChatsValid(chats: ChatTable, self: Int64) {
    forall id :: id in chats ==> ChatValid(chats[id], id, self)
  }

  /** A message the user sent lands at the end of the recipient's sent list; the received list stays. */
  lemma AddSentDm(chats: ChatTable, self: Int64, dm: DirectMessage)
    requires IsSent(dm, self)
    ensures dm.recipientId in WithDm(chats, self, dm)
    ensures SentOf(WithDm(chats, self, dm), dm.recipientId) == SentOf(chats, dm.recipientId) + [dm]
    ensures ReceivedOf(WithDm(chats, self, dm), dm.recipientId) == ReceivedOf(chats, dm.recipientId)
  {
  }

  /** Any other message lands at the end of the sender's received list; the sent list stays. */
  lemma AddReceivedDm(chats: ChatTable, self: Int64, dm: DirectMessage)
    requires !IsSent(dm, self)
    ensures dm.senderId in WithDm(chats, self, dm)
    ensures ReceivedOf(WithDm(chats, self, dm), dm.senderId) == ReceivedOf(chats, dm.senderId) + [dm]
    ensures SentOf(WithDm(chats, self, dm), dm.senderId) == SentOf(chats, dm.senderId)
  {
  }

  /**
   * A chat is created only when the counterpart has none, under the
   * counterpart's id and name; an existing chat keeps its id and name. At most
   * one chat is added, and every other chat is left exactly as it was.
   */
  lemma AddDmChats(chats: ChatTable, self: Int64, dm: DirectMessage)
    ensures WithDm(chats, self, dm).Keys == chats.Keys + {CounterpartId(dm, self)}
    ensures |WithDm(chats, self, dm)| <= |chats| + 1
    ensures CounterpartId(dm, self) !in chats ==>
      var c := WithDm(chats, self, dm)[CounterpartId(dm, self)];
      c.username == CounterpartName(dm, self) && c.userId == CounterpartId(dm, self) &&
      c.sentDms + c.receivedDms == [dm]
    ensures CounterpartId(dm, self) in chats ==>
      var c := WithDm(chats, self, dm)[CounterpartId(dm, self)];
      c.username == chats[CounterpartId(dm, self)].username && c.userId == chats[CounterpartId(dm, self)].userId
    ensures forall id :: id in chats && id != CounterpartId(dm, self) ==> WithDm(chats, self, dm)[id] == chats[id]
  {
  }

  /** Adding a message keeps every chat keyed by its counterpart and its lists partitioned by direction. */
  lemma AddDmValid(chats: ChatTable, self: Int64, dm: DirectMessage)
    requires ChatsValid(chats, self)
    ensures ChatsValid(WithDm(chats, self, dm), self)
  {
  }

  lemma {:induction false} AddAllValid(chats: ChatTable, self: Int64, dms: seq<DirectMessage>)
    requires ChatsValid(chats, self)
    ensures ChatsValid(AddAll(chats, self, dms), self)
    decreases |dms|
  {
    if dms != [] {
      AddDmValid(chats, self, dms[0]);
      AddAllValid(WithDm(chats, self, dms[0]), self, dms[1..]);
    }
  }

  /** The message as a one-element list when the user sent it to id, otherwise nothing. */
  function SentStep(dm: DirectMessage, self: Int64, id: Int64): seq<DirectMessage> {
    if IsSent(dm, self) && dm.recipientId == id then [dm] else []
  }

  /** The message as a one-element list when the user received it from id, otherwise nothing. */
  function ReceivedStep(dm: DirectMessage, self: Int64, id: Int64): seq<DirectMessage> {
    if !IsSent(dm, self) && dm.senderId == id then [dm] else []
  }

  /** The messages in dms that the user sent to id, in order. */
  function SentTo(dms: seq<DirectMessage>, self: Int64, id: Int64): seq<DirectMessage>
    decreases |dms|
  {
    if dms == [] then [] else SentStep(dms[0], self, id) + SentTo(dms[1..], self, id)
  }

  /** The messages in dms that the user received from id, in order. */
  function ReceivedFrom(dms: seq<DirectMessage>, self: Int64, id: Int64): seq<DirectMessage>
    decreases |dms|
  {
    if dms == [] then [] else ReceivedStep(dms[0], self, id) + ReceivedFrom(dms[1..], self, id)
  }

  /** One message extends exactly one list of exactly one chat, by itself. */
  lemma AddDmSides(chats: ChatTable, self: Int64, dm: DirectMessage, id: Int64)
    ensures SentOf(WithDm(chats, self, dm), id) == SentOf(chats, id) + SentStep(dm, self, id)
    ensures ReceivedOf(WithDm(chats, self, dm), id) == ReceivedOf(chats, id) + ReceivedStep(dm, self, id)
  {
  }

  /**
   * After a batch of messages, every chat's sent list is its old sent list
   * followed by the batch's messages to that counterpart, and likewise for the
   * received list: messages are partitioned by counterpart and direction and
   * keep their arrival order.
   */
  lemma {:induction false} AddAllPartition(chats: ChatTable, self: Int64, dms: seq<DirectMessage>, id: Int64)
    ensures SentOf(AddAll(chats, self, dms), id) == SentOf(chats, id) + SentTo(dms, self, id)
    ensures ReceivedOf(AddAll(chats, self, dms), id) == ReceivedOf(chats, id) + ReceivedFrom(dms, self, id)
    decreases |dms|
  {
    if dms != [] {
      AddDmSides(chats, self, dms[0], id);
      AddAllPartition(WithDm(chats, self, dms[0]), self, dms[1..], id);
    }
  }

  /** After a batch, a chat exists exactly for the old counterparts and those of the batch. */
  lemma {:induction false} AddAllKeys(chats: ChatTable, self: Int64, dms: seq<DirectMessage>, id: Int64)
    ensures id in AddAll(chats, self, dms) <==>
      id in chats || exists dm :: dm in dms && CounterpartId(dm, self) == id
    decreases |dms|
  {
    if dms != [] {
      AddAllKeys(WithDm(chats, self, dms[0]), self, dms[1..], id);
      assert dms == [dms[0]] + dms[1..];
    }
  }

  /** The number of messages held by all chats together. */
  ghost function TotalMessages(chats: ChatTable): nat
    decreases chats.Keys
  {
    if chats.Keys == {} then 0
    else
      var id :| id in chats.Keys;
      ChatSize(chats[id]) + TotalMessages(chats - {id})
  }

  /** The total can be split at any chat, not only at the one TotalMessages picks. */
  lemma {:induction false} TotalMessagesRemove(chats: ChatTable, id: Int64)
    requires id in chats
    ensures TotalMessages(chats) == ChatSize(chats[id]) + TotalMessages(chats - {id})
    decreases chats.Keys
  {
    var j :| j in chats.Keys && TotalMessages(chats) == ChatSize(chats[j]) + TotalMessages(chats - {j});
    if j != id {
      TotalMessagesRemove(chats - {j}, id);
      TotalMessagesRemove(chats - {id}, j);
      assert chats - {j} - {id} == chats - {id} - {j};
    }
  }

  lemma TotalMessagesUpdate(chats: ChatTable, id: Int64, chat: Chat)
    ensures TotalMessages(chats[id := chat]) + (if id in chats then ChatSize(chats[id]) else 0)
      == TotalMessages(chats) + ChatSize(chat)
  {
    TotalMessagesRemove(chats[id := chat], id);
    assert chats[id := chat] - {id} == chats - {id};
    if id in chats {
      TotalMessagesRemove(chats, id);
    } else {
      assert chats - {id} == chats;
    }
  }

  /** Adding one message raises the number of messages held by exactly one. */
  lemma AddDmTotal(chats: ChatTable, self: Int64, dm: DirectMessage)
    ensures TotalMessages(WithDm(chats, self, dm)) == TotalMessages(chats) + 1
  {
    var id := CounterpartId(dm, self);
    var chat := if id in chats then chats[id] else Chat(CounterpartName(dm, self), id, [], []);
    var updated := if IsSent(dm, self) then chat.(sentDms := chat.sentDms + [dm])
                   else chat.(receivedDms := chat.receivedDms + [dm]);
    TotalMessagesUpdate(chats, id, updated);
  }

  /** Adding a batch raises the number of messages held by the batch's length. */
  lemma {:induction false} AddAllTotal(chats: ChatTable, self: Int64, dms: seq<DirectMessage>)
    ensures TotalMessages(AddAll(chats, self, dms)) == TotalMessages(chats) + |dms|
    decreases |dms|
  {
    if dms != [] {
      AddDmTotal(chats, self, dms[0]);
      AddAllTotal(WithDm(chats, self, dms[0]), self, dms[1..]);
    }
  }

  /**
   * Bootstrap with two received and three sent messages between the user (1)
   * and two counterparts (2 and 3) yields exactly two chats, each holding its
   * own messages on the right side in arrival order.
   */
  lemma BootstrapExample()
    ensures
      var r1 := DirectMessage(2, "bob", 1, "me", "hi");
      var r2 := DirectMessage(3, "eve", 1, "me", "hey");
      var s1 := DirectMessage(1, "me", 2, "bob", "hello");
      var s2 := DirectMessage(1, "me", 3, "eve", "yo");
      var s3 := DirectMessage(1, "me", 2, "bob", "bye");
      var chats := AddAll(AddAll(map[], 1, [r1, r2]), 1, [s1, s2, s3]);
      && chats.Keys == {2, 3}
      && chats[2] == Chat("bob", 2, [r1], [s1, s3])
      && chats[3] == Chat("eve", 3, [r2], [s2])
  {
    var r1 := DirectMessage(2, "bob", 1, "me", "hi");
    var r2 := DirectMessage(3, "eve", 1, "me", "hey");
    var s1 := DirectMessage(1, "me", 2, "bob", "hello");
    var s2 := DirectMessage(1, "me", 3, "eve", "yo");
    var s3 := DirectMessage(1, "me", 2, "bob", "bye");
    var m1 := WithDm(map[], 1, r1);
    var m2 := WithDm(m1, 1, r2);
    assert [r1, r2][1..] == [r2] && [r2][1..] == [];
    assert AddAll(m1, 1, [r2]) == m2;
    assert AddAll(map[], 1, [r1, r2]) == m2;
    var m3 := WithDm(m2, 1, s1);
    var m4 := WithDm(m3, 1, s2);
    var m5 := WithDm(m4, 1, s3);
    assert [s1, s2, s3][1..] == [s2, s3] && [s2, s3][1..] == [s3] && [s3][1..] == [];
    assert AddAll(m4, 1, [s3]) == m5;
    assert AddAll(m3, 1, [s2, s3]) == m5;
    assert AddAll(m2, 1, [s1, s2, s3]) == m5;
  }
}
