/**
 * The client object: the authenticated user, the chat table it aggregates
 * direct messages into, and the open user stream.
 */
module TdmClient {
  import opened Wrappers
  import opened Types
  import opened Decimal
  import opened Params
  import opened Stream
  import opened Chats

  /** A vendor listing call: query parameters in, a page of messages or an error out. */
  type DmApi = Values -> Result<seq<DirectMessage>, Error>

  /** FetchChats asks for up to 200 messages in each direction. */
  const FetchParams: DmParams := DmParams(0, 0, 200)

  /**
   * GetDms and GetSentDms: the listing call, with the parameters rendered as a
   * query that carries exactly the strictly positive bounds of p.
   */
  function ListDms(api: DmApi, p: DmParams): (r: Result<seq<DirectMessage>, Error>)
    ensures r == api(ToValues(p))
    ensures Bound(ToValues(p), SinceIdKey) == if p.sinceId > 0 then p.sinceId else 0
    ensures Bound(ToValues(p), MaxIdKey) == if p.maxId > 0 then p.maxId else 0
    ensures Bound(ToValues(p), CountKey) == if p.count > 0 then p.count else 0
  {
    ToValuesRoundTrip(p);
    api(ToValues(p))
  }

  /**
   * What FetchChats leaves behind: the received messages are added when their
   * listing succeeds, the sent ones after them when both listings succeed, and
   * the error is that of the first listing that failed.
   */
  function FetchOutcome(chats: ChatTable, self: Int64, getDms: DmApi, getSentDms: DmApi): (r: (ChatTable, Option<Error>))
    ensures chats.Keys <= r.0.Keys
    ensures r.1 == None <==> ListDms(getDms, FetchParams).Success? && ListDms(getSentDms, FetchParams).Success?
    ensures ListDms(getDms, FetchParams).Failure? ==> r == (chats, Some(ListDms(getDms, FetchParams).error))
    ensures ListDms(getDms, FetchParams).Success? ==>
      forall dm :: dm in ListDms(getDms, FetchParams).value ==> CounterpartId(dm, self) in r.0
  {
    match ListDms(getDms, FetchParams)
    case Failure(e) => (chats, Some(e))
    case Success(received) =>
      var withReceived := AddAll(chats, self, received);
      match ListDms(getSentDms, FetchParams)
      case Failure(e) => (withReceived, Some(e))
      case Success(sent) => (AddAll(withReceived, self, sent), None)
  }

  /**
   * FetchChats requests count=200 and nothing else, and a failed received
   * listing leaves the table as it was; after a successful pair of listings
   * the table holds exactly the listed messages more.
   */
  lemma FetchOutcomeProperties(chats: ChatTable, self: Int64, getDms: DmApi, getSentDms: DmApi)
    ensures ToValues(FetchParams) == map[CountKey := ["200"]]
    ensures ChatsValid(chats, self) ==> ChatsValid(FetchOutcome(chats, self, getDms, getSentDms).0, self)
    ensures getDms(ToValues(FetchParams)).Failure? ==> FetchOutcome(chats, self, getDms, getSentDms).0 == chats
    ensures FetchOutcome(chats, self, getDms, getSentDms).1 == None ==>
      TotalMessages(FetchOutcome(chats, self, getDms, getSentDms).0) ==
        TotalMessages(chats) + |getDms(ToValues(FetchParams)).value| + |getSentDms(ToValues(FetchParams)).value|
  {
    assert FormatNat(2) == "2";
    assert FormatNat(20) == "20";
    assert FormatNat(200) == "200";
    var q := ToValues(FetchParams);
    if getDms(q).Success? {
      var withReceived := AddAll(chats, self, getDms(q).value);
      AddAllTotal(chats, self, getDms(q).value);
      if ChatsValid(chats, self) {
        AddAllValid(chats, self, getDms(q).value);
      }
      if getSentDms(q).Success? {
        AddAllTotal(withReceived, self, getSentDms(q).value);
        if ChatsValid(withReceived, self) {
          AddAllValid(withReceived, self, getSentDms(q).value);
        }
      }
    }
  }

  class Tdm {
    var user: User
    var chats: ChatTable
    var stream: Option<seq<Event>>

    /** Every chat is keyed by its counterpart and holds that counterpart's messages on their side. */
    ghost predicate Valid()
      reads this
    {
      ChatsValid(chats, user.id)
    }

    /** new(Tdm) with the user GetSelf returned, then initChats: an empty table, no stream. */
    constructor (user: User)
      ensures Valid()
      ensures this.user == user && chats == map[] && stream == None
    {
      this.user := user;
      chats := map[];
      stream := None;
    }

    /** Tdm.addDm, which always reports success. */
    method AddDm(dm: DirectMessage) returns (err: Option<Error>)
      requires Valid()
      modifies this`chats
      ensures Valid()
      ensures chats == WithDm(old(chats), user.id, dm)
      ensures TotalMessages(chats) == TotalMessages(old(chats)) + 1
      ensures err == None
    {
      var chatterId: Int64;
      var chatterUsername: string;
      if dm.senderId == user.id {
        chatterId, chatterUsername := dm.recipientId, dm.recipientScreenName;
      } else {
        chatterId, chatterUsername := dm.senderId, dm.senderScreenName;
      }

      var chat: Chat;
      if chatterId in chats {
        chat := chats[chatterId];
      } else {
        chat := Chat(chatterUsername, chatterId, [], []);
      }

      if dm.senderId == user.id {
        chat := chat.(sentDms := chat.sentDms + [dm]);
      } else {
        chat := chat.(receivedDms := chat.receivedDms + [dm]);
      }
      AddDmValid(chats, user.id, dm);
      AddDmTotal(chats, user.id, dm);
      chats := chats[chatterId := chat];
      err := None;
    }

    /** The loop over a batch of messages in FetchChats and in the stream consumer of NewTdm. */
    method AddDms(dms: seq<DirectMessage>)
      requires Valid()
      modifies this`chats
      ensures Valid()
      ensures chats == AddAll(old(chats), user.id, dms)
    {
      for i := 0 to |dms|
        invariant Valid()
        invariant AddAll(chats, user.id, dms[i..]) == AddAll(old(chats), user.id, dms)
      {
        assert dms[i..][1..] == dms[i + 1..];
        var _ := AddDm(dms[i]);
      }
    }

    /** Tdm.FetchChats: list received then sent messages and add them; stop at the first failed listing. */
    method FetchChats(getDms: DmApi, getSentDms: DmApi) returns (err: Option<Error>)
      requires Valid()
      modifies this`chats
      ensures Valid()
      ensures (chats, err) == FetchOutcome(old(chats), user.id, getDms, getSentDms)
    {
      var received := ListDms(getDms, FetchParams);
      if received.Failure? {
        return Some(received.error);
      }
      AddDms(received.value);

      var sent := ListDms(getSentDms, FetchParams);
      if sent.Failure? {
        return Some(sent.error);
      }
      AddDms(sent.value);
      return None;
    }

    /** Tdm.OpenStream, with the events of the opened user stream as input. */
    method OpenStream(events: seq<Event>)
      modifies this`stream
      ensures stream == Some(events)
    {
      stream := Some(events);
    }

    /** Tdm.GetDmStream: fails without an open stream, otherwise yields its direct messages in order. */
    method GetDmStream() returns (r: Result<seq<DirectMessage>, Error>)
      ensures stream.None? ==> r == Failure("No open stream")
      ensures stream.Some? ==> r.Success? && r.value == DirectMessages(stream.value)
      ensures r.Success? ==> forall dm :: dm in r.value <==> DirectMessageEvent(dm) in stream.value
    {
      if stream.None? {
        return Failure("No open stream");
      }
      var dms := Filter(stream.value);
      forall dm | true
        ensures dm in dms <==> DirectMessageEvent(dm) in stream.value
      {
        DirectMessagesMembers(stream.value, dm);
      }
      return Success(dms);
    }

    /**
     * NewTdm: fail when the authenticated user cannot be fetched; otherwise
     * build the client, bootstrap the table (a failed listing is only
     * reported), open the stream and add its direct messages as they arrive.
     */
    static method NewTdm(self: Result<User, Error>, getDms: DmApi, getSentDms: DmApi, events: seq<Event>)
      returns (r: Result<Tdm, Error>)
      ensures self.Failure? ==> r == Failure(self.error)
      ensures self.Success? ==> r.Success? && fresh(r.value)
      ensures self.Success? ==>
        var t := r.value;
        && t.Valid()
        && t.user == self.value
        && t.stream == Some(events)
        && t.chats == AddAll(FetchOutcome(map[], self.value.id, getDms, getSentDms).0, self.value.id, DirectMessages(events))
    {
      if self.Failure? {
        return Failure(self.error);
      }
      var t := new Tdm(self.value);
      var _ := t.FetchChats(getDms, getSentDms);
      t.OpenStream(events);
      var dmStream := t.GetDmStream();
      match dmStream {
        case Failure(e) =>
          return Failure(e);
        case Success(dms) =>
          t.AddDms(dms);
      }
      return Success(t);
    }
  }
}
