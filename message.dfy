/**
 * Conversations and messages between users. A conversation between two users
 * is found, not duplicated, when one already holds both of them; sending into
 * a supplied conversation does not check who is in it.
 */
module Messages {
  import opened Common
  import opened Seqs
  import opened Store

  // ---------------------------------------------------------------------------
  // Finding a conversation between two users
  // ---------------------------------------------------------------------------

  function Joins(u: string, v: string): Conversation -> bool {
    (c: Conversation) => u in c.participants && v in c.participants
  }

  /** `findFirst` over the conversations holding both users, in table order. */
  function Between(t: Tables, u: string, v: string): (r: Option<Conversation>)
    ensures r.Some? ==> r.value in t.conversations && u in r.value.participants && v in r.value.participants
    ensures r.None? <==> forall j :: 0 <= j < |t.conversations| ==> !Joins(u, v)(t.conversations[j])
  {
    FirstWhere(t.conversations, Joins(u, v))
  }

  /** Which of the two users started the conversation does not matter. */
  lemma BetweenSymmetric(t: Tables, u: string, v: string)
    ensures Between(t, u, v) == Between(t, v, u)
  {
    var a := IndexWhere(t.conversations, Joins(u, v));
    var b := IndexWhere(t.conversations, Joins(v, u));
    assert forall j :: 0 <= j < |t.conversations| ==> Joins(u, v)(t.conversations[j]) == Joins(v, u)(t.conversations[j]);
    if a.Some? && b.Some? {
      assert a.value == b.value;
    }
  }

  /** A conversation appended to a table where none held the two users is the one found for them. */
  lemma BetweenAfterCreate(t: Tables, u: string, v: string, c: Conversation)
    requires Between(t, u, v).None? && u in c.participants && v in c.participants
    ensures Between(t.(conversations := t.conversations + [c]), u, v) == Some(c)
  {
    var s := t.conversations + [c];
    assert Joins(u, v)(s[|t.conversations|]);
    var i := IndexWhere(s, Joins(u, v));
    assert i.Some? && i.value == |t.conversations|;
  }

  /** The new conversation: the caller's organization and the two participants. */
  function NewConversation(id: string, org: string, u: string, v: string, now: int): (c: Conversation)
    ensures c.organizationId == org && u in c.participants && v in c.participants
  {
    Conversation(id, org, [u, v], now)
  }

  /** The database accepts the conversation: fresh id, an existing organization and existing participants. */
  predicate CanInsertConversation(t: Tables, c: Conversation) {
    KeyFree(t.conversations, ConversationId, c.id) && FindOrganization(t, c.organizationId).Some? &&
    forall i :: 0 <= i < |c.participants| ==> FindUser(t, c.participants[i]).Some?
  }

  // ---------------------------------------------------------------------------
  // startConversation
  // ---------------------------------------------------------------------------

  function StartReply(t: Tables, session: Option<Session>, recipientId: string, newId: string, now: int): (r: Reply<string>)
    ensures r == Err("Unauthorized") <==> UserOf(session).None? || OrgOf(session).None?
    ensures UserOf(session).Some? && OrgOf(session).Some? && Between(t, UserOf(session).value, recipientId).Some? ==>
      r == Ok(Between(t, UserOf(session).value, recipientId).value.id)
    ensures UserOf(session).Some? && OrgOf(session).Some? && Between(t, UserOf(session).value, recipientId).None? ==>
      (r == Ok(newId) <==>
        CanInsertConversation(t, NewConversation(newId, OrgOf(session).value, UserOf(session).value, recipientId, now)))
    ensures r.Err? ==> r.error in {"Unauthorized", "Failed to start conversation"}
    ensures !r.Thrown?
  {
    if UserOf(session).None? || OrgOf(session).None? then Err("Unauthorized")
    else
      var u := UserOf(session).value;
      match Between(t, u, recipientId)
      case Some(c) => Ok(c.id)
      case None =>
        if CanInsertConversation(t, NewConversation(newId, OrgOf(session).value, u, recipientId, now)) then Ok(newId)
        else Err("Failed to start conversation")
  }

  /** The store after `startConversation`: one new conversation exactly when none was found and the insert succeeded. */
  function AfterStart(t: Tables, session: Option<Session>, recipientId: string, newId: string, now: int): Tables
    requires UserOf(session).Some? && OrgOf(session).Some?
  {
    var c := NewConversation(newId, OrgOf(session).value, UserOf(session).value, recipientId, now);
    if Between(t, UserOf(session).value, recipientId).None? && CanInsertConversation(t, c) then
      t.(conversations := t.conversations + [c])
    else t
  }

  /** `startConversation(recipientId)`; `newId` and `now` belong to a conversation it may create. */
  method StartConversation(db: Db, session: Option<Session>, recipientId: string, newId: string, now: int)
    returns (r: Reply<string>)
    requires db.Valid()
    modifies db
    ensures db.Valid()
    ensures r == StartReply(old(db.t), session, recipientId, newId, now)
    ensures UserOf(session).None? || OrgOf(session).None? ==> db.t == old(db.t)
    ensures UserOf(session).Some? && OrgOf(session).Some? ==> db.t == AfterStart(old(db.t), session, recipientId, newId, now)
  {
    var u := UserOf(session);
    var org := OrgOf(session);
    if u.None? || org.None? {
      return Err("Unauthorized");
    }
    var existing := Between(db.t, u.value, recipientId);
    if existing.Some? {
      return Ok(existing.value.id);
    }
    var c := NewConversation(newId, org.value, u.value, recipientId, now);
    if !CanInsertConversation(db.t, c) {
      return Err("Failed to start conversation");
    }
    AppendUnique(db.t.conversations, ConversationId, c);
    db.t := db.t.(conversations := db.t.conversations + [c]);
    return Ok(newId);
  }

  /**
   * Find-or-create: once a conversation between two users has been started,
   * starting it again, by either of them, returns the same id and adds nothing.
   */
  lemma StartAgainSameConversation(t: Tables, s1: Option<Session>, recipientId: string, newId: string, now: int,
                                   s2: Option<Session>, other: string, newId2: string, now2: int)
    requires StartReply(t, s1, recipientId, newId, now).Ok?
    requires OrgOf(s2).Some? && UserOf(s2).Some?
    requires (UserOf(s2) == UserOf(s1) && other == recipientId) || (UserOf(s2) == Some(recipientId) && Some(other) == UserOf(s1))
    ensures var t' := AfterStart(t, s1, recipientId, newId, now);
      StartReply(t', s2, other, newId2, now2) == StartReply(t, s1, recipientId, newId, now) &&
      AfterStart(t', s2, other, newId2, now2) == t'
  {
    var u := UserOf(s1).value;
    var t' := AfterStart(t, s1, recipientId, newId, now);
    if Between(t, u, recipientId).None? {
      BetweenAfterCreate(t, u, recipientId, NewConversation(newId, OrgOf(s1).value, u, recipientId, now));
    }
    BetweenSymmetric(t', u, recipientId);
  }

  // ---------------------------------------------------------------------------
  // getConversations
  // ---------------------------------------------------------------------------

  function InConversation(id: string): Message -> bool {
    (m: Message) => m.conversationId == id
  }

  function MessageCreatedAt(m: Message): int { m.createdAt }

  /** The conversation's latest message, as a list of at most one (`messages: { orderBy desc, take: 1 }`). */
  function LatestMessage(t: Tables, id: string): (r: seq<Message>)
    ensures |r| <= 1
    ensures |r| == 1 ==> r[0] in t.messages && r[0].conversationId == id
  {
    Take(SortedFilter(t.messages, InConversation(id), MessageCreatedAt), 1)
  }

  /** The latest message is no older than any message of the conversation, and it is missing only when there are none. */
  lemma LatestIsNewest(t: Tables, id: string, j: nat)
    requires j < |t.messages| && t.messages[j].conversationId == id
    ensures |LatestMessage(t, id)| == 1 && LatestMessage(t, id)[0].createdAt >= t.messages[j].createdAt
  {
    var sorted := SortedFilter(t.messages, InConversation(id), MessageCreatedAt);
    assert InConversation(id)(t.messages[j]);
    var k :| 0 <= k < |sorted| && sorted[k] == t.messages[j];
    assert LatestMessage(t, id)[0] == sorted[0];
  }

  datatype ConversationView = ConversationView(conversation: Conversation, latest: seq<Message>)

  function HasParticipant(u: string): Conversation -> bool {
    (c: Conversation) => u in c.participants
  }

  function ConversationUpdatedAt(c: Conversation): int { c.updatedAt }

  function ConversationViews(t: Tables, cs: seq<Conversation>): (r: seq<ConversationView>)
    ensures |r| == |cs|
    ensures forall i :: 0 <= i < |cs| ==> r[i] == ConversationView(cs[i], LatestMessage(t, cs[i].id))
  {
    MapSeq(cs, (c: Conversation) => ConversationView(c, LatestMessage(t, c.id)))
  }

  /** `getConversations`: the caller's conversations, most recently updated first, each with its latest message. */
  function GetConversations(t: Tables, session: Option<Session>): (r: seq<ConversationView>)
    ensures UserOf(session).None? ==> r == []
  {
    match UserOf(session)
    case None => []
    case Some(u) => ConversationViews(t, SortedFilter(t.conversations, HasParticipant(u), ConversationUpdatedAt))
  }

  lemma GetConversationsScoped(t: Tables, session: Option<Session>)
    requires UserOf(session).Some?
    ensures var r := GetConversations(t, session);
      forall i :: 0 <= i < |r| ==>
        r[i].conversation in t.conversations && UserOf(session).value in r[i].conversation.participants &&
        r[i].latest == LatestMessage(t, r[i].conversation.id)
  {
  }

  lemma GetConversationsComplete(t: Tables, session: Option<Session>, j: nat)
    requires UserOf(session).Some? && j < |t.conversations| && UserOf(session).value in t.conversations[j].participants
    ensures exists i :: 0 <= i < |GetConversations(t, session)| && GetConversations(t, session)[i].conversation == t.conversations[j]
  {
    var cs := SortedFilter(t.conversations, HasParticipant(UserOf(session).value), ConversationUpdatedAt);
    assert HasParticipant(UserOf(session).value)(t.conversations[j]);
    var i :| 0 <= i < |cs| && cs[i] == t.conversations[j];
    assert GetConversations(t, session)[i].conversation == t.conversations[j];
  }

  lemma GetConversationsSorted(t: Tables, session: Option<Session>)
    ensures var r := GetConversations(t, session);
      forall i, j :: 0 <= i < j < |r| ==> r[i].conversation.updatedAt >= r[j].conversation.updatedAt
  {
    if UserOf(session).Some? {
      var cs := SortedFilter(t.conversations, HasParticipant(UserOf(session).value), ConversationUpdatedAt);
      assert forall i :: 0 <= i < |cs| ==> GetConversations(t, session)[i].conversation == cs[i];
    }
  }

  // ---------------------------------------------------------------------------
  // getMessages
  // ---------------------------------------------------------------------------

  /** Ascending time is descending order of the negated time. */
  function Earliness(m: Message): int { -m.createdAt }

  predicate Participates(t: Tables, u: string, conversationId: string) {
    FindConversation(t, conversationId).Some? && u in FindConversation(t, conversationId).value.participants
  }

  /** `getMessages`: the conversation's messages, oldest first, only for a participant. */
  function GetMessages(t: Tables, session: Option<Session>, conversationId: string): (r: seq<Message>)
    ensures UserOf(session).None? || !Participates(t, UserOf(session).value, conversationId) ==> r == []
    ensures UserOf(session).Some? && Participates(t, UserOf(session).value, conversationId) ==>
      multiset(r) == multiset(Filter(t.messages, InConversation(conversationId)))
    ensures forall i :: 0 <= i < |r| ==> r[i] in t.messages && r[i].conversationId == conversationId
    ensures forall i, j :: 0 <= i < j < |r| ==> r[i].createdAt <= r[j].createdAt
  {
    if UserOf(session).None? || !Participates(t, UserOf(session).value, conversationId) then []
    else SortedFilter(t.messages, InConversation(conversationId), Earliness)
  }

  // ---------------------------------------------------------------------------
  // sendMessage
  // ---------------------------------------------------------------------------

  datatype MessageInput = MessageInput(content: string, conversationId: Option<string>, recipientId: Option<string>)

  /** `MessageSchema`: non-empty content; each id, when given, a UUID. */
  predicate MessageInputValid(d: MessageInput) {
    |d.content| >= 1 && (d.conversationId.Some? ==> IsUuid(d.conversationId.value)) &&
    (d.recipientId.Some? ==> IsUuid(d.recipientId.value))
  }

  /** Where the message goes. */
  datatype Target = Supplied(id: string) | Found(c: Conversation) | Created(c: Conversation) | NoRecipient

  function TargetOf(t: Tables, u: string, org: string, d: MessageInput, newConversationId: string, now: int): (g: Target)
    ensures d.conversationId.Some? <==> g.Supplied?
    ensures g.Supplied? ==> g.id == d.conversationId.value
    ensures g.NoRecipient? <==> d.conversationId.None? && d.recipientId.None?
    ensures g.Found? ==> d.recipientId.Some? && Between(t, u, d.recipientId.value) == Some(g.c)
    ensures g.Created? <==> d.conversationId.None? && d.recipientId.Some? && Between(t, u, d.recipientId.value).None?
    ensures g.Created? ==> g.c == NewConversation(newConversationId, org, u, d.recipientId.value, now)
  {
    if d.conversationId.Some? then Supplied(d.conversationId.value)
    else if d.recipientId.None? then NoRecipient
    else match Between(t, u, d.recipientId.value)
      case Some(c) => Found(c)
      case None => Created(NewConversation(newConversationId, org, u, d.recipientId.value, now))
  }

  function TargetId(g: Target): string {
    match g
    case Supplied(id) => id
    case Found(c) => c.id
    case Created(c) => c.id
    case NoRecipient => ""
  }

  /** The store once the target is settled: a created conversation is in it, whatever happens next. */
  function WithTarget(t: Tables, g: Target): Tables {
    if g.Created? then t.(conversations := t.conversations + [g.c]) else t
  }

  predicate TargetInsertable(t: Tables, g: Target) {
    !g.Created? || CanInsertConversation(t, g.c)
  }

  function NewMessage(id: string, d: MessageInput, conversationId: string, senderId: string, now: int): Message {
    Message(id, conversationId, senderId, d.content, now)
  }

  /** The database accepts the message: fresh id, an existing conversation and an existing sender. */
  predicate CanInsertMessage(t: Tables, m: Message) {
    KeyFree(t.messages, MessageId, m.id) && FindConversation(t, m.conversationId).Some? && FindUser(t, m.senderId).Some?
  }

  /** Sets `updatedAt` on the conversation with that id. */
  function Touch(cs: seq<Conversation>, id: string, now: int): (r: seq<Conversation>)
    ensures |r| == |cs|
    ensures forall i :: 0 <= i < |cs| ==> r[i] == if cs[i].id == id then cs[i].(updatedAt := now) else cs[i]
  {
    if |cs| == 0 then [] else [if cs[0].id == id then cs[0].(updatedAt := now) else cs[0]] + Touch(cs[1..], id, now)
  }

  function SendMessageReply(t: Tables, session: Option<Session>, d: MessageInput,
                            newConversationId: string, newMessageId: string, now: int): (r: Reply<string>)
    ensures r == Err("Unauthorized") <==> UserOf(session).None? || OrgOf(session).None?
    ensures r == Err("Invalid data") <==> UserOf(session).Some? && OrgOf(session).Some? && !MessageInputValid(d)
    ensures r == Err("Recipient required for new conversation") <==>
      UserOf(session).Some? && OrgOf(session).Some? && MessageInputValid(d) && d.conversationId.None? && d.recipientId.None?
    ensures r.Ok? ==> UserOf(session).Some? && OrgOf(session).Some? && MessageInputValid(d) && r.value != ""
    ensures r.Ok? && d.conversationId.Some? ==> r.value == d.conversationId.value
    ensures UserOf(session).Some? && OrgOf(session).Some? && MessageInputValid(d) ==>
      var u := UserOf(session).value;
      var g := TargetOf(t, u, OrgOf(session).value, d, newConversationId, now);
      var m := NewMessage(newMessageId, d, TargetId(g), u, now);
      (r.Ok? <==> !g.NoRecipient? && TargetInsertable(t, g) && TargetId(g) != "" && CanInsertMessage(WithTarget(t, g), m)) &&
      (r.Ok? ==> r.value == TargetId(g)) &&
      (r == Err("Failed to determine conversation") <==> !g.NoRecipient? && TargetInsertable(t, g) && TargetId(g) == "") &&
      (r == Err("Failed to send message") <==>
         !g.NoRecipient? && (!TargetInsertable(t, g) || (TargetId(g) != "" && !CanInsertMessage(WithTarget(t, g), m))))
    ensures !r.Thrown?
  {
    if UserOf(session).None? || OrgOf(session).None? then Err("Unauthorized")
    else if !MessageInputValid(d) then Err("Invalid data")
    else
      var u := UserOf(session).value;
      var g := TargetOf(t, u, OrgOf(session).value, d, newConversationId, now);
      if g.NoRecipient? then Err("Recipient required for new conversation")
      // a refused conversation insert throws and is caught
      else if !TargetInsertable(t, g) then Err("Failed to send message")
      else if TargetId(g) == "" then Err("Failed to determine conversation")
      else if !CanInsertMessage(WithTarget(t, g), NewMessage(newMessageId, d, TargetId(g), u, now)) then
        Err("Failed to send message")
      else Ok(TargetId(g))
  }

  /** The store after `sendMessage`, on every path. */
  function AfterSend(t: Tables, session: Option<Session>, d: MessageInput,
                     newConversationId: string, newMessageId: string, now: int): Tables
  {
    if UserOf(session).None? || OrgOf(session).None? || !MessageInputValid(d) then t
    else
      var u := UserOf(session).value;
      var g := TargetOf(t, u, OrgOf(session).value, d, newConversationId, now);
      if g.NoRecipient? || !TargetInsertable(t, g) then t
      else
        var t1 := WithTarget(t, g);
        var m := NewMessage(newMessageId, d, TargetId(g), u, now);
        if TargetId(g) == "" || !CanInsertMessage(t1, m) then t1
        else t1.(messages := t1.messages + [m], conversations := Touch(t1.conversations, TargetId(g), now))
  }

  lemma TouchConsistent(t: Tables, id: string, now: int)
    requires Consistent(t)
    ensures Consistent(t.(conversations := Touch(t.conversations, id, now)))
  {
    var cs := Touch(t.conversations, id, now);
    assert forall i :: 0 <= i < |cs| ==> ConversationId(cs[i]) == ConversationId(t.conversations[i]);
  }

  /**
   * `sendMessage`. `newConversationId` belongs to a conversation it may create,
   * `newMessageId` to the message, `now` is the clock.
   */
  method SendMessage(db: Db, session: Option<Session>, d: MessageInput,
                     newConversationId: string, newMessageId: string, now: int)
    returns (r: Reply<string>)
    requires db.Valid()
    modifies db
    ensures db.Valid()
    ensures r == SendMessageReply(old(db.t), session, d, newConversationId, newMessageId, now)
    ensures db.t == AfterSend(old(db.t), session, d, newConversationId, newMessageId, now)
  {
    var u := UserOf(session);
    var org := OrgOf(session);
    if u.None? || org.None? {
      return Err("Unauthorized");
    }
    if !MessageInputValid(d) {
      return Err("Invalid data");
    }
    var g := TargetOf(db.t, u.value, org.value, d, newConversationId, now);
    if g.NoRecipient? {
      return Err("Recipient required for new conversation");
    }
    if g.Created? {
      if !CanInsertConversation(db.t, g.c) {
        return Err("Failed to send message");
      }
      AppendUnique(db.t.conversations, ConversationId, g.c);
      db.t := db.t.(conversations := db.t.conversations + [g.c]);
    }
    var finalId := TargetId(g);
    if finalId == "" {
      return Err("Failed to determine conversation");
    }
    var m := NewMessage(newMessageId, d, finalId, u.value, now);
    if !CanInsertMessage(db.t, m) {
      return Err("Failed to send message");
    }
    AppendUnique(db.t.messages, MessageId, m);
    db.t := db.t.(messages := db.t.messages + [m]);
    TouchConsistent(db.t, finalId, now);
    db.t := db.t.(conversations := Touch(db.t.conversations, finalId, now));
    return Ok(finalId);
  }

  /**
   * A successful send appends exactly one message, from the caller, with the
   * content, to the conversation replied with, and bumps that conversation's
   * `updatedAt`; no other table changes.
   */
  lemma SendAppendsOneMessage(t: Tables, session: Option<Session>, d: MessageInput,
                              newConversationId: string, newMessageId: string, now: int)
    requires SendMessageReply(t, session, d, newConversationId, newMessageId, now).Ok?
    ensures var r := SendMessageReply(t, session, d, newConversationId, newMessageId, now);
      var t' := AfterSend(t, session, d, newConversationId, newMessageId, now);
      |t'.messages| == |t.messages| + 1 && t'.messages[..|t.messages|] == t.messages &&
      t'.messages[|t.messages|] == Message(newMessageId, r.value, UserOf(session).value, d.content, now) &&
      FindConversation(t', r.value).Some? && FindConversation(t', r.value).value.updatedAt == now &&
      t'.(messages := t.messages, conversations := t.conversations) == t
  {
    var u := UserOf(session).value;
    var g := TargetOf(t, u, OrgOf(session).value, d, newConversationId, now);
    var t1 := WithTarget(t, g);
    var id := TargetId(g);
    var t' := AfterSend(t, session, d, newConversationId, newMessageId, now);
    var k := IndexWhere(t1.conversations, (c: Conversation) => c.id == id).value;
    assert t'.conversations[k].id == id && t'.conversations[k].updatedAt == now;
    var i := IndexWhere(t'.conversations, (c: Conversation) => c.id == id).value;
    assert t'.conversations[i].id == id;
    assert t1.conversations[i].id == id;
  }

  /** A supplied conversation id is used as given: a caller outside the conversation posts into it, yet cannot read it. */
  lemma SuppliedConversationUnchecked(t: Tables, session: Option<Session>, d: MessageInput,
                                      newConversationId: string, newMessageId: string, now: int)
    requires UserOf(session).Some? && OrgOf(session).Some? && MessageInputValid(d) && d.conversationId.Some?
    requires CanInsertMessage(t, NewMessage(newMessageId, d, d.conversationId.value, UserOf(session).value, now))
    requires !Participates(t, UserOf(session).value, d.conversationId.value)
    ensures SendMessageReply(t, session, d, newConversationId, newMessageId, now) == Ok(d.conversationId.value)
    ensures GetMessages(t, session, d.conversationId.value) == []
  {
  }

  /** Without a conversation id, a conversation already holding both users is reused: no conversation is created. */
  lemma SendReusesConversation(t: Tables, session: Option<Session>, d: MessageInput,
                               newConversationId: string, newMessageId: string, now: int)
    requires UserOf(session).Some? && OrgOf(session).Some? && MessageInputValid(d)
    requires d.conversationId.None? && d.recipientId.Some?
    requires Between(t, UserOf(session).value, d.recipientId.value).Some?
    ensures var r := SendMessageReply(t, session, d, newConversationId, newMessageId, now);
      r.Ok? ==> r.value == Between(t, UserOf(session).value, d.recipientId.value).value.id
    ensures |AfterSend(t, session, d, newConversationId, newMessageId, now).conversations| == |t.conversations|
  {
    var u := UserOf(session).value;
    var g := TargetOf(t, u, OrgOf(session).value, d, newConversationId, now);
    assert g.Found?;
  }

  /**
   * There is no transaction: when the conversation is created but the message
   * is refused, the reply is an error and the new conversation stays.
   */
  lemma CreatedConversationOutlivesFailedSend(t: Tables, session: Option<Session>, d: MessageInput,
                                              newConversationId: string, newMessageId: string, now: int)
    requires UserOf(session).Some? && OrgOf(session).Some? && MessageInputValid(d)
    requires d.conversationId.None? && d.recipientId.Some? && Between(t, UserOf(session).value, d.recipientId.value).None?
    requires newConversationId != ""
    requires CanInsertConversation(t, NewConversation(newConversationId, OrgOf(session).value, UserOf(session).value,
                                                      d.recipientId.value, now))
    requires !KeyFree(t.messages, MessageId, newMessageId)
    ensures SendMessageReply(t, session, d, newConversationId, newMessageId, now) == Err("Failed to send message")
    ensures AfterSend(t, session, d, newConversationId, newMessageId, now).conversations ==
      t.conversations + [NewConversation(newConversationId, OrgOf(session).value, UserOf(session).value, d.recipientId.value, now)]
  {
  }
}
