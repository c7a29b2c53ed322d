/**
 * The web matches and messages pages: both list the fetched matches the
 * current user takes part in, each with the other participant looked up;
 * the messages page also keeps the selected conversation and the draft.
 */
module Conversations {
  import opened Wrappers
  import opened Js
  import opened Sequences

  /** A user as embedded in a fetched match or message: its `userId` and `id`. */
  datatype UserRef = UserRef(userId: JsId, id: JsId)

  datatype FetchedMatch = FetchedMatch(matchId: JsId, user1: Option<UserRef>, user2: Option<UserRef>)

  datatype ListedUser = ListedUser(userId: JsId, firstName: JsStr, lastName: JsStr)

  /** A fetched profile; `owner` is `p.user?.userId`. */
  datatype ListedProfile = ListedProfile(owner: JsId, bio: JsStr)

  /** A match with the other participant (and, on the matches page, their profile) attached. */
  datatype Conversation = Conversation(fetched: FetchedMatch, otherUser: Option<ListedUser>,
                                       otherProfile: Option<ListedProfile>)

  /** `ref?.userId || ref?.id`. */
  function ParticipantId(r: Option<UserRef>): (id: JsId)
    ensures r.None? ==> id == Undefined
    ensures r.Some? && Truthy(r.value.userId) ==> id == r.value.userId
  {
    if r.None? then Undefined else Or(r.value.userId, r.value.id)
  }

  predicate Involves(m: FetchedMatch, userId: JsId) {
    ParticipantId(m.user1) == userId || ParticipantId(m.user2) == userId
  }

  /** The participant who is not the current user: user2 when user1 is the current user, else user1. */
  function OtherUserId(m: FetchedMatch, userId: JsId): JsId {
    if ParticipantId(m.user1) == userId then ParticipantId(m.user2) else ParticipantId(m.user1)
  }

  function UserWithId(users: seq<ListedUser>, id: JsId): Option<ListedUser> {
    FindFirst(users, (u: ListedUser) => u.userId == id)
  }

  function ProfileOwnedBy(profiles: seq<ListedProfile>, id: JsId): Option<ListedProfile> {
    FindFirst(profiles, (p: ListedProfile) => p.owner == id)
  }

  function Enrich(m: FetchedMatch, userId: JsId, users: seq<ListedUser>,
                  profiles: Option<seq<ListedProfile>>): Conversation {
    var other := OtherUserId(m, userId);
    Conversation(m, UserWithId(users, other),
                 if profiles.Some? then ProfileOwnedBy(profiles.value, other) else None)
  }

  /**
   * The listed matches: those the current user takes part in, in fetched order, enriched.
   * The messages page passes no profiles.
   */
  function Listed(matches: seq<FetchedMatch>, userId: JsId, users: seq<ListedUser>,
                  profiles: Option<seq<ListedProfile>>): seq<Conversation> {
    Map(Filter(matches, (m: FetchedMatch) => Involves(m, userId)),
        (m: FetchedMatch) => Enrich(m, userId, users, profiles))
  }

  function ConversationMatch(c: Conversation): FetchedMatch {
    c.fetched
  }

  /** The matches page header: "1 match", otherwise "<n> matches". */
  function CountLabel(n: nat): (noun: string)
    ensures noun == "match" <==> n == 1
    ensures noun == "match" || noun == "matches"
  {
    if n == 1 then "match" else "matches"
  }

  /**
   * The listed matches are exactly the fetched matches the current user takes part in, in
   * fetched order; each carries the first user (and profile) with the other participant's id.
   */
  lemma ListedSpec(matches: seq<FetchedMatch>, userId: JsId, users: seq<ListedUser>,
                   profiles: Option<seq<ListedProfile>>)
    ensures var listed := Listed(matches, userId, users, profiles);
      Map(listed, ConversationMatch) == Filter(matches, (m: FetchedMatch) => Involves(m, userId))
      && IsSubsequence(Map(listed, ConversationMatch), matches)
      && (forall m :: m in Map(listed, ConversationMatch) <==> m in matches && Involves(m, userId))
      && (forall c :: c in listed ==>
            c.otherUser == UserWithId(users, OtherUserId(c.fetched, userId))
            && (profiles.None? ==> c.otherProfile.None?)
            && (profiles.Some? ==> c.otherProfile == ProfileOwnedBy(profiles.value, OtherUserId(c.fetched, userId))))
  {
    var p := (m: FetchedMatch) => Involves(m, userId);
    var kept := Filter(matches, p);
    var listed := Listed(matches, userId, users, profiles);
    assert Map(listed, ConversationMatch) == kept;
    FilterIsSubsequence(matches, p);
    forall m ensures m in kept <==> m in matches && Involves(m, userId) {
      FilterMember(matches, p, m);
    }
  }

  /**
   * In a listed match the other participant is the current user only when both participants
   * are; the looked-up user, when found, has the other participant's id.
   */
  lemma OtherParticipant(m: FetchedMatch, userId: JsId, users: seq<ListedUser>)
    requires Involves(m, userId)
    ensures OtherUserId(m, userId) == userId <==> ParticipantId(m.user1) == userId && ParticipantId(m.user2) == userId
    ensures OtherUserId(m, userId) == ParticipantId(m.user1) || OtherUserId(m, userId) == ParticipantId(m.user2)
    ensures UserWithId(users, OtherUserId(m, userId)).Some? ==>
      UserWithId(users, OtherUserId(m, userId)).value.userId == OtherUserId(m, userId)
  {
  }

  // ------------------------------------------------------------ messages

  /** A fetched message: its sender as embedded, and its content. */
  datatype ChatMessage = ChatMessage(messageId: JsId, sender: Option<UserRef>, content: JsStr)

  /** The body of a new message. */
  datatype Outgoing = Outgoing(matchId: JsId, senderUserId: JsId, content: string)

  /** A message is shown as the current user's iff its sender's `userId || id` is the current id. */
  predicate IsOwn(message: ChatMessage, currentUserId: JsId) {
    ParticipantId(message.sender) == currentUserId
  }

  /** The messages page: the conversations, the selected one, its messages and the draft. */
  class MessagesPage {
    var conversations: seq<Conversation>
    var selected: Option<Conversation>
    var messages: seq<ChatMessage>
    var draft: string
    var loading: bool

    constructor()
      ensures conversations == [] && selected.None? && messages == [] && draft == "" && loading
    {
      conversations := [];
      selected := None;
      messages := [];
      draft := "";
      loading := true;
    }

    /**
     * Loading the conversations from the fetched matches and users (None when a request
     * failed); the first conversation is selected when there is one and none was.
     */
    method LoadMatches(fetched: Option<(seq<FetchedMatch>, seq<ListedUser>)>, userId: JsId)
      modifies this
      ensures !loading && messages == old(messages) && draft == old(draft)
      ensures fetched.None? ==> conversations == old(conversations) && selected == old(selected)
      ensures fetched.Some? ==> conversations == Listed(fetched.value.0, userId, fetched.value.1, None)
      ensures fetched.Some? ==>
        selected == (if conversations != [] && old(selected).None? then Some(conversations[0]) else old(selected))
    {
      if fetched.Some? {
        var listed := Listed(fetched.value.0, userId, fetched.value.1, None);
        conversations := listed;
        if |listed| > 0 && selected.None? {
          selected := Some(listed[0]);
        }
      }
      loading := false;
    }

    /** Picking a conversation; its messages are loaded by `LoadMessages`. */
    method Select(c: Conversation)
      modifies this
      ensures selected == Some(c)
      ensures conversations == old(conversations) && messages == old(messages) && draft == old(draft)
      ensures loading == old(loading)
    {
      selected := Some(c);
    }

    /** The messages of the selected conversation, as fetched (None when the request failed). */
    method LoadMessages(fetched: Option<seq<ChatMessage>>)
      modifies this
      ensures messages == (if fetched.Some? then fetched.value else old(messages))
      ensures conversations == old(conversations) && selected == old(selected) && draft == old(draft)
      ensures loading == old(loading)
    {
      if fetched.Some? {
        messages := fetched.value;
      }
    }

    method EditDraft(text: string)
      modifies this
      ensures draft == text
      ensures conversations == old(conversations) && selected == old(selected) && messages == old(messages)
      ensures loading == old(loading)
    {
      draft := text;
    }

    /**
     * Sending the draft: nothing is sent for a blank draft or without a selected conversation;
     * otherwise the untrimmed draft is sent, and if the server accepts it the draft is cleared
     * and the messages are reloaded (`reloaded`, None when that request failed).
     */
    method SendMessage(currentUserId: JsId, accepted: bool, reloaded: Option<seq<ChatMessage>>)
      returns (sent: Option<Outgoing>)
      modifies this
      ensures TrimsToEmpty(old(draft)) || old(selected).None? ==>
        sent.None? && draft == old(draft) && messages == old(messages)
      ensures !TrimsToEmpty(old(draft)) && old(selected).Some? ==>
        sent == Some(Outgoing(old(selected).value.fetched.matchId, currentUserId, old(draft)))
      ensures sent.Some? && accepted ==>
        draft == "" && messages == (if reloaded.Some? then reloaded.value else old(messages))
      ensures sent.Some? && !accepted ==> draft == old(draft) && messages == old(messages)
      ensures conversations == old(conversations) && selected == old(selected) && loading == old(loading)
    {
      if TrimsToEmpty(draft) || selected.None? {
        return None;
      }
      sent := Some(Outgoing(selected.value.fetched.matchId, currentUserId, draft));
      if accepted {
        draft := "";
        LoadMessages(reloaded);
      }
    }
  }

  /** Ownership is decided by the sender's `userId`, falling back on `id` only when it is falsy. */
  lemma OwnershipFallback(message: ChatMessage, currentUserId: JsId)
    requires message.sender.Some?
    ensures Truthy(message.sender.value.userId) ==>
      (IsOwn(message, currentUserId) <==> message.sender.value.userId == currentUserId)
    ensures !Truthy(message.sender.value.userId) ==>
      (IsOwn(message, currentUserId) <==> message.sender.value.id == currentUserId)
  {
  }
}
