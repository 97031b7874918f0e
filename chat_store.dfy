/** The conversation store (`useChatStore`): a list of conversations, the id
    of the active one, a loading flag and an error. Each action replaces
    `conversations` with a new list built by `map` or `filter`; those list
    transformations are the functions at the top of the module, and the
    class below holds the store's fields and performs the actions.

    The clock (`new Date().toISOString()`) and `generateId()` are parameters
    of the actions that use them: `now` and `freshId`. */
module ChatStore {
  import opened Wrappers
  import opened Types
  import Sequences

  const DefaultTitle := "New Conversation"
  const DefaultModel := "gpt-3.5-turbo"

  /** `cs.map(conv => conv.id === id ? f(conv) : conv)`. */
  function MapWhere(cs: seq<Conversation>, id: string, f: Conversation -> Conversation): (r: seq<Conversation>)
    ensures |r| == |cs|
    ensures forall i :: 0 <= i < |cs| ==> r[i] == if cs[i].id == id then f(cs[i]) else cs[i]
  {
    if cs == [] then []
    else [if cs[0].id == id then f(cs[0]) else cs[0]] + MapWhere(cs[1..], id, f)
  }

  /** `messages.map(msg => msg.id === id ? { ...msg, ...u } : msg)`. */
  function PatchMessages(ms: seq<Message>, id: string, u: MessagePatch): (r: seq<Message>)
    ensures |r| == |ms|
    ensures forall i :: 0 <= i < |ms| ==> r[i] == if ms[i].id == id then MergeMessage(ms[i], u) else ms[i]
  {
    if ms == [] then []
    else [if ms[0].id == id then MergeMessage(ms[0], u) else ms[0]] + PatchMessages(ms[1..], id, u)
  }

  /** The conversation `updateConversation` writes: the update merged in,
      then `updatedAt` set to `now` whatever the update said. */
  function Updated(c: Conversation, u: ConversationPatch, now: string): (r: Conversation)
    ensures r.updatedAt == now
    ensures r.id == (if u.id.Some? then u.id.value else c.id)
    ensures r.userId == (if u.userId.Some? then u.userId.value else c.userId)
    ensures r.title == (if u.title.Some? then u.title.value else c.title)
    ensures r.messages == (if u.messages.Some? then u.messages.value else c.messages)
    ensures r.createdAt == (if u.createdAt.Some? then u.createdAt.value else c.createdAt)
    ensures r.model == (if u.model.Some? then u.model.value else c.model)
    ensures r.settings == (if u.settings.Some? then u.settings else c.settings)
    ensures u == EmptyConversationPatch ==> r == c.(updatedAt := now)
  {
    MergeConversation(c, u).(updatedAt := now)
  }

  /** The conversation `addMessage` writes. */
  function WithMessage(c: Conversation, m: Message, now: string): Conversation
  {
    c.(messages := c.messages + [m], updatedAt := now)
  }

  /** The conversation `updateMessage` writes. */
  function WithMessagePatched(c: Conversation, messageId: string, u: MessagePatch, now: string): Conversation
  {
    c.(messages := PatchMessages(c.messages, messageId, u), updatedAt := now)
  }

  /** The conversation `deleteMessage` writes. */
  function WithoutMessage(c: Conversation, messageId: string, now: string): (r: Conversation)
    ensures Sequences.IsSubsequence(r.messages, c.messages)
    ensures forall i :: 0 <= i < |r.messages| ==> r.messages[i].id != messageId
    ensures forall i :: 0 <= i < |c.messages| && c.messages[i].id != messageId ==> c.messages[i] in r.messages
    ensures forall m :: multiset(r.messages)[m] == if m.id == messageId then 0 else multiset(c.messages)[m]
    ensures r == c.(messages := r.messages, updatedAt := now)
  {
    Sequences.FilterMultiplicity(c.messages, (m: Message) => m.id != messageId);
    c.(messages := Sequences.Filter(c.messages, (m: Message) => m.id != messageId), updatedAt := now)
  }

  /** The conversation `createNewConversation` builds; an absent or empty
      title falls back to the default (`title || 'New Conversation'`). */
  function NewConversation(id: string, title: Option<string>, now: string): (c: Conversation)
    ensures c.id == id && c.userId == "" && c.messages == []
    ensures c.title == (if title.Some? && title.value != "" then title.value else DefaultTitle)
    ensures c.createdAt == now && c.updatedAt == now && c.model == DefaultModel
    ensures c.settings.None?
  {
    Conversation(id, "", if title.Some? && title.value != "" then title.value else DefaultTitle,
                 [], now, now, DefaultModel, None)
  }

  /** The first conversation whose id is the active id, as `find`. */
  function ActiveIn(cs: seq<Conversation>, active: Option<string>): (r: Option<Conversation>)
    ensures r.Some? <==> active.Some? && exists i :: 0 <= i < |cs| && cs[i].id == active.value
    ensures r.Some? ==> exists i :: 0 <= i < |cs| && cs[i] == r.value && cs[i].id == active.value
                                   && forall j :: 0 <= j < i ==> cs[j].id != active.value
  {
    Sequences.Find(cs, (c: Conversation) => Some(c.id) == active)
  }

  /** The part of the state that `partialize` hands to local storage. */
  datatype PersistedChat = PersistedChat(conversations: seq<Conversation>, activeConversationId: Option<string>)

  class ChatStore {
    var conversations: seq<Conversation>
    var activeConversationId: Option<string>
    var isLoading: bool
    var error: Option<string>

    constructor ()
      ensures conversations == [] && activeConversationId == None
      ensures !isLoading && error == None
    {
      conversations := [];
      activeConversationId := None;
      isLoading := false;
      error := None;
    }

    /** `partialize`: only the conversations and the active id persist. */
    function Persisted(): (p: PersistedChat)
      reads this
      ensures p.conversations == conversations && p.activeConversationId == activeConversationId
    {
      PersistedChat(conversations, activeConversationId)
    }

    method SetConversations(cs: seq<Conversation>)
      modifies this
      ensures conversations == cs
      ensures activeConversationId == old(activeConversationId)
      ensures isLoading == old(isLoading) && error == old(error)
    {
      conversations := cs;
    }

    method SetActiveConversation(id: Option<string>)
      modifies this
      ensures activeConversationId == id
      ensures conversations == old(conversations)
      ensures isLoading == old(isLoading) && error == old(error)
    {
      activeConversationId := id;
    }

    /** Prepends the conversation; the active id stays. */
    method AddConversation(c: Conversation)
      modifies this
      ensures conversations == [c] + old(conversations)
      ensures activeConversationId == old(activeConversationId)
      ensures isLoading == old(isLoading) && error == old(error)
    {
      conversations := [c] + conversations;
    }

    /** Merges `u` into every conversation with that id and stamps it with
        `now`; all other conversations, and the length, stay. */
    method UpdateConversation(id: string, u: ConversationPatch, now: string)
      modifies this
      ensures |conversations| == |old(conversations)|
      ensures forall i :: 0 <= i < |conversations| ==>
        conversations[i] == if old(conversations)[i].id == id
                            then Updated(old(conversations)[i], u, now)
                            else old(conversations)[i]
      ensures activeConversationId == old(activeConversationId)
      ensures isLoading == old(isLoading) && error == old(error)
    {
      conversations := MapWhere(conversations, id, (c: Conversation) => Updated(c, u, now));
    }

    /** Removes every conversation with that id; the active id is cleared
        exactly when it was that id. */
    method DeleteConversation(id: string)
      modifies this
      ensures forall i :: 0 <= i < |conversations| ==> conversations[i].id != id
      ensures forall c :: c in old(conversations) && c.id != id ==> c in conversations
      ensures forall c :: c in conversations ==> c in old(conversations)
      ensures Sequences.IsSubsequence(conversations, old(conversations))
      ensures forall c :: multiset(conversations)[c] == if c.id == id then 0 else multiset(old(conversations))[c]
      ensures activeConversationId == if old(activeConversationId) == Some(id) then None
                                      else old(activeConversationId)
      ensures isLoading == old(isLoading) && error == old(error)
    {
      Sequences.FilterMultiplicity(conversations, (c: Conversation) => c.id != id);
      conversations := Sequences.Filter(conversations, (c: Conversation) => c.id != id);
      if activeConversationId == Some(id) {
        activeConversationId := None;
      }
    }

    /** Appends the stamped message to every conversation with that id and
        stamps it with `now`; an unknown id leaves the list as it was. */
    method AddMessage(conversationId: string, draft: MessageDraft, freshId: string, now: string)
      modifies this
      ensures |conversations| == |old(conversations)|
      ensures forall i :: 0 <= i < |conversations| ==>
        conversations[i] == if old(conversations)[i].id == conversationId
                            then WithMessage(old(conversations)[i], StampMessage(draft, freshId, now), now)
                            else old(conversations)[i]
      ensures (forall c :: c in old(conversations) ==> c.id != conversationId) ==>
                conversations == old(conversations)
      ensures activeConversationId == old(activeConversationId)
      ensures isLoading == old(isLoading) && error == old(error)
    {
      var m := StampMessage(draft, freshId, now);
      conversations := MapWhere(conversations, conversationId, (c: Conversation) => WithMessage(c, m, now));
    }

    /** Merges `u` into the messages with that id in the conversations with
        that id; those conversations are stamped with `now` even when no
        message matched. */
    method UpdateMessage(conversationId: string, messageId: string, u: MessagePatch, now: string)
      modifies this
      ensures |conversations| == |old(conversations)|
      ensures forall i :: 0 <= i < |conversations| ==>
        conversations[i] == if old(conversations)[i].id == conversationId
                            then WithMessagePatched(old(conversations)[i], messageId, u, now)
                            else old(conversations)[i]
      ensures activeConversationId == old(activeConversationId)
      ensures isLoading == old(isLoading) && error == old(error)
    {
      conversations := MapWhere(conversations, conversationId,
                                (c: Conversation) => WithMessagePatched(c, messageId, u, now));
    }

    /** Removes the messages with that id from the conversations with that
        id, which are stamped with `now`. */
    method DeleteMessage(conversationId: string, messageId: string, now: string)
      modifies this
      ensures |conversations| == |old(conversations)|
      ensures forall i :: 0 <= i < |conversations| ==>
        conversations[i] == if old(conversations)[i].id == conversationId
                            then WithoutMessage(old(conversations)[i], messageId, now)
                            else old(conversations)[i]
      ensures activeConversationId == old(activeConversationId)
      ensures isLoading == old(isLoading) && error == old(error)
    {
      conversations := MapWhere(conversations, conversationId,
                                (c: Conversation) => WithoutMessage(c, messageId, now));
    }

    method SetLoading(loading: bool)
      modifies this
      ensures isLoading == loading && error == old(error)
      ensures Persisted() == old(Persisted())
    {
      isLoading := loading;
    }

    method SetError(e: Option<string>)
      modifies this
      ensures error == e && isLoading == old(isLoading)
      ensures Persisted() == old(Persisted())
    {
      error := e;
    }

    method ClearError()
      modifies this
      ensures error == None && isLoading == old(isLoading)
      ensures Persisted() == old(Persisted())
    {
      error := None;
    }

    /** Prepends a fresh conversation, makes it active and returns its id. */
    method CreateNewConversation(title: Option<string>, freshId: string, now: string) returns (id: string)
      modifies this
      ensures id == freshId
      ensures conversations == [NewConversation(freshId, title, now)] + old(conversations)
      ensures activeConversationId == Some(freshId)
      ensures isLoading == old(isLoading) && error == old(error)
    {
      id := freshId;
      var c := NewConversation(id, title, now);
      conversations := [c] + conversations;
      activeConversationId := Some(id);
    }

    /** The first conversation whose id is the active id, or none. */
    method GetActiveConversation() returns (r: Option<Conversation>)
      ensures r.Some? <==> activeConversationId.Some? &&
                           exists i :: 0 <= i < |conversations| && conversations[i].id == activeConversationId.value
      ensures r.Some? ==> exists i :: 0 <= i < |conversations| && conversations[i] == r.value
                                      && r.value.id == activeConversationId.value
                                      && forall j :: 0 <= j < i ==> conversations[j].id != activeConversationId.value
    {
      r := ActiveIn(conversations, activeConversationId);
    }
  }

  /** Creating a conversation and adding two messages to it gives the two
      messages in the order they were added, and the conversation is
      active. */
  method CreateThenReply(userText: string, replyText: string) returns (messages: seq<Message>, active: Option<Conversation>)
    ensures |messages| == 2
    ensures messages[0].role == User && messages[0].content == userText
    ensures messages[1].role == Assistant && messages[1].content == replyText
    ensures active.Some? && active.value.messages == messages
  {
    var store := new ChatStore();
    var id := store.CreateNewConversation(None, "c1", "t0");
    store.AddMessage(id, MessageDraft(id, User, userText, None), "m1", "t1");
    store.AddMessage(id, MessageDraft(id, Assistant, replyText, None), "m2", "t2");
    active := store.GetActiveConversation();
    assert store.conversations[0].id == id;
    messages := store.conversations[0].messages;
  }
}
