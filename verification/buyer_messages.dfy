/** The farmer's inbox: the conversation search, marking a conversation
    read, selecting one, sending a reply and deleting a conversation. The
    active conversation is a separate copy of a list entry, as in the page
    state. */
module BuyerMessages {
  import opened Wrappers
  import Text
  import Seqs

  datatype Message = Message(
    id: string,
    senderId: string,
    senderName: string,
    content: string,
    timestamp: int,
    isRead: bool,
    isSentByMe: bool)

  datatype Customer = Customer(id: string, name: string, email: string)

  datatype Conversation = Conversation(
    id: string,
    customer: Customer,
    messages: seq<Message>,
    lastMessage: Message,
    unreadCount: int)

  /** The search: customer name or e-mail. */
  predicate MatchesSearch(c: Conversation, term: string)
  {
    Text.IncludesIgnoreCase(c.customer.name, term) || Text.IncludesIgnoreCase(c.customer.email, term)
  }

  /** `filteredConversations`: listed iff the search matches, in list order;
      an empty search lists every conversation. */
  function FilteredConversations(cs: seq<Conversation>, term: string): (r: seq<Conversation>)
    ensures forall c :: c in r <==> c in cs && MatchesSearch(c, term)
    ensures Seqs.IsSubsequence(r, cs)
    ensures term == "" ==> r == cs
  {
    Text.EmptyNeedleMatches();
    Seqs.FilterIsSubsequence(cs, (c: Conversation) => MatchesSearch(c, term));
    Seqs.Filter(cs, (c: Conversation) => MatchesSearch(c, term))
  }

  /** One conversation with its counter cleared and every message read. */
  function AllRead(c: Conversation): (r: Conversation)
    ensures r.id == c.id && r.customer == c.customer && r.lastMessage == c.lastMessage
    ensures r.unreadCount == 0
    ensures |r.messages| == |c.messages|
    ensures forall i :: 0 <= i < |c.messages| ==> r.messages[i] == c.messages[i].(isRead := true)
  {
    c.(unreadCount := 0,
       messages := Seqs.UpdateWhere(c.messages, (m: Message) => true, (m: Message) => m.(isRead := true)))
  }

  /** The `map` of `markAsRead(id)`: only the conversations with that id are
      marked read; the others, the length and the order are kept. */
  function MarkedRead(cs: seq<Conversation>, id: string): (r: seq<Conversation>)
    ensures |r| == |cs|
    ensures forall i :: 0 <= i < |cs| && cs[i].id == id ==> r[i] == AllRead(cs[i])
    ensures forall i :: 0 <= i < |cs| && cs[i].id != id ==> r[i] == cs[i]
  {
    Seqs.UpdateWhere(cs, (c: Conversation) => c.id == id, AllRead)
  }

  /** Marking read twice is marking read once. */
  lemma MarkedReadIdempotent(cs: seq<Conversation>, id: string)
    ensures MarkedRead(MarkedRead(cs, id), id) == MarkedRead(cs, id)
  {
    forall i | 0 <= i < |cs| && cs[i].id == id
      ensures AllRead(AllRead(cs[i])) == AllRead(cs[i])
    {
      assert AllRead(AllRead(cs[i])).messages == AllRead(cs[i]).messages;
    }
  }

  /** The message `handleSendMessage` builds: sent by the farm, already read. */
  function ReplyMessage(content: string, now: nat): (m: Message)
    ensures m.isSentByMe && m.isRead && m.content == content && m.timestamp == now
  {
    Message("msg-" + Text.Decimal(now), "farm1", "Green Valley Farm", content, now, true, true)
  }

  /** One conversation with `m` appended and made its last message. */
  function WithMessage(c: Conversation, m: Message): (r: Conversation)
    ensures r.id == c.id && r.customer == c.customer && r.unreadCount == c.unreadCount
    ensures r.messages == c.messages + [m] && r.lastMessage == m
  {
    c.(messages := c.messages + [m], lastMessage := m)
  }

  /** The `map` of `handleSendMessage`: the conversations with the active id get
      the message at the end; every other conversation is unchanged. */
  function Delivered(cs: seq<Conversation>, id: string, m: Message): (r: seq<Conversation>)
    ensures |r| == |cs|
    ensures forall i :: 0 <= i < |cs| && cs[i].id == id ==> r[i] == WithMessage(cs[i], m)
    ensures forall i :: 0 <= i < |cs| && cs[i].id != id ==> r[i] == cs[i]
  {
    Seqs.UpdateWhere(cs, (c: Conversation) => c.id == id, (c: Conversation) => WithMessage(c, m))
  }

  /** The filter of `handleDeleteConversation`. */
  function WithoutConversation(cs: seq<Conversation>, id: string): (r: seq<Conversation>)
    ensures forall c :: c in r <==> c in cs && c.id != id
    ensures Seqs.IsSubsequence(r, cs)
    ensures |r| == |cs| - Seqs.Count(cs, (c: Conversation) => c.id == id)
  {
    Seqs.FilterOutLength(cs, (c: Conversation) => c.id == id, (c: Conversation) => c.id != id);
    Seqs.FilterIsSubsequence(cs, (c: Conversation) => c.id != id);
    Seqs.Filter(cs, (c: Conversation) => c.id != id)
  }

  /** The active conversation after deleting `id`: the first remaining one (or
      none) when the active one was deleted, otherwise unchanged. */
  function NextActive(remaining: seq<Conversation>, active: Option<Conversation>, id: string): (r: Option<Conversation>)
    ensures active.Some? && active.value.id == id ==>
              r == (if remaining != [] then Some(remaining[0]) else None)
    ensures !(active.Some? && active.value.id == id) ==> r == active
  {
    if active.Some? && active.value.id == id then
      if |remaining| > 0 then Some(remaining[0]) else None
    else active
  }

  /** Ids of a conversation list. */
  predicate Listed(cs: seq<Conversation>, id: string)
  {
    exists i :: 0 <= i < |cs| && cs[i].id == id
  }

  /** After a delete the active conversation, if any, is still in the list: a
      deleted active conversation is replaced by a listed one, a kept one was
      listed before and is not removed. */
  lemma DeleteKeepsActiveListed(cs: seq<Conversation>, active: Option<Conversation>, id: string)
    requires active.Some? ==> Listed(cs, active.value.id)
    ensures var remaining := WithoutConversation(cs, id);
            var next := NextActive(remaining, active, id);
            next.Some? ==> Listed(remaining, next.value.id)
  {
    var remaining := WithoutConversation(cs, id);
    var next := NextActive(remaining, active, id);
    if next.Some? {
      if active.Some? && active.value.id == id {
        assert remaining[0].id == next.value.id;
      } else {
        ghost var i :| 0 <= i < |cs| && cs[i].id == active.value.id;
        assert cs[i] in remaining;
        var j :| 0 <= j < |remaining| && remaining[j] == cs[i];
      }
    }
  }

  /** The page state. */
  class Inbox {
    var conversations: seq<Conversation>
    var searchTerm: string
    var activeConversation: Option<Conversation>
    var newMessage: string

    /** The active conversation, when there is one, is a conversation of the list. */
    predicate ActiveListed()
      reads this
    {
      activeConversation.Some? ==> Listed(conversations, activeConversation.value.id)
    }

    /** The first conversation starts active. */
    constructor (initial: seq<Conversation>)
      ensures conversations == initial && searchTerm == "" && newMessage == ""
      ensures activeConversation == if initial != [] then Some(initial[0]) else None
      ensures ActiveListed()
    {
      conversations := initial;
      searchTerm := "";
      newMessage := "";
      activeConversation := if initial != [] then Some(initial[0]) else None;
    }

    /** The conversation list under the search box. */
    function Visible(): seq<Conversation>
      reads this
    {
      FilteredConversations(conversations, searchTerm)
    }

    method MarkAsRead(id: string)
      requires ActiveListed()
      modifies this
      ensures conversations == MarkedRead(old(conversations), id)
      ensures activeConversation == old(activeConversation)
      ensures searchTerm == old(searchTerm) && newMessage == old(newMessage)
      ensures ActiveListed()
    {
      conversations := MarkedRead(conversations, id);
      if activeConversation.Some? {
        ghost var i :| 0 <= i < |old(conversations)| && old(conversations)[i].id == activeConversation.value.id;
        assert conversations[i].id == activeConversation.value.id;
      }
    }

    /** `handleSelectConversation(c)`: the clicked entry becomes the active copy
        (as it was before marking), then its list entry is marked read. */
    method SelectConversation(c: Conversation)
      requires ActiveListed()
      requires c in conversations
      modifies this
      ensures activeConversation == Some(c)
      ensures conversations == MarkedRead(old(conversations), c.id)
      ensures searchTerm == old(searchTerm) && newMessage == old(newMessage)
      ensures ActiveListed()
    {
      activeConversation := Some(c);
      ghost var i :| 0 <= i < |conversations| && conversations[i] == c;
      MarkAsRead(c.id);
    }

    /** `handleSendMessage()`: a blank draft or no active conversation changes
        nothing; otherwise the reply is appended to the active conversation in
        the list and in the active copy, and the draft is cleared. */
    method SendMessage(now: nat)
      requires ActiveListed()
      modifies this
      ensures Text.IsBlank(old(newMessage)) || old(activeConversation).None? ==>
                conversations == old(conversations) && activeConversation == old(activeConversation)
                && newMessage == old(newMessage)
      ensures !Text.IsBlank(old(newMessage)) && old(activeConversation).Some? ==>
                var m := ReplyMessage(old(newMessage), now);
                && conversations == Delivered(old(conversations), old(activeConversation).value.id, m)
                && activeConversation == Some(WithMessage(old(activeConversation).value, m))
                && newMessage == ""
      ensures searchTerm == old(searchTerm)
      ensures ActiveListed()
    {
      if Text.IsBlank(newMessage) || activeConversation.None? {
        return;
      }
      var active := activeConversation.value;
      var m := ReplyMessage(newMessage, now);
      ghost var i :| 0 <= i < |conversations| && conversations[i].id == active.id;
      conversations := Delivered(conversations, active.id, m);
      assert conversations[i].id == active.id;
      activeConversation := Some(WithMessage(active, m));
      newMessage := "";
    }

    /** `handleDeleteConversation(id)`. */
    method DeleteConversation(id: string)
      requires ActiveListed()
      modifies this
      ensures conversations == WithoutConversation(old(conversations), id)
      ensures activeConversation == NextActive(conversations, old(activeConversation), id)
      ensures searchTerm == old(searchTerm) && newMessage == old(newMessage)
      ensures ActiveListed()
    {
      DeleteKeepsActiveListed(conversations, activeConversation, id);
      var remaining := WithoutConversation(conversations, id);
      conversations := remaining;
      activeConversation := NextActive(remaining, activeConversation, id);
    }

    /** The draft textarea's `onChange`. */
    method SetDraft(text: string)
      modifies this
      ensures newMessage == text
      ensures conversations == old(conversations) && activeConversation == old(activeConversation)
      ensures searchTerm == old(searchTerm)
    {
      newMessage := text;
    }

    /** The search box's `onChange`: only the term changes, and the list shows
        the conversations that match it. */
    method SetSearchTerm(term: string)
      requires ActiveListed()
      modifies this
      ensures searchTerm == term
      ensures conversations == old(conversations) && activeConversation == old(activeConversation)
      ensures newMessage == old(newMessage)
      ensures Visible() == FilteredConversations(old(conversations), term)
      ensures ActiveListed()
    {
      searchTerm := term;
    }
  }

  /** A send appends exactly one message to the active conversation and changes
      no unread counter anywhere. */
  lemma SendChangesOneConversation(cs: seq<Conversation>, id: string, content: string, now: nat, k: nat)
    requires k < |cs|
    ensures var r := Delivered(cs, id, ReplyMessage(content, now));
            && |r[k].messages| == |cs[k].messages| + (if cs[k].id == id then 1 else 0)
            && r[k].unreadCount == cs[k].unreadCount
            && r[k].messages[..|cs[k].messages|] == cs[k].messages
  {
  }
}
