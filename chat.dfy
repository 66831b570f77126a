/** The chat page's conversation store (web/src/pages/Chat.tsx): a list of conversations,
    the active conversation, the draft, the typing indicator and the delete dialog.
    The 2-second timer of a send is modelled as a separate step, `Reply`, that receives
    what the timer's closure captured at send time. */
module Chat {
  import opened Options
  import opened Seqs
  import opened Text

  datatype Sender = User | Ai

  datatype Message = Message(id: string, text: string, sender: Sender)

  datatype Conversation = Conversation(id: string, title: string, messages: seq<Message>)

  /** What the timer callback of a send captured: the active id at send time and the user text. */
  datatype PendingReply = PendingReply(capturedActive: Option<string>, userText: string)

  /** A notification shown to the user. */
  datatype Toast = Toast(title: string, description: string)

  datatype KeyEvent = KeyEvent(key: string, shiftKey: bool, ctrlKey: bool, metaKey: bool)

  /** A snapshot of the page's state fields. */
  datatype ChatState = ChatState(
    conversations: seq<Conversation>,
    activeConversation: Option<string>,
    searchTerm: string,
    newMessage: string,
    isTyping: bool,
    deleteDialogOpen: bool,
    conversationToDelete: Option<string>)

  const TitleLimit: nat := 30
  const Ellipsis: string := "..."
  const FallbackTitle: string := "Conversation"
  const DeletedToastTitle: string := "Chat deleted"
  const ReplyPrefix: string := "I'm a demo AI assistant. This is a simulated response to your message: "

  const InitialState: ChatState := ChatState([], None, "", "", false, false, None)

  /** JavaScript truthiness of a `string | null` id: neither null nor the empty string. */
  predicate IsSet(id: Option<string>)
  {
    id.Some? && id.value != ""
  }

  predicate HasId(convs: seq<Conversation>, id: string)
  {
    exists i :: 0 <= i < |convs| && convs[i].id == id
  }

  /** The state invariant the page keeps: ids are non-empty (they are decimal timestamps) and
      the active id, when there is one, names a conversation in the list. */
  predicate Consistent(s: ChatState)
  {
    && (forall i :: 0 <= i < |s.conversations| ==> s.conversations[i].id != "")
    && (s.activeConversation.Some? ==> HasId(s.conversations, s.activeConversation.value))
  }

  // ---------------------------------------------------------------------------------------
  // Pure helpers

  /** The title of a new conversation: the first 30 characters of the (untrimmed) draft,
      followed by "..." when the draft was longer. */
  function Title(draft: string): (r: string)
    ensures |r| <= TitleLimit + |Ellipsis|
    ensures |draft| <= TitleLimit ==> r == draft
    ensures |draft| > TitleLimit ==> |r| == TitleLimit + |Ellipsis|
    ensures |draft| > TitleLimit ==> r[..TitleLimit] == draft[..TitleLimit] && r[TitleLimit..] == Ellipsis
  {
    draft[..if |draft| < TitleLimit then |draft| else TitleLimit] +
    (if |draft| > TitleLimit then Ellipsis else "")
  }

  function UserMessage(id: string, text: string): Message
  {
    Message(id, text, User)
  }

  function NewConversation(id: string, messageId: string, draft: string): Conversation
  {
    Conversation(id, Title(draft), [UserMessage(messageId, draft)])
  }

  /** The text of the simulated reply; it quotes the user's text. */
  function ReplyText(userText: string): string
  {
    ReplyPrefix + "\"" + userText + "\""
  }

  /** The simulated reply contains the user's text verbatim, in double quotes. */
  lemma ReplyQuotesUserText(userText: string)
    ensures Includes(ReplyText(userText), "\"" + userText + "\"")
    ensures ReplyText(userText)[|ReplyPrefix| + 1..|ReplyPrefix| + 1 + |userText|] == userText
  {
    var r := ReplyText(userText);
    assert OccursAt(r, "\"" + userText + "\"", |ReplyPrefix|) by {
      assert r == ReplyPrefix + ("\"" + userText + "\"");
    }
  }

  /** `prev.map(conv => conv.id === id ? { ...conv, messages: [...conv.messages, m] } : conv)`:
      every conversation with the id gets `m` at the end of its messages; nothing else changes. */
  function AppendToId(convs: seq<Conversation>, id: string, m: Message): (r: seq<Conversation>)
    ensures |r| == |convs|
    ensures forall i :: 0 <= i < |convs| ==> r[i].id == convs[i].id && r[i].title == convs[i].title
    ensures forall i :: 0 <= i < |convs| && convs[i].id == id ==> r[i].messages == convs[i].messages + [m]
    ensures forall i :: 0 <= i < |convs| && convs[i].id != id ==> r[i] == convs[i]
  {
    if convs == [] then []
    else
      var c := convs[0];
      [if c.id == id then c.(messages := c.messages + [m]) else c] + AppendToId(convs[1..], id, m)
  }

  /** `prev.map((conv, index) => index === 0 ? { ...conv, messages: [...conv.messages, m] } : conv)`. */
  function AppendAtFirst(convs: seq<Conversation>, m: Message): (r: seq<Conversation>)
    ensures |r| == |convs|
    ensures convs != [] ==> r[0].id == convs[0].id && r[0].title == convs[0].title
    ensures convs != [] ==> r[0].messages == convs[0].messages + [m]
    ensures forall i :: 0 < i < |convs| ==> r[i] == convs[i]
  {
    if convs == [] then [] else [convs[0].(messages := convs[0].messages + [m])] + convs[1..]
  }

  /** `convs.find(conv => conv.id === id)`. */
  function Find(convs: seq<Conversation>, id: string): (r: Option<Conversation>)
    ensures r.Some? ==> r.value in convs && r.value.id == id
    ensures r.None? <==> !HasId(convs, id)
  {
    if convs == [] then None
    else if convs[0].id == id then Some(convs[0])
    else
      var r := Find(convs[1..], id);
      assert HasId(convs, id) ==> HasId(convs[1..], id) by {
        if HasId(convs, id) {
          var i :| 0 <= i < |convs| && convs[i].id == id;
          assert convs[1..][i - 1].id == id;
        }
      }
      r
  }

  /** Position `k` holds the first conversation with the id. */
  predicate IsFirstWithId(convs: seq<Conversation>, id: string, k: int)
  {
    0 <= k < |convs| && convs[k].id == id && forall j :: 0 <= j < k ==> convs[j].id != id
  }

  /** `find` returns the first conversation with the id. */
  lemma {:induction false} FindReturnsFirst(convs: seq<Conversation>, id: string, k: nat)
    requires k < |convs| && convs[k].id == id
    requires forall j :: 0 <= j < k ==> convs[j].id != id
    ensures Find(convs, id) == Some(convs[k])
  {
    if k > 0 {
      FindReturnsFirst(convs[1..], id, k - 1);
    }
  }

  /** `currentConversation`: the active conversation, resolved by id on every render. */
  function Current(convs: seq<Conversation>, active: Option<string>): (r: Option<Conversation>)
    ensures active.None? ==> r.None?
    ensures r.Some? ==> r.value in convs && active == Some(r.value.id)
    ensures active.Some? ==> (r.Some? <==> HasId(convs, active.value))
  {
    match active
    case None => None
    case Some(a) => Find(convs, a)
  }

  /** `filteredConversations`: the conversations whose lower-cased title includes the
      lower-cased search term, in list order. */
  function FilteredConversations(convs: seq<Conversation>, term: string): (r: seq<Conversation>)
    ensures IsSubseq(r, convs)
    ensures forall c :: c in r <==> c in convs && Includes(Lower(c.title), Lower(term))
    ensures forall c :: multiset(r)[c] == if Includes(Lower(c.title), Lower(term)) then multiset(convs)[c] else 0
  {
    FilterIsSubseq((c: Conversation) => Includes(Lower(c.title), Lower(term)), convs);
    FilterMultiset((c: Conversation) => Includes(Lower(c.title), Lower(term)), convs);
    Filter((c: Conversation) => Includes(Lower(c.title), Lower(term)), convs)
  }

  /** An empty search term lists every conversation, in order. */
  lemma EmptyTermListsAll(convs: seq<Conversation>)
    ensures FilteredConversations(convs, "") == convs
  {
    var p := (c: Conversation) => Includes(Lower(c.title), Lower(""));
    forall i | 0 <= i < |convs| ensures p(convs[i]) {
      IncludesEmpty(Lower(convs[i].title));
    }
    FilterKeepsAll(p, convs);
  }

  /** A conversation titled "Hello World" is found by "hello", "WORLD" and "lo wo", not by "xyz". */
  lemma TitleSearchIsCaseInsensitive()
    ensures Includes(Lower("Hello World"), Lower("hello"))
    ensures Includes(Lower("Hello World"), Lower("WORLD"))
    ensures Includes(Lower("Hello World"), Lower("lo wo"))
    ensures !Includes(Lower("Hello World"), Lower("xyz"))
  {
    var t := Lower("Hello World");
    assert t == "hello world";
    assert Lower("hello") == "hello" && OccursAt(t, "hello", 0);
    assert Lower("WORLD") == "world" && OccursAt(t, "world", 6);
    assert Lower("lo wo") == "lo wo" && OccursAt(t, "lo wo", 3);
    assert Lower("xyz") == "xyz";
    forall i | 0 <= i <= |t| - 3 ensures !OccursAt(t, "xyz", i) {
      assert t[i] != 'x';
      assert "xyz"[0] == 'x';
    }
  }

  /** `conversations.filter(conv => conv.id !== id)`. */
  function RemoveId(convs: seq<Conversation>, id: string): (r: seq<Conversation>)
    ensures IsSubseq(r, convs)
    ensures forall c :: c in r <==> c in convs && c.id != id
    ensures forall c :: multiset(r)[c] == if c.id != id then multiset(convs)[c] else 0
    ensures !HasId(r, id)
  {
    FilterIsSubseq((c: Conversation) => c.id != id, convs);
    FilterMultiset((c: Conversation) => c.id != id, convs);
    var r := Filter((c: Conversation) => c.id != id, convs);
    assert forall i :: 0 <= i < |r| ==> r[i] in r;
    r
  }

  /** The title named in the deletion notice:
      `conversations.find(conv => conv.id === id)?.title || 'Conversation'`. */
  function DeletedTitle(convs: seq<Conversation>, id: string): (t: string)
    ensures t != ""
    ensures !HasId(convs, id) ==> t == FallbackTitle
    ensures forall k :: IsFirstWithId(convs, id, k) ==>
      t == if convs[k].title != "" then convs[k].title else FallbackTitle
    ensures t != FallbackTitle ==> exists c :: c in convs && c.id == id && c.title == t
  {
    assert forall k :: IsFirstWithId(convs, id, k) ==> Find(convs, id) == Some(convs[k]) by {
      forall k | IsFirstWithId(convs, id, k) ensures Find(convs, id) == Some(convs[k]) {
        FindReturnsFirst(convs, id, k);
      }
    }
    match Find(convs, id)
    case Some(c) => if c.title != "" then c.title else FallbackTitle
    case None => FallbackTitle
  }

  /** The notification shown after a deletion. */
  function DeletedToast(title: string): Toast
  {
    Toast(DeletedToastTitle, "\"" + title + "\" has been deleted successfully.")
  }

  /** How many times `handleKeyPress` calls `handleSendMessage`: its two `if`s in turn. */
  function SendsOnKeyPress(e: KeyEvent): (n: nat)
    ensures n <= 1
    ensures n == 1 <==> e.key == "Enter" && (!e.shiftKey || e.ctrlKey || e.metaKey)
  {
    (if e.key == "Enter" && !e.shiftKey && !(e.metaKey || e.ctrlKey) then 1 else 0) +
    (if (e.metaKey || e.ctrlKey) && e.key == "Enter" then 1 else 0)
  }

  // ---------------------------------------------------------------------------------------
  // Message grouping in the message list

  /** `showAvatar`: the message starts a run of messages from the same sender. */
  predicate ShowAvatar(msgs: seq<Message>, i: nat)
    requires i < |msgs|
  {
    i == 0 || msgs[i - 1].sender != msgs[i].sender
  }

  /** `isLastInGroup`: the message ends a run of messages from the same sender. */
  predicate IsLastInGroup(msgs: seq<Message>, i: nat)
    requires i < |msgs|
  {
    i == |msgs| - 1 || msgs[i + 1].sender != msgs[i].sender
  }

  /** Number of messages among the first `k` that show an avatar. */
  function CountAvatars(msgs: seq<Message>, k: nat): nat
    requires k <= |msgs|
  {
    if k == 0 then 0 else CountAvatars(msgs, k - 1) + (if ShowAvatar(msgs, k - 1) then 1 else 0)
  }

  /** Number of messages among the first `k` that end a group. */
  function CountGroupEnds(msgs: seq<Message>, k: nat): nat
    requires k <= |msgs|
  {
    if k == 0 then 0 else CountGroupEnds(msgs, k - 1) + (if IsLastInGroup(msgs, k - 1) then 1 else 0)
  }

  /** A message ends its group exactly when the next one starts a new group. */
  lemma GroupEndPrecedesGroupStart(msgs: seq<Message>, i: nat)
    requires i + 1 < |msgs|
    ensures IsLastInGroup(msgs, i) <==> ShowAvatar(msgs, i + 1)
  {
  }

  lemma {:induction false} AvatarsLeadGroupEnds(msgs: seq<Message>, k: nat)
    requires k < |msgs|
    ensures CountAvatars(msgs, k + 1) == CountGroupEnds(msgs, k) + 1
  {
    if k > 0 {
      AvatarsLeadGroupEnds(msgs, k - 1);
    }
  }

  /** Every group has exactly one avatar and exactly one last message: the two counts agree. */
  lemma AvatarsMatchGroupEnds(msgs: seq<Message>)
    ensures CountAvatars(msgs, |msgs|) == CountGroupEnds(msgs, |msgs|)
  {
    if msgs != [] {
      AvatarsLeadGroupEnds(msgs, |msgs| - 1);
    }
  }

  // ---------------------------------------------------------------------------------------
  // State transitions, as functions of the state before them

  /** `handleSendMessage`: the new state, and the reply the timer will deliver (None when
      nothing was sent). The message and a new conversation take their ids from two readings
      of the clock, `messageId` and `conversationId`. */
  function AfterSend(s: ChatState, messageId: string, conversationId: string): (ChatState, Option<PendingReply>)
  {
    if Trim(s.newMessage) == "" then (s, None)
    else
      var m := UserMessage(messageId, s.newMessage);
      var s1 :=
        if IsSet(s.activeConversation) then
          s.(conversations := AppendToId(s.conversations, s.activeConversation.value, m))
        else
          s.(conversations := [NewConversation(conversationId, messageId, s.newMessage)] + s.conversations,
             activeConversation := Some(conversationId));
      (s1.(newMessage := "", isTyping := true), Some(PendingReply(s.activeConversation, s.newMessage)))
  }

  /** The timer callback: clear the typing flag and append the reply to the conversation whose
      id was active at send time, or, when none was, to the first conversation of the list. */
  function AfterReply(s: ChatState, p: PendingReply, replyId: string): ChatState
  {
    var m := Message(replyId, ReplyText(p.userText), Ai);
    s.(isTyping := false,
       conversations :=
         if IsSet(p.capturedActive) then AppendToId(s.conversations, p.capturedActive.value, m)
         else AppendAtFirst(s.conversations, m))
  }

  /** `confirmDelete`: the new state and the notification, if one is shown. */
  function AfterConfirmDelete(s: ChatState): (ChatState, Option<Toast>)
  {
    var closed := s.(deleteDialogOpen := false, conversationToDelete := None);
    if IsSet(s.conversationToDelete) then
      var id := s.conversationToDelete.value;
      (closed.(conversations := RemoveId(s.conversations, id),
               activeConversation :=
                 if s.activeConversation == s.conversationToDelete then None else s.activeConversation),
       Some(DeletedToast(DeletedTitle(s.conversations, id))))
    else
      (closed, None)
  }

  /** `cancelDelete`. */
  function AfterCancelDelete(s: ChatState): ChatState
  {
    s.(deleteDialogOpen := false, conversationToDelete := None)
  }

  // ---------------------------------------------------------------------------------------
  // Properties of the transitions

  /** Sending an empty or whitespace-only draft changes nothing and schedules no reply. */
  lemma SendBlankIsNoOp(s: ChatState, messageId: string, conversationId: string)
    requires IsBlank(s.newMessage)
    ensures AfterSend(s, messageId, conversationId) == (s, None)
  {
    TrimEmptyIffBlank(s.newMessage);
  }

  /** A send clears the draft, raises the typing flag and schedules one reply carrying the
      user text and the id that was active at send time; the search and the dialog are untouched. */
  lemma SendSchedulesReply(s: ChatState, messageId: string, conversationId: string)
    requires !IsBlank(s.newMessage)
    ensures var (s', p) := AfterSend(s, messageId, conversationId);
      && s'.newMessage == "" && s'.isTyping
      && p == Some(PendingReply(s.activeConversation, s.newMessage))
      && s'.searchTerm == s.searchTerm
      && s'.deleteDialogOpen == s.deleteDialogOpen && s'.conversationToDelete == s.conversationToDelete
  {
    TrimEmptyIffBlank(s.newMessage);
  }

  /** With no active conversation a send puts one new conversation at the front, holding exactly
      the user's message and titled from the draft, keeps the rest of the list, and makes the new
      conversation active. */
  lemma SendWithoutActiveCreatesConversation(s: ChatState, messageId: string, conversationId: string)
    requires !IsBlank(s.newMessage) && !IsSet(s.activeConversation)
    ensures var s' := AfterSend(s, messageId, conversationId).0;
      && |s'.conversations| == |s.conversations| + 1
      && s'.conversations[1..] == s.conversations
      && s'.conversations[0].id == conversationId
      && s'.conversations[0].title == Title(s.newMessage)
      && s'.conversations[0].messages == [Message(messageId, s.newMessage, User)]
      && s'.activeConversation == Some(conversationId)
  {
    TrimEmptyIffBlank(s.newMessage);
    var s' := AfterSend(s, messageId, conversationId).0;
    assert s'.conversations == [NewConversation(conversationId, messageId, s.newMessage)] + s.conversations;
  }

  /** With an active conversation a send keeps the list's length, order, ids and titles; the
      conversations with the active id get the message at the end; all others are unchanged. */
  lemma SendToActiveAppends(s: ChatState, messageId: string, conversationId: string)
    requires !IsBlank(s.newMessage) && IsSet(s.activeConversation)
    ensures var s' := AfterSend(s, messageId, conversationId).0;
      && |s'.conversations| == |s.conversations|
      && s'.activeConversation == s.activeConversation
      && (forall i :: 0 <= i < |s.conversations| ==>
            s'.conversations[i].id == s.conversations[i].id &&
            s'.conversations[i].title == s.conversations[i].title)
      && (forall i :: 0 <= i < |s.conversations| && Some(s.conversations[i].id) == s.activeConversation ==>
            s'.conversations[i].messages == s.conversations[i].messages + [Message(messageId, s.newMessage, User)])
      && (forall i :: 0 <= i < |s.conversations| && Some(s.conversations[i].id) != s.activeConversation ==>
            s'.conversations[i] == s.conversations[i])
  {
    TrimEmptyIffBlank(s.newMessage);
  }

  /** The reply step clears the typing flag, keeps the active id, the draft and the list's
      length, and appends exactly one assistant message, quoting the user's text: to the
      conversations with the captured id, or to the first one when no id was captured. */
  lemma ReplyAppendsOneAssistantMessage(s: ChatState, p: PendingReply, replyId: string)
    ensures var s' := AfterReply(s, p, replyId);
      var m := Message(replyId, ReplyText(p.userText), Ai);
      && !s'.isTyping
      && s'.activeConversation == s.activeConversation && s'.newMessage == s.newMessage
      && |s'.conversations| == |s.conversations|
      && Includes(m.text, "\"" + p.userText + "\"")
      && (forall i :: 0 <= i < |s.conversations| ==>
            s'.conversations[i].id == s.conversations[i].id &&
            s'.conversations[i].title == s.conversations[i].title)
      && (forall i :: 0 <= i < |s.conversations| ==>
            s'.conversations[i].messages ==
              if (if IsSet(p.capturedActive) then Some(s.conversations[i].id) == p.capturedActive else i == 0)
              then s.conversations[i].messages + [m]
              else s.conversations[i].messages)
  {
    ReplyQuotesUserText(p.userText);
  }

  /** The reply of a send made with no active conversation goes to whatever conversation is
      first when the timer fires: when the user starts another chat and sends again before it
      fires, the reply lands in that newer conversation and the first one gets none. */
  lemma ReplyFollowsListHead(s: ChatState, second: string, ma: string, ca: string, mb: string, cb: string,
                              replyId: string)
    requires !IsSet(s.activeConversation) && !IsBlank(s.newMessage) && !IsBlank(second)
    ensures
      var s1 := AfterSend(s, ma, ca).0;
      var pending := PendingReply(s.activeConversation, s.newMessage);
      var s2 := AfterSend(s1.(activeConversation := None, newMessage := second), mb, cb).0;
      var s3 := AfterReply(s2, pending, replyId);
      && AfterSend(s, ma, ca).1 == Some(pending)
      && |s3.conversations| == |s.conversations| + 2
      && s3.conversations[0].id == cb
      && s3.conversations[0].messages == [UserMessage(mb, second), Message(replyId, ReplyText(s.newMessage), Ai)]
      && s3.conversations[1] == s1.conversations[0]
      && s3.conversations[1].messages == [UserMessage(ma, s.newMessage)]
  {
    SendWithoutActiveCreatesConversation(s, ma, ca);
    SendSchedulesReply(s, ma, ca);
    var s1 := AfterSend(s, ma, ca).0;
    var s1' := s1.(activeConversation := None, newMessage := second);
    SendWithoutActiveCreatesConversation(s1', mb, cb);
    var s2 := AfterSend(s1', mb, cb).0;
    assert s2.conversations[1..] == s1.conversations;
  }

  /** Confirming a pending deletion removes every conversation with that id and keeps the others
      in order, clears the active id exactly when it was the deleted one, names the deleted
      conversation (or "Conversation") in the notice, and closes the dialog. */
  lemma ConfirmDeleteRemoves(s: ChatState)
    requires IsSet(s.conversationToDelete)
    ensures var (s', toast) := AfterConfirmDelete(s);
      var id := s.conversationToDelete.value;
      && IsSubseq(s'.conversations, s.conversations)
      && (forall c :: c in s'.conversations <==> c in s.conversations && c.id != id)
      && (forall c :: multiset(s'.conversations)[c] == if c.id != id then multiset(s.conversations)[c] else 0)
      && !HasId(FilteredConversations(s'.conversations, ""), id)
      && (s'.activeConversation == None <==> (s.activeConversation == None || s.activeConversation == Some(id)))
      && (s'.activeConversation != None ==> s'.activeConversation == s.activeConversation)
      && toast == Some(DeletedToast(DeletedTitle(s.conversations, id)))
      && !s'.deleteDialogOpen && s'.conversationToDelete == None
      && s'.newMessage == s.newMessage && s'.isTyping == s.isTyping
  {
    EmptyTermListsAll(AfterConfirmDelete(s).0.conversations);
  }

  /** Confirming with no pending id only closes the dialog. */
  lemma ConfirmWithoutPendingOnlyCloses(s: ChatState)
    requires !IsSet(s.conversationToDelete)
    ensures AfterConfirmDelete(s) == (AfterCancelDelete(s), None)
  {
  }

  /** Cancelling closes the dialog and forgets the pending id; nothing else changes. */
  lemma CancelDeleteKeepsStore(s: ChatState)
    ensures var s' := AfterCancelDelete(s);
      && !s'.deleteDialogOpen && s'.conversationToDelete == None
      && s'.conversations == s.conversations && s'.activeConversation == s.activeConversation
      && s'.newMessage == s.newMessage && s'.isTyping == s.isTyping && s'.searchTerm == s.searchTerm
  {
  }

  /** A send keeps the invariant: a new conversation gets the (non-empty) conversation id and
      becomes active; an append keeps every id. */
  lemma SendKeepsConsistent(s: ChatState, messageId: string, conversationId: string)
    requires Consistent(s) && conversationId != ""
    ensures Consistent(AfterSend(s, messageId, conversationId).0)
  {
    var s' := AfterSend(s, messageId, conversationId).0;
    if Trim(s.newMessage) != "" {
      if IsSet(s.activeConversation) {
        var i :| 0 <= i < |s.conversations| && s.conversations[i].id == s.activeConversation.value;
        assert s'.conversations[i].id == s.activeConversation.value;
      } else {
        assert s'.conversations[0].id == conversationId;
      }
    }
  }

  /** The reply step keeps the invariant: it changes no id. */
  lemma ReplyKeepsConsistent(s: ChatState, p: PendingReply, replyId: string)
    requires Consistent(s)
    ensures Consistent(AfterReply(s, p, replyId))
  {
    var s' := AfterReply(s, p, replyId);
    if s.activeConversation.Some? {
      var i :| 0 <= i < |s.conversations| && s.conversations[i].id == s.activeConversation.value;
      assert s'.conversations[i].id == s.activeConversation.value;
    }
  }

  /** A deletion keeps the invariant: the active id is cleared by the same step when its
      conversation goes, and otherwise still resolves. */
  lemma ConfirmDeleteKeepsConsistent(s: ChatState)
    requires Consistent(s)
    ensures Consistent(AfterConfirmDelete(s).0)
  {
    var s' := AfterConfirmDelete(s).0;
    forall i | 0 <= i < |s'.conversations| ensures s'.conversations[i].id != "" {
      assert s'.conversations[i] in s.conversations;
    }
    if s'.activeConversation.Some? && IsSet(s.conversationToDelete) {
      var i :| 0 <= i < |s.conversations| && s.conversations[i].id == s.activeConversation.value;
      assert s.conversations[i] in s'.conversations;
    }
  }

  // ---------------------------------------------------------------------------------------
  // The page component

  class ChatPage {
    var conversations: seq<Conversation>
    var activeConversation: Option<string>
    var searchTerm: string
    var newMessage: string
    var isTyping: bool
    var deleteDialogOpen: bool
    var conversationToDelete: Option<string>

    function State(): ChatState
      reads this
    {
      ChatState(conversations, activeConversation, searchTerm, newMessage, isTyping,
                deleteDialogOpen, conversationToDelete)
    }

    predicate Valid()
      reads this
    {
      Consistent(State())
    }

    /** The initial `useState` values. */
    constructor ()
      ensures Valid() && State() == InitialState
    {
      conversations, activeConversation := [], None;
      searchTerm, newMessage := "", "";
      isTyping, deleteDialogOpen, conversationToDelete := false, false, None;
    }

    /** The conversations listed in the sidebar. */
    function Shown(): (r: seq<Conversation>)
      reads this
      ensures IsSubseq(r, conversations)
      ensures forall c :: c in r <==> c in conversations && Includes(Lower(c.title), Lower(searchTerm))
      ensures forall c ::
        multiset(r)[c] == if Includes(Lower(c.title), Lower(searchTerm)) then multiset(conversations)[c] else 0
    {
      FilteredConversations(conversations, searchTerm)
    }

    /** The textarea's `onChange`. */
    method SetDraft(text: string)
      modifies this
      ensures State() == old(State()).(newMessage := text)
    {
      newMessage := text;
    }

    /** The search box's `onChange`. */
    method SetSearchTerm(term: string)
      modifies this
      ensures State() == old(State()).(searchTerm := term)
    {
      searchTerm := term;
    }

    /** "New Chat": back to the composer with no active conversation. */
    method StartNewChat()
      requires Valid()
      modifies this
      ensures Valid() && State() == old(State()).(activeConversation := None)
    {
      activeConversation := None;
    }

    /** A click on the k-th conversation listed in the sidebar. */
    method SelectShown(k: nat)
      requires Valid() && k < |Shown()|
      modifies this
      ensures Valid() && State() == old(State()).(activeConversation := Some(old(Shown())[k].id))
    {
      var c := Shown()[k];
      assert c in conversations;
      activeConversation := Some(c.id);
    }

    /** `handleDeleteClick`: remember the id and open the confirmation dialog. */
    method RequestDelete(id: string)
      requires Valid()
      modifies this
      ensures Valid()
      ensures State() == old(State()).(conversationToDelete := Some(id), deleteDialogOpen := true)
    {
      conversationToDelete := Some(id);
      deleteDialogOpen := true;
    }

    /** `handleSendMessage`; `messageId` and `conversationId` stand for the two
        `Date.now().toString()` readings. */
    method Send(messageId: string, conversationId: string) returns (pending: Option<PendingReply>)
      requires Valid() && conversationId != ""
      modifies this
      ensures Valid()
      ensures (State(), pending) == AfterSend(old(State()), messageId, conversationId)
    {
      SendKeepsConsistent(State(), messageId, conversationId);
      if Trim(newMessage) == "" {
        return None;
      }
      var captured := activeConversation;
      var message := UserMessage(messageId, newMessage);
      if IsSet(activeConversation) {
        conversations := AppendToId(conversations, activeConversation.value, message);
      } else {
        conversations := [NewConversation(conversationId, messageId, newMessage)] + conversations;
        activeConversation := Some(conversationId);
      }
      pending := Some(PendingReply(captured, message.text));
      newMessage := "";
      isTyping := true;
    }

    /** The body of the send's `setTimeout`, run when the timer fires. */
    method Reply(p: PendingReply, replyId: string)
      requires Valid()
      modifies this
      ensures Valid()
      ensures State() == AfterReply(old(State()), p, replyId)
    {
      ReplyKeepsConsistent(State(), p, replyId);
      isTyping := false;
      var aiMessage := Message(replyId, ReplyText(p.userText), Ai);
      if IsSet(p.capturedActive) {
        conversations := AppendToId(conversations, p.capturedActive.value, aiMessage);
      } else {
        conversations := AppendAtFirst(conversations, aiMessage);
      }
    }

    /** `handleKeyPress`: each of its two conditions triggers a send. */
    method HandleKeyPress(e: KeyEvent, messageId: string, conversationId: string)
      returns (pending: Option<PendingReply>)
      requires Valid() && conversationId != ""
      modifies this
      ensures Valid()
      ensures SendsOnKeyPress(e) == 0 ==> State() == old(State()) && pending == None
      ensures SendsOnKeyPress(e) == 1 ==> (State(), pending) == AfterSend(old(State()), messageId, conversationId)
    {
      pending := None;
      if e.key == "Enter" && !e.shiftKey && !(e.metaKey || e.ctrlKey) {
        pending := Send(messageId, conversationId);
      }
      if (e.metaKey || e.ctrlKey) && e.key == "Enter" {
        pending := Send(messageId, conversationId);
      }
    }

    /** `confirmDelete`; returns the notification it shows, if any. */
    method ConfirmDelete() returns (toast: Option<Toast>)
      requires Valid()
      modifies this
      ensures Valid()
      ensures (State(), toast) == AfterConfirmDelete(old(State()))
    {
      ConfirmDeleteKeepsConsistent(State());
      toast := None;
      if IsSet(conversationToDelete) {
        var id := conversationToDelete.value;
        var conversationTitle := DeletedTitle(conversations, id);
        conversations := RemoveId(conversations, id);
        if activeConversation == conversationToDelete {
          activeConversation := None;
        }
        toast := Some(DeletedToast(conversationTitle));
      }
      deleteDialogOpen := false;
      conversationToDelete := None;
    }

    /** `cancelDelete`. */
    method CancelDelete()
      requires Valid()
      modifies this
      ensures Valid()
      ensures State() == AfterCancelDelete(old(State()))
    {
      deleteDialogOpen := false;
      conversationToDelete := None;
    }
  }

  /** A first message with no active conversation: a new conversation titled with the whole
      (short) text, holding one message; after the timer, two, the second from the assistant. */
  method PlanTripScenario()
  {
    var page := new ChatPage();
    page.SetDraft("Plan my trip to Japan");
    assert !IsBlank(page.newMessage) by { assert !IsWhitespace(page.newMessage[0]); }
    SendWithoutActiveCreatesConversation(page.State(), "1700000000000", "1700000000001");
    SendSchedulesReply(page.State(), "1700000000000", "1700000000001");
    var pending := page.Send("1700000000000", "1700000000001");
    assert page.conversations[0].title == "Plan my trip to Japan";
    assert |page.conversations| == 1 && |page.conversations[0].messages| == 1;
    page.Reply(pending.value, "1700000002001");
    assert |page.conversations[0].messages| == 2;
    assert page.conversations[0].messages[1].sender == Ai;
  }
}
