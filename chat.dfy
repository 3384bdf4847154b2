/** The floating chat (src/components/portal/ChatWidget.tsx): one message
    list per conversation, the general channel or a direct chat with a
    team member, keyed by the conversation's property name. */
module Chat {
  import opened Wrappers
  import opened Text
  import opened Data
  import Seqs

  datatype ChatMessage = ChatMessage(id: int, sender: string, text: string, time: string)

  /** `activeChat`: the general channel or a member's uid. */
  datatype Conversation = General | Direct(uid: int)

  /** The property name of a conversation: numbers become their decimal
      text, as JavaScript does with object keys. */
  function KeyOf(c: Conversation): string
  {
    match c
    case General => "general"
    case Direct(uid) => IntToString(uid)
  }

  /** Different conversations use different keys. */
  lemma KeysDistinct(a: Conversation, b: Conversation)
    requires a != b
    ensures KeyOf(a) != KeyOf(b)
  {
    if a.Direct? && b.Direct? {
      ParseIntOfDecimal(a.uid);
      ParseIntOfDecimal(b.uid);
    } else if a.Direct? {
      assert KeyOf(a)[0] != 'g';
    } else if b.Direct? {
      assert KeyOf(b)[0] != 'g';
    }
  }

  type Messages = map<string, seq<ChatMessage>>

  /** The history a first visit starts with. */
  const DefaultMessages: Messages := map[
    "general" := [
      ChatMessage(1, "Rahul Menon", "Has the schedule for the qualifier been released?", "10:30 AM"),
      ChatMessage(2, "Sarah Thomas", "Yes, check the Library. I uploaded it an hour ago.", "10:32 AM")
    ]
  ]

  /** `messages[key] || []`. */
  function History(messages: Messages, key: string): seq<ChatMessage>
  {
    if key in messages then messages[key] else []
  }

  /** The map with `msg` appended to the history under `key`. */
  function Appended(messages: Messages, key: string, msg: ChatMessage): (r: Messages)
    ensures r.Keys == messages.Keys + {key}
    ensures r[key] == History(messages, key) + [msg]
    ensures forall k :: k in messages && k != key ==> k in r && r[k] == messages[k]
  {
    messages[key := History(messages, key) + [msg]]
  }

  /** The messages after `handleSend` with input `text` in conversation
      `chat`; `time` is the clock shown next to the message. */
  function Sent(messages: Messages, chat: Conversation, text: string, now: int, time: string): (r: Messages)
    ensures IsBlank(text) ==> r == messages
    ensures !IsBlank(text) ==> r == Appended(messages, KeyOf(chat), ChatMessage(now, "You", text, time))
  {
    if IsBlank(text) then messages
    else Appended(messages, KeyOf(chat), ChatMessage(now, "You", text, time))
  }

  /** Sending twice in one conversation keeps both messages in order. */
  lemma SendTwice(messages: Messages, chat: Conversation, t1: string, t2: string, n1: int, n2: int, time: string)
    requires !IsBlank(t1) && !IsBlank(t2)
    ensures History(Sent(Sent(messages, chat, t1, n1, time), chat, t2, n2, time), KeyOf(chat)) ==
            History(messages, KeyOf(chat)) + [ChatMessage(n1, "You", t1, time), ChatMessage(n2, "You", t2, time)]
  {
  }

  function NotUser(uid: Option<int>): TeamMember -> bool
  {
    (m: TeamMember) => Some(m.uid) != uid
  }

  /** `team`: the members (the default team) without the one whose uid
      equals `parseInt(currentUid)`; `NaN` equals no uid. */
  function TeamFor(members: seq<TeamMember>, currentUid: string): (r: seq<TeamMember>)
  {
    Seqs.Filter(members, NotUser(ParseInt(currentUid)))
  }

  /** Exactly the members whose uid differs from the parsed one remain. */
  lemma TeamExcludes(members: seq<TeamMember>, currentUid: string, m: TeamMember)
    ensures m in TeamFor(members, currentUid) <==> m in members && Some(m.uid) != ParseInt(currentUid)
  {
    Seqs.FilterMembership(members, NotUser(ParseInt(currentUid)), m);
  }

  /** A uid written `0x…` is read in base 16: `"0x2"` leaves out the member
      with uid 2. */
  lemma HexUidExcludes(members: seq<TeamMember>, h: string, m: TeamMember)
    requires AllHex(h) && |h| >= 1
    ensures m in TeamFor(members, "0x" + h) <==> m in members && m.uid != HexValue(h)
  {
    var s := "0x" + h;
    assert s[0] == '0' && s[1] == 'x' && s[2..] == h;
    ParseHexPrefixed(s);
    TeamExcludes(members, s, m);
  }

  /** The page's uid "test-admin-01" is not a number, so nobody is left
      out, the signed-in user included. */
  lemma PageUserKeepsWholeTeam()
    ensures TeamFor(DefaultTeam, "test-admin-01") == DefaultTeam
  {
    PageUidNotNumber();
    NobodyWithoutUser(DefaultTeam);
  }

  lemma PageUidNotNumber()
    ensures ParseInt("test-admin-01") == None
  {
    assert TrimStart("test-admin-01") == "test-admin-01";
    assert LeadingDigits("test-admin-01") == "";
  }

  lemma NobodyWithoutUser(members: seq<TeamMember>)
    ensures Seqs.Filter(members, NotUser(None)) == members
  {
    Seqs.FilterKeepsAll(members, NotUser(None));
  }

  /** The widget's state: the histories, the open conversation and the
      text being typed. */
  class ChatWidget {
    var messages: Messages
    var activeChat: Conversation
    var newMessage: string

    constructor(saved: Option<Messages>)
      ensures messages == saved.GetOr(DefaultMessages) && activeChat == General && newMessage == ""
    {
      messages := saved.GetOr(DefaultMessages);
      activeChat := General;
      newMessage := "";
    }

    method Open(chat: Conversation)
      modifies this
      ensures messages == old(messages) && activeChat == chat && newMessage == old(newMessage)
    {
      activeChat := chat;
    }

    method SetNewMessage(text: string)
      modifies this
      ensures messages == old(messages) && activeChat == old(activeChat) && newMessage == text
    {
      newMessage := text;
    }

    /** `handleSend`: a blank input changes nothing; otherwise the message
        is appended to the open conversation and the input is cleared. */
    method HandleSend(now: int, time: string)
      modifies this
      ensures messages == Sent(old(messages), old(activeChat), old(newMessage), now, time)
      ensures activeChat == old(activeChat)
      ensures newMessage == if IsBlank(old(newMessage)) then old(newMessage) else ""
    {
      if IsBlank(newMessage) {
        return;
      }
      messages := Appended(messages, KeyOf(activeChat), ChatMessage(now, "You", newMessage, time));
      newMessage := "";
    }
  }
}
