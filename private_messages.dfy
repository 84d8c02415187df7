/**
 * The private-message screen `PrivateMessages`: the conversation search,
 * the relative-time labels, the per-conversation message lists and the
 * selection and panel flags.  `Date.now()` is the integer `now`, the window
 * width an integer `width`, and the signed-in user comes from `useAuth`.
 */
module PrivateMessages {
  import opened Options
  import opened Text
  import opened AuthProvider

  datatype Conversation = Conversation(
    id: string, username: string, lastMessage: string, timestamp: int, unread: nat, online: bool)

  /** A private message; its `type` is always "private" and is left implicit. */
  datatype PrivateMessage = PrivateMessage(id: string, username: string, content: string, timestamp: int)

  type Threads = map<string, seq<PrivateMessage>>

  /** The component's state cells. */
  datatype View = View(
    searchQuery: string,
    selected: Option<string>,
    newMessage: string,
    isMobileThreadOpen: bool,
    isNewChatOpen: bool,
    messages: Threads)

  /** Below this window width a thread opens as a slide-over. */
  const MobileBreakpoint: int := 768

  function DemoConversations(now: int): seq<Conversation> {
    [ Conversation("1", "Alice", "I saw your message in the global chat, great work!", now - 240000, 2, true),
      Conversation("2", "Bob", "Thanks for the help earlier!", now - 3600000, 0, false),
      Conversation("3", "Charlie", "See you tomorrow!", now - 7200000, 1, true) ]
  }

  function DemoThreads(now: int): Threads {
    map[
      "1" := [ PrivateMessage("pm1", "Alice", "Hey! How are you doing?", now - 300000),
               PrivateMessage("pm2", "Alice", "I saw your message in the global chat, great work!", now - 240000) ],
      "2" := [ PrivateMessage("pm3", "Bob", "Thanks for the help earlier!", now - 3600000) ],
      "3" := [ PrivateMessage("pm4", "Charlie", "See you tomorrow!", now - 7200000) ] ]
  }

  function InitialView(now: int): View {
    View("", None, "", false, false, DemoThreads(now))
  }

  // ---------------------------------------------------------------- search

  /** The match test of `filteredConversations` for an already trimmed, lower-cased query. */
  function ConversationMatcher(q: string): Conversation -> bool {
    (c: Conversation) => Contains(ToLower(c.username), q)
  }

  /** `filteredConversations`: a blank query keeps the list as it is. */
  function FilterConversations(convs: seq<Conversation>, searchQuery: string): seq<Conversation> {
    var q := ToLower(Trim(searchQuery));
    if q == [] then convs else Keep(convs, ConversationMatcher(q))
  }

  /** A query that is empty after trimming returns the list unchanged. */
  lemma BlankQueryKeepsAll(convs: seq<Conversation>, searchQuery: string)
    requires AllSpace(searchQuery)
    ensures FilterConversations(convs, searchQuery) == convs
  {
  }

  /**
   * Any other query returns exactly the conversations whose lower-cased
   * username contains the trimmed, lower-cased query.
   */
  lemma FilterConversationsExact(convs: seq<Conversation>, searchQuery: string)
    requires !AllSpace(searchQuery)
    ensures forall c :: c in FilterConversations(convs, searchQuery) <==>
      c in convs && Contains(ToLower(c.username), ToLower(Trim(searchQuery)))
  {
    ToLowerProperties(Trim(searchQuery));
  }

  /**
   * The filter keeps the original order: it distributes over concatenation,
   * and a single conversation stays exactly when the query is blank or matches it.
   */
  lemma FilterConversationsOrder(xs: seq<Conversation>, ys: seq<Conversation>, searchQuery: string)
    ensures FilterConversations(xs + ys, searchQuery)
         == FilterConversations(xs, searchQuery) + FilterConversations(ys, searchQuery)
    ensures forall c ::
      FilterConversations([c], searchQuery)
        == if AllSpace(searchQuery) || ConversationMatcher(ToLower(Trim(searchQuery)))(c) then [c] else []
  {
    var q := ToLower(Trim(searchQuery));
    ToLowerProperties(Trim(searchQuery));
    if q != [] {
      KeepAppend(xs, ys, ConversationMatcher(q));
      forall c ensures Keep([c], ConversationMatcher(q)) == if ConversationMatcher(q)(c) then [c] else [] {
        assert [c][1..] == [];
      }
    }
  }

  // ---------------------------------------------------------------- relative time

  const MsPerMinute: int := 60000
  const MsPerHour: int := 3600000
  const MsPerDay: int := 86400000

  datatype TimeUnit = Minutes | Hours | Days

  /** A relative time: `count` whole units. */
  datatype Elapsed = Elapsed(count: int, unit: TimeUnit)

  function UnitMs(u: TimeUnit): int {
    match u
    case Minutes => MsPerMinute
    case Hours => MsPerHour
    case Days => MsPerDay
  }

  /**
   * The bucket `formatTime` picks for a difference of `diff` milliseconds:
   * minutes below an hour, hours below a day, days otherwise; the count is
   * the floor of the quotient (for a future time too).
   */
  function Bucket(diff: int): (e: Elapsed)
    ensures e.unit == Minutes <==> diff < MsPerHour
    ensures e.unit == Hours <==> MsPerHour <= diff < MsPerDay
    ensures e.unit == Days <==> MsPerDay <= diff
    ensures UnitMs(e.unit) * e.count <= diff < UnitMs(e.unit) * (e.count + 1)
    ensures 0 <= diff && e.unit == Minutes ==> 0 <= e.count < 60
    ensures e.unit == Hours ==> 1 <= e.count < 24
    ensures e.unit == Days ==> 1 <= e.count
  {
    var minutes := diff / MsPerMinute;
    var hours := diff / MsPerHour;
    var days := diff / MsPerDay;
    if minutes < 60 then Elapsed(minutes, Minutes)
    else if hours < 24 then Elapsed(hours, Hours)
    else Elapsed(days, Days)
  }

  function Suffix(u: TimeUnit): string {
    match u
    case Minutes => "m ago"
    case Hours => "h ago"
    case Days => "d ago"
  }

  /** `formatTime(timestamp)` read at time `now`. */
  function FormatTime(now: int, timestamp: int): string {
    var e := Bucket(now - timestamp);
    Decimal(e.count) + Suffix(e.unit)
  }

  /** Reads a label of `FormatTime` back into its count and unit. */
  function ParseElapsed(s: string): Option<Elapsed> {
    if |s| < 5 then None
    else
      var count := ParseDecimal(s[..|s| - 5]);
      var unit := s[|s| - 5..];
      if count.None? then None
      else if unit == "m ago" then Some(Elapsed(count.value, Minutes))
      else if unit == "h ago" then Some(Elapsed(count.value, Hours))
      else if unit == "d ago" then Some(Elapsed(count.value, Days))
      else None
  }

  /** A label names its bucket unambiguously: it reads back to exactly the count and unit chosen. */
  lemma FormatTimeReadsBack(now: int, timestamp: int)
    ensures ParseElapsed(FormatTime(now, timestamp)) == Some(Bucket(now - timestamp))
  {
    var e := Bucket(now - timestamp);
    var s := FormatTime(now, timestamp);
    DecimalRoundTrip(e.count);
    assert s[..|s| - 5] == Decimal(e.count);
    assert s[|s| - 5..] == Suffix(e.unit);
  }

  /** The demo conversations, labelled at the moment they are created. */
  lemma DemoLabels(now: int)
    ensures FormatTime(now, DemoConversations(now)[0].timestamp) == "4m ago"
    ensures FormatTime(now, DemoConversations(now)[1].timestamp) == "1h ago"
    ensures FormatTime(now, DemoConversations(now)[2].timestamp) == "2h ago"
  {
  }

  // ---------------------------------------------------------------- selection and messages

  /** JavaScript truthiness of `selectedConversation`: set and not the empty string. */
  predicate HasSelection(v: View) {
    v.selected.Some? && v.selected.value != ""
  }

  /** `prev[id] || []`. */
  function ThreadOf(messages: Threads, id: string): seq<PrivateMessage> {
    if id in messages then messages[id] else []
  }

  /** `currentMessages`. */
  function CurrentMessages(v: View): seq<PrivateMessage> {
    if HasSelection(v) then ThreadOf(v.messages, v.selected.value) else []
  }

  /** `conversations.find(c => c.id === selectedConversation)`, as the index found. */
  function FindConversation(convs: seq<Conversation>, selected: Option<string>): (r: Option<nat>)
    ensures r.Some? ==> r.value < |convs| && selected == Some(convs[r.value].id)
    ensures r.Some? ==> forall j :: 0 <= j < r.value ==> selected != Some(convs[j].id)
    ensures r.None? ==> forall j :: 0 <= j < |convs| ==> selected != Some(convs[j].id)
  {
    if convs == [] then None
    else if selected == Some(convs[0].id) then Some(0)
    else match FindConversation(convs[1..], selected)
      case None => None
      case Some(i) => Some(i + 1)
  }

  /** The guard of `handleSendPrivateMessage`. */
  predicate CanSendPrivate(v: View, user: Option<User>) {
    !AllSpace(v.newMessage) && HasSelection(v) && user.Some?
  }

  /** `handleSendPrivateMessage` at time `now`. */
  function AfterSendPrivate(v: View, user: Option<User>, now: int): View {
    if !CanSendPrivate(v, user) then v
    else
      var id := v.selected.value;
      var message := PrivateMessage(Decimal(now), user.value.username, Trim(v.newMessage), now);
      v.(messages := v.messages[id := ThreadOf(v.messages, id) + [message]], newMessage := "")
  }

  /**
   * Sending is a no-op with a blank draft, no selection or no user.
   * Otherwise exactly one message, with the trimmed draft and the user's
   * name, is appended to the selected conversation (whose list is created
   * if absent), the draft is cleared, and every other list and flag is unchanged.
   */
  lemma SendPrivateOutcome(v: View, user: Option<User>, now: int)
    ensures !CanSendPrivate(v, user) ==> AfterSendPrivate(v, user, now) == v
    ensures CanSendPrivate(v, user) ==>
      var id := v.selected.value;
      var r := AfterSendPrivate(v, user, now);
      && r.messages.Keys == v.messages.Keys + {id}
      && |r.messages[id]| == |ThreadOf(v.messages, id)| + 1
      && r.messages[id][..|r.messages[id]| - 1] == ThreadOf(v.messages, id)
      && r.messages[id][|r.messages[id]| - 1].content == Trim(v.newMessage)
      && r.messages[id][|r.messages[id]| - 1].username == user.value.username
      && r.messages[id][|r.messages[id]| - 1].timestamp == now
      && r.newMessage == ""
      && (forall k :: k in v.messages && k != id ==> r.messages[k] == v.messages[k])
      && r.(messages := v.messages, newMessage := v.newMessage) == v
  {
    if CanSendPrivate(v, user) {
      var id := v.selected.value;
      var r := AfterSendPrivate(v, user, now);
      assert r.messages[id][..|r.messages[id]| - 1] == ThreadOf(v.messages, id);
    }
  }

  /** A send never loses or reorders a message: every earlier list is a prefix of the new one. */
  lemma SendKeepsHistory(v: View, user: Option<User>, now: int)
    ensures forall k :: k in v.messages ==>
      k in AfterSendPrivate(v, user, now).messages
      && v.messages[k] <= AfterSendPrivate(v, user, now).messages[k]
  {
  }

  /** What a send appends is what the open thread shows next. */
  lemma SendShowsInThread(v: View, user: Option<User>, now: int)
    requires CanSendPrivate(v, user)
    ensures CurrentMessages(AfterSendPrivate(v, user, now))
         == CurrentMessages(v) + [PrivateMessage(Decimal(now), user.value.username, Trim(v.newMessage), now)]
  {
  }

  /** `openThread(id)`. */
  function AfterOpenThread(v: View, id: string): View {
    v.(selected := Some(id), isMobileThreadOpen := true)
  }

  /** `closeThread()`: only the slide-over flag changes. */
  function AfterCloseThread(v: View): View {
    v.(isMobileThreadOpen := false)
  }

  /** `handleStartChat(userId)` with the window `width` wide. */
  function AfterStartChat(v: View, userId: string, width: int): View {
    v.(selected := Some(userId),
       isMobileThreadOpen := if width < MobileBreakpoint then true else v.isMobileThreadOpen,
       isNewChatOpen := false)
  }

  /** A click on a conversation card: a thread on narrow windows, a selection otherwise. */
  function AfterCardClick(v: View, id: string, width: int): View {
    if width < MobileBreakpoint then AfterOpenThread(v, id) else v.(selected := Some(id))
  }

  /**
   * Closing a thread keeps the selection and everything else; starting a
   * chat selects it, closes the new-chat dialog and opens the thread only on
   * a narrow window; a card click selects on every width.
   */
  lemma ThreadActions(v: View, id: string, width: int)
    ensures AfterCloseThread(v).selected == v.selected
    ensures !AfterCloseThread(v).isMobileThreadOpen
    ensures AfterCloseThread(v).(isMobileThreadOpen := v.isMobileThreadOpen) == v
    ensures AfterStartChat(v, id, width).selected == Some(id)
    ensures !AfterStartChat(v, id, width).isNewChatOpen
    ensures AfterStartChat(v, id, width).isMobileThreadOpen == (width < MobileBreakpoint || v.isMobileThreadOpen)
    ensures AfterStartChat(v, id, width).messages == v.messages
    ensures AfterCardClick(v, id, width).selected == Some(id)
    ensures AfterCardClick(v, id, width).isMobileThreadOpen == (width < MobileBreakpoint || v.isMobileThreadOpen)
  {
  }

  /** The component instance. */
  class Panel {
    const conversations: seq<Conversation>
    var searchQuery: string
    var selected: Option<string>
    var newMessage: string
    var isMobileThreadOpen: bool
    var isNewChatOpen: bool
    var messages: Threads

    function State(): View
      reads this
    {
      View(searchQuery, selected, newMessage, isMobileThreadOpen, isNewChatOpen, messages)
    }

    /** Mounted at time `now`, with the demo conversations and threads. */
    constructor (now: int)
      ensures conversations == DemoConversations(now)
      ensures State() == InitialView(now)
    {
      conversations := DemoConversations(now);
      searchQuery, selected, newMessage := "", None, "";
      isMobileThreadOpen, isNewChatOpen := false, false;
      messages := DemoThreads(now);
    }

    method SetSearchQuery(q: string)
      modifies this
      ensures State() == old(State()).(searchQuery := q)
    {
      searchQuery := q;
    }

    method SetNewMessage(text: string)
      modifies this
      ensures State() == old(State()).(newMessage := text)
    {
      newMessage := text;
    }

    /** `setIsNewChatOpen`, also the dialog's `onOpenChange`. */
    method SetNewChatOpen(b: bool)
      modifies this
      ensures State() == old(State()).(isNewChatOpen := b)
    {
      isNewChatOpen := b;
    }

    method HandleSendPrivateMessage(user: Option<User>, now: int)
      modifies this
      ensures State() == AfterSendPrivate(old(State()), user, now)
    {
      if AllSpace(newMessage) || selected.None? || selected.value == "" || user.None? {
        return;
      }
      var id := selected.value;
      var message := PrivateMessage(Decimal(now), user.value.username, Trim(newMessage), now);
      var thread := if id in messages then messages[id] else [];
      messages := messages[id := thread + [message]];
      newMessage := "";
    }

    method OpenThread(id: string)
      modifies this
      ensures State() == AfterOpenThread(old(State()), id)
    {
      selected := Some(id);
      isMobileThreadOpen := true;
    }

    method CloseThread()
      modifies this
      ensures State() == AfterCloseThread(old(State()))
    {
      isMobileThreadOpen := false;
    }

    method HandleStartChat(userId: string, width: int)
      modifies this
      ensures State() == AfterStartChat(old(State()), userId, width)
    {
      selected := Some(userId);
      if width < MobileBreakpoint {
        isMobileThreadOpen := true;
      }
      isNewChatOpen := false;
    }

    method SelectFromList(id: string, width: int)
      modifies this
      ensures State() == AfterCardClick(old(State()), id, width)
    {
      if width < MobileBreakpoint {
        OpenThread(id);
      } else {
        selected := Some(id);
      }
    }
  }
}
