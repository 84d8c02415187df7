/**
 * The chat screen `ChatPage`: the global message feed with its two-phase
 * send (the typing indicator at once, the message after a delay), the
 * active tab and the header it selects.  Each delayed append is a pending
 * callback; callbacks with the same delay fire in the order they were scheduled.
 */
module ChatPage {
  import opened Options
  import opened Text
  import opened AuthProvider

  /** The delay before a sent message appears. */
  const AppendDelay: int := 500

  datatype Tab = Global | Profile | Private

  datatype Icon = UserIcon | UsersIcon

  datatype Header = Header(icon: Icon, title: string, subtitle: string)

  /** `getHeaderContent()`. */
  function HeaderContent(tab: Tab): Header {
    match tab
    case Profile => Header(UserIcon, "Your Profile", "Manage your account settings")
    case Private => Header(UsersIcon, "Private Messages", "Your direct conversations")
    case Global => Header(UsersIcon, "Global Chat", "Connect with everyone")
  }

  /** The tab a header title belongs to. */
  function TabOfTitle(title: string): Option<Tab> {
    if title == "Your Profile" then Some(Profile)
    else if title == "Private Messages" then Some(Private)
    else if title == "Global Chat" then Some(Global)
    else None
  }

  /** Every tab has its own title, so the header tells which tab is active. */
  lemma HeaderIdentifiesTab(tab: Tab)
    ensures TabOfTitle(HeaderContent(tab).title) == Some(tab)
    ensures HeaderContent(tab).icon == UserIcon <==> tab == Profile
  {
  }

  /** A global message; its `type` is always "global" and is left implicit. */
  datatype Message = Message(id: string, username: string, content: string, timestamp: int)

  /** A scheduled append: the sender's name and the content captured when `handleSendMessage` ran, and its delay. */
  datatype Pending = Pending(username: string, content: string, delay: int)

  datatype Feed = Feed(messages: seq<Message>, showTyping: bool, pending: seq<Pending>, activeTab: Tab)

  /** Before the mount effect: nothing shown, the global tab active. */
  function InitialFeed(): Feed {
    Feed([], false, [], Global)
  }

  /** The demo messages the mount effect installs, at time `now`. */
  function DemoMessages(now: int): seq<Message> {
    [ Message("1", "Alice", "Hey everyone! Welcome to ChatFlow!", now - 300000),
      Message("2", "Bob", "This is amazing! Love the smooth animations.", now - 240000),
      Message("3", "Charlie", "The design is so clean and modern. Great work!", now - 180000) ]
  }

  function AfterMount(f: Feed, now: int): Feed {
    f.(messages := DemoMessages(now))
  }

  /** `handleSendMessage(content)`: nothing without a user; else the indicator and one scheduled append. */
  function AfterSendMessage(f: Feed, user: Option<User>, content: string): Feed {
    if user.None? then f
    else f.(showTyping := true, pending := f.pending + [Pending(user.value.username, content, AppendDelay)])
  }

  /** The oldest scheduled append fires at time `now`. */
  function AfterAppendFires(f: Feed, now: int): Feed
    requires f.pending != []
  {
    var p := f.pending[0];
    f.(messages := f.messages + [Message(Decimal(now), p.username, p.content, now)],
       showTyping := false,
       pending := f.pending[1..])
  }

  function AfterTabChange(f: Feed, tab: Tab): Feed {
    f.(activeTab := tab)
  }

  /** The contents of a list of messages, in order. */
  function Contents(ms: seq<Message>): seq<string> {
    seq(|ms|, k requires 0 <= k < |ms| => ms[k].content)
  }

  /** The contents still waiting to be appended, in order. */
  function PendingContents(ps: seq<Pending>): seq<string> {
    seq(|ps|, k requires 0 <= k < |ps| => ps[k].content)
  }

  /** What the feed shows now followed by what it will show once every append has fired. */
  function Outlook(f: Feed): seq<string> {
    Contents(f.messages) + PendingContents(f.pending)
  }

  /** The initial list is the three demo messages "1", "2", "3", oldest first. */
  lemma DemoMessagesShape(now: int)
    ensures var ms := AfterMount(InitialFeed(), now).messages;
      && |ms| == 3
      && ms[0].id == "1" && ms[1].id == "2" && ms[2].id == "3"
      && ms[0].username == "Alice" && ms[1].username == "Bob" && ms[2].username == "Charlie"
      && ms[0].timestamp < ms[1].timestamp < ms[2].timestamp
  {
  }

  /**
   * Without a user a send changes nothing.  With one it shows the indicator
   * at once and schedules exactly one append of the content exactly as
   * passed (untrimmed), under the user's name; the feed and the tab are untouched.
   */
  lemma SendMessageOutcome(f: Feed, user: Option<User>, content: string)
    ensures user.None? ==> AfterSendMessage(f, user, content) == f
    ensures user.Some? ==>
      && AfterSendMessage(f, user, content).showTyping
      && AfterSendMessage(f, user, content).messages == f.messages
      && AfterSendMessage(f, user, content).pending == f.pending + [Pending(user.value.username, content, AppendDelay)]
      && AfterSendMessage(f, user, content).activeTab == f.activeTab
  {
  }

  /**
   * A firing appends exactly one message at the end and leaves the earlier
   * ones untouched; the rest of the queue and the tab stay as they were, and
   * the indicator is cleared even if more appends are pending.
   */
  lemma AppendFiresOutcome(f: Feed, now: int)
    requires f.pending != []
    ensures var g := AfterAppendFires(f, now);
      && |g.messages| == |f.messages| + 1
      && g.messages[..|f.messages|] == f.messages
      && g.messages[|f.messages|] == Message(Decimal(now), f.pending[0].username, f.pending[0].content, now)
      && !g.showTyping
      && g.pending == f.pending[1..]
      && g.activeTab == f.activeTab
  {
    var g := AfterAppendFires(f, now);
    assert g.messages[..|f.messages|] == f.messages;
  }

  /**
   * Sends appear in the order they were made: a send extends the outlook by
   * its content and a firing leaves it as it is, so the feed shown is always
   * a prefix of the outlook.
   */
  lemma SendExtendsOutlook(f: Feed, user: Option<User>, content: string)
    ensures user.Some? ==> Outlook(AfterSendMessage(f, user, content)) == Outlook(f) + [content]
    ensures user.None? ==> Outlook(AfterSendMessage(f, user, content)) == Outlook(f)
  {
    if user.Some? {
      var g := AfterSendMessage(f, user, content);
      assert PendingContents(g.pending) == PendingContents(f.pending) + [content];
    }
  }

  lemma FiringKeepsOutlook(f: Feed, now: int)
    requires f.pending != []
    ensures Outlook(AfterAppendFires(f, now)) == Outlook(f)
    ensures Contents(f.messages) <= Outlook(f)
  {
    var g := AfterAppendFires(f, now);
    assert Contents(g.messages) == Contents(f.messages) + [f.pending[0].content];
    assert PendingContents(f.pending) == [f.pending[0].content] + PendingContents(g.pending);
  }

  /** Every scheduled append waits the same `AppendDelay`. */
  ghost predicate SameDelay(f: Feed) {
    forall k :: 0 <= k < |f.pending| ==> f.pending[k].delay == AppendDelay
  }

  /**
   * Sends and firings keep every scheduled append at the same delay, so the
   * appends fire in the order they were scheduled, oldest first.
   */
  lemma AppendsShareDelay(f: Feed, user: Option<User>, content: string, now: int)
    requires SameDelay(f)
    ensures SameDelay(InitialFeed())
    ensures SameDelay(AfterSendMessage(f, user, content))
    ensures f.pending != [] ==> SameDelay(AfterAppendFires(f, now))
  {
  }

  /** Two quick sends: the first firing hides the indicator while the second is still pending. */
  lemma IndicatorClearedEarly(f: Feed, user: User, a: string, b: string, now: int)
    requires f.pending == []
    ensures var g := AfterAppendFires(AfterSendMessage(AfterSendMessage(f, Some(user), a), Some(user), b), now);
      !g.showTyping && g.pending == [Pending(user.username, b, AppendDelay)]
  {
  }

  /** The page instance. */
  class Page {
    var messages: seq<Message>
    var showTyping: bool
    var pending: seq<Pending>
    var activeTab: Tab

    function State(): Feed
      reads this
    {
      Feed(messages, showTyping, pending, activeTab)
    }

    constructor ()
      ensures State() == InitialFeed()
    {
      messages, showTyping, pending, activeTab := [], false, [], Global;
    }

    /** The mount effect that installs the demo messages. */
    method Mount(now: int)
      modifies this
      ensures State() == AfterMount(old(State()), now)
    {
      messages := DemoMessages(now);
    }

    method HandleSendMessage(user: Option<User>, content: string)
      modifies this
      ensures State() == AfterSendMessage(old(State()), user, content)
    {
      if user.None? {
        return;
      }
      showTyping := true;
      pending := pending + [Pending(user.value.username, content, AppendDelay)];
    }

    /** The oldest scheduled append fires. */
    method OnAppendTimer(now: int)
      requires pending != []
      modifies this
      ensures State() == AfterAppendFires(old(State()), now)
    {
      var p := pending[0];
      pending := pending[1..];
      messages := messages + [Message(Decimal(now), p.username, p.content, now)];
      showTyping := false;
    }

    method SetActiveTab(tab: Tab)
      modifies this
      ensures State() == AfterTabChange(old(State()), tab)
    {
      activeTab := tab;
    }

    /** The header shown: its title names the active tab, and the user icon marks the profile tab. */
    method CurrentHeader() returns (h: Header)
      ensures TabOfTitle(h.title) == Some(activeTab)
      ensures h.icon == UserIcon <==> activeTab == Profile
    {
      h := HeaderContent(activeTab);
      HeaderIdentifiesTab(activeTab);
    }
  }
}
