/** The user picker `NewChatDialog`: a search over the demo users and the start-chat action. */
module NewChatDialog {
  import opened Text

  datatype User = User(id: string, username: string, online: bool)

  /** The demo users the dialog offers. */
  function DemoUsers(): seq<User> {
    [ User("1", "Alice", true),
      User("2", "Bob", false),
      User("3", "Charlie", true),
      User("4", "Diana", true),
      User("5", "Eve", false) ]
  }

  /** A user is listed when the lower-cased query occurs in the lower-cased username. */
  function UserMatcher(query: string): User -> bool {
    (u: User) => Contains(ToLower(u.username), ToLower(query))
  }

  /** `filteredUsers`: the query is lower-cased but not trimmed. */
  function FilterUsers(users: seq<User>, query: string): seq<User> {
    Keep(users, UserMatcher(query))
  }

  /** Exactly the matching users are listed. */
  lemma FilterUsersExact(users: seq<User>, query: string)
    ensures forall u :: u in FilterUsers(users, query) <==>
      u in users && Contains(ToLower(u.username), ToLower(query))
  {
  }

  /** The filter keeps the original order: it distributes over concatenation, and a single user stays exactly when it matches. */
  lemma FilterUsersOrder(xs: seq<User>, ys: seq<User>, query: string)
    ensures FilterUsers(xs + ys, query) == FilterUsers(xs, query) + FilterUsers(ys, query)
    ensures forall u :: FilterUsers([u], query) == if UserMatcher(query)(u) then [u] else []
  {
    KeepAppend(xs, ys, UserMatcher(query));
    forall u ensures FilterUsers([u], query) == if UserMatcher(query)(u) then [u] else [] {
      assert [u][1..] == [];
    }
  }

  /** An empty query lists every user. */
  lemma EmptyQueryListsAll(users: seq<User>)
    ensures FilterUsers(users, "") == users
  {
    forall k | 0 <= k < |users| ensures UserMatcher("")(users[k]) {
      ContainsEmpty(ToLower(users[k].username));
    }
    KeepAll(users, UserMatcher(""));
  }

  /** The query is not trimmed: a lone space matches no user whose name has no space. */
  lemma SpaceQueryNotTrimmed(users: seq<User>)
    requires forall u :: u in users ==> forall k :: 0 <= k < |u.username| ==> u.username[k] != ' '
    ensures FilterUsers(users, " ") == []
  {
    assert ToLower(" ") == " ";
    forall k | 0 <= k < |users| ensures !UserMatcher(" ")(users[k]) {
      var name := ToLower(users[k].username);
      assert forall i :: OccursAt(name, " ", i) ==> name[i..i + 1][0] == name[i] != ' ';
      ContainsIff(name, " ");
    }
    KeepNone(users, UserMatcher(" "));
  }

  /** The dialog's own state: the search query. */
  class Dialog {
    const users: seq<User>
    var searchQuery: string

    constructor ()
      ensures users == DemoUsers() && searchQuery == ""
    {
      users := DemoUsers();
      searchQuery := "";
    }

    method SetSearchQuery(q: string)
      modifies this
      ensures searchQuery == q
    {
      searchQuery := q;
    }

    /**
     * The list the dialog shows: exactly the users whose name contains the
     * query, at most all of them, and in the order `FilterUsersOrder` gives.
     */
    method Listed() returns (r: seq<User>)
      ensures forall u :: u in r <==> u in users && Contains(ToLower(u.username), ToLower(searchQuery))
      ensures |r| <= |users|
      ensures r == FilterUsers(users, searchQuery)
    {
      r := FilterUsers(users, searchQuery);
      FilterUsersExact(users, searchQuery);
    }

    /**
     * `handleStartChat(userId)`: `startChat` is the argument of the
     * `onStartChat` call, `openChange` that of `onOpenChange`; the query is reset.
     */
    method HandleStartChat(userId: string) returns (startChat: string, openChange: bool)
      modifies this
      ensures startChat == userId && !openChange
      ensures searchQuery == ""
    {
      startChat := userId;
      openChange := false;
      searchQuery := "";
    }
  }
}
