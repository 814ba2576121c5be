/**
 * The command-palette user searcher: it turns the users a directory lookup
 * returned, and the id of the current project, into the palette commands
 * that are offered for them.
 *
 * The lookup result and the current project id are parameters here; every
 * command's navigation callback is represented by the path it navigates to.
 */
module UserSearcher {
  import opened Wrappers

  /** The two fields of a user record the searcher reads: its id and its display name. */
  datatype User = User(id: string, name: string)

  /** A palette command: what it shows, where it navigates, its group and its optional icon. */
  datatype Command = Command(title: string, destination: string, group: string, icon: Option<string>)

  const UsersGroup: string := "users"
  const UserIcon: string := "user-circle"

  const ActivityLabel: string := "Go to activity"
  const SessionsLabel: string := "Go to sessions"
  const MembershipsLabel: string := "Go to memberships"

  const ActivitySuffix: string := "/activity"
  const SessionsSuffix: string := "/sessions"
  const MembershipsSuffix: string := "/memberships"

  /** The part of every user page's path that comes before the user's id. */
  function UserPathPrefix(projectId: string): string
  {
    "/console/project-" + projectId + "/auth/user-"
  }

  /** The path of a user's page in a project; the id can be read back off the path. */
  function UserPath(projectId: string, userId: string): (p: string)
    ensures UserPathPrefix(projectId) <= p
    ensures p[|UserPathPrefix(projectId)|..] == userId
  {
    UserPathPrefix(projectId) + userId
  }

  /** The command that opens one user's page. */
  function UserCommand(user: User, projectId: string): (c: Command)
    ensures c.title == user.name && c.group == UsersGroup && c.icon == Some(UserIcon)
    ensures UserPathPrefix(projectId) <= c.destination
    ensures c.destination[|UserPathPrefix(projectId)|..] == user.id
  {
    Command(user.name, UserPath(projectId, user.id), UsersGroup, Some(UserIcon))
  }

  /** One open command per user, in the order of the users. */
  function OpenCommands(users: seq<User>, projectId: string): (r: seq<Command>)
    ensures |r| == |users|
    ensures forall i :: 0 <= i < |users| ==> r[i] == UserCommand(users[i], projectId)
  {
    if users == [] then []
    else [UserCommand(users[0], projectId)] + OpenCommands(users[1..], projectId)
  }

  /** A shortcut to one sub-page of a user's page: no icon, in the users group. */
  function ShortcutCommand(title: string, basePath: string, suffix: string): Command
  {
    Command(title, basePath + suffix, UsersGroup, None)
  }

  /**
   * The commands offered for the users a search found: for a single user,
   * its open command and shortcuts to its activity, sessions and
   * memberships; otherwise an open command per user.
   */
  function Commands(users: seq<User>, projectId: string): (r: seq<Command>)
    ensures |r| == if |users| == 1 then 4 else |users|
    ensures forall c <- r :: c.group == UsersGroup
    ensures forall c <- r :: UserPathPrefix(projectId) <= c.destination
  {
    if |users| == 1 then
      var basePath := UserPath(projectId, users[0].id);
      [ UserCommand(users[0], projectId),
        ShortcutCommand(ActivityLabel, basePath, ActivitySuffix),
        ShortcutCommand(SessionsLabel, basePath, SessionsSuffix),
        ShortcutCommand(MembershipsLabel, basePath, MembershipsSuffix) ]
    else
      OpenCommands(users, projectId)
  }

  /** A path that leads to the page of user `userId`, or to one of its three sub-pages. */
  predicate LeadsToUser(path: string, projectId: string, userId: string)
  {
    var basePath := UserPath(projectId, userId);
    path == basePath || path == basePath + ActivitySuffix
    || path == basePath + SessionsSuffix || path == basePath + MembershipsSuffix
  }

  // Single-user case

  lemma SingleUserOpensFirst(user: User, projectId: string)
    ensures var r := Commands([user], projectId);
      |r| == 4
      && r[0] == UserCommand(user, projectId)
      && r[0].title == user.name
      && r[0].destination == "/console/project-" + projectId + "/auth/user-" + user.id
      && r[0].group == "users"
      && r[0].icon == Some("user-circle")
  {
  }

  lemma SingleUserShortcuts(user: User, projectId: string)
    ensures var r := Commands([user], projectId);
      var basePath := "/console/project-" + projectId + "/auth/user-" + user.id;
      |r| == 4
      && [r[1].title, r[2].title, r[3].title] == ["Go to activity", "Go to sessions", "Go to memberships"]
      && r[1].destination == basePath + "/activity"
      && r[2].destination == basePath + "/sessions"
      && r[3].destination == basePath + "/memberships"
      && (forall k :: 1 <= k < 4 ==> r[k].group == "users" && r[k].icon == None)
      && (forall k :: 1 <= k < 4 ==> r[0].destination < r[k].destination)
  {
  }

  /** The four destinations offered for a single user are pairwise different. */
  lemma SingleUserDestinationsDistinct(user: User, projectId: string)
    ensures var r := Commands([user], projectId);
      forall j, k :: 0 <= j < k < 4 ==> r[j].destination != r[k].destination
  {
    var basePath := UserPath(projectId, user.id);
    var n := |basePath|;
    var r := Commands([user], projectId);
    assert r[1].destination[n + 1] == 'a';
    assert r[2].destination[n + 1] == 's';
    assert |r[0].destination| == n < |r[1].destination| == |r[2].destination| == n + 9;
    assert |r[3].destination| == n + 12;
  }

  // Any other number of users

  lemma OtherCountsOpenEach(users: seq<User>, projectId: string)
    requires |users| != 1
    ensures var r := Commands(users, projectId);
      |r| == |users|
      && (forall i :: 0 <= i < |users| ==> r[i] == UserCommand(users[i], projectId))
      && (forall c <- r :: c.icon == Some(UserIcon))
      && (users == [] ==> r == [])
  {
  }

  // Every count

  /** Every user found gets a command that opens its page. */
  lemma EveryUserOpened(users: seq<User>, projectId: string)
    ensures forall u <- users :: UserCommand(u, projectId) in Commands(users, projectId)
  {
  }

  /** Every command leads to the page of a user that was found, or to one of its sub-pages. */
  lemma EveryCommandForFoundUser(users: seq<User>, projectId: string)
    ensures forall c <- Commands(users, projectId) :: exists u <- users :: LeadsToUser(c.destination, projectId, u.id)
  {
  }

  /** Users with different ids are offered commands with different destinations. */
  lemma DistinctIdsDistinctDestinations(users: seq<User>, projectId: string)
    requires |users| != 1
    requires forall i, j :: 0 <= i < j < |users| ==> users[i].id != users[j].id
    ensures var r := Commands(users, projectId);
      forall i, j :: 0 <= i < j < |r| ==> r[i].destination != r[j].destination
  {
  }

  /** A search that found two users, worked out. */
  lemma TwoUsersExample()
    ensures Commands([User("1", "ann-1"), User("2", "ann-b")], "proj1")
      == [ Command("ann-1", "/console/project-proj1/auth/user-1", "users", Some("user-circle")),
           Command("ann-b", "/console/project-proj1/auth/user-2", "users", Some("user-circle")) ]
  {
    var users := [User("1", "ann-1"), User("2", "ann-b")];
    var r := Commands(users, "proj1");
    assert UserPathPrefix("proj1") == "/console/project-proj1/auth/user-";
    assert UserPath("proj1", "1") == "/console/project-proj1/auth/user-1";
    assert UserPath("proj1", "2") == "/console/project-proj1/auth/user-2";
    assert r[0] == UserCommand(users[0], "proj1");
    assert r[1] == UserCommand(users[1], "proj1");
  }
}
