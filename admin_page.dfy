/** The admin page's own logic: relative last-login times, the user table's
  * sort state and role ordering, the projects shown for the selected user
  * with the project selection kept valid, and the create-user form guard. */
module AdminPage {
  import opened Wrappers
  import Text
  import opened StableSort

  // ---------------------------------------------------------------------
  // Relative time of the last login

  /** How long ago a login was, as `formatLastLogin` buckets it. */
  datatype Ago = Never | JustNow | Seconds(n: nat) | Minutes(n: nat) | Hours(n: nat) | Days(n: nat) | OlderThanMonth

  const SecondMs := 1000
  const MinuteMs := 60 * SecondMs
  const HourMs := 60 * MinuteMs
  const DayMs := 24 * HourMs

  /** The bucket for a login `diffMs` milliseconds ago: each count is the
    * whole number of its unit that has passed, and a unit is used only when
    * the next larger one has not yet been reached once. */
  function LastLoginAgo(dateString: Option<string>, diffMs: int): (r: Ago)
    ensures r.Never? <==> !Truthy(dateString)
    ensures r.JustNow? <==> Truthy(dateString) && diffMs < 0
    ensures r.Seconds? ==> r.n < 60 && r.n * SecondMs <= diffMs < (r.n + 1) * SecondMs
    ensures r.Minutes? ==> 1 <= r.n < 60 && r.n * MinuteMs <= diffMs < (r.n + 1) * MinuteMs
    ensures r.Hours? ==> 1 <= r.n < 24 && r.n * HourMs <= diffMs < (r.n + 1) * HourMs
    ensures r.Days? ==> 1 <= r.n < 30 && r.n * DayMs <= diffMs < (r.n + 1) * DayMs
    ensures r.OlderThanMonth? <==> Truthy(dateString) && diffMs >= 30 * DayMs
  {
    if !Truthy(dateString) then Never
    else if diffMs < 0 then JustNow
    else
      var sec := diffMs / 1000;
      var min := sec / 60;
      var hour := min / 60;
      var day := hour / 24;
      if sec < 60 then Seconds(sec)
      else if min < 60 then Minutes(min)
      else if hour < 24 then Hours(hour)
      else if day < 30 then Days(day)
      else OlderThanMonth
  }

  /** The size order of the buckets. */
  function Scale(a: Ago): nat
  {
    match a
    case Never => 0
    case JustNow => 1
    case Seconds(_) => 2
    case Minutes(_) => 3
    case Hours(_) => 4
    case Days(_) => 5
    case OlderThanMonth => 6
  }

  /** An older login never reads as more recent than a newer one. */
  lemma AgoMonotone(dateString: Option<string>, d1: int, d2: int)
    requires Truthy(dateString) && d1 <= d2
    ensures var a1, a2 := LastLoginAgo(dateString, d1), LastLoginAgo(dateString, d2);
      Scale(a1) < Scale(a2) || (Scale(a1) == Scale(a2) && (a1.Seconds? || a1.Minutes? || a1.Hours? || a1.Days? ==> a1.n <= a2.n))
  {
  }

  /** `formatLastLogin(dateString)`, with the clock difference and the
    * formatted month of the date as inputs. */
  function FormatLastLogin(dateString: Option<string>, diffMs: int, month: string): (r: string)
    ensures !Truthy(dateString) ==> r == "-"
    ensures Truthy(dateString) && diffMs < 0 ==> r == "たった今"
    ensures Truthy(dateString) && diffMs >= 30 * DayMs ==> r == month
    ensures var a := LastLoginAgo(dateString, diffMs);
      && (a.Seconds? ==> r == Text.NatToString(a.n) + "秒前")
      && (a.Minutes? ==> r == Text.NatToString(a.n) + "分前")
      && (a.Hours? ==> r == Text.NatToString(a.n) + "時間前")
      && (a.Days? ==> r == Text.NatToString(a.n) + "日前")
  {
    match LastLoginAgo(dateString, diffMs)
    case Never => "-"
    case JustNow => "たった今"
    case Seconds(n) => Text.NatToString(n) + "秒前"
    case Minutes(n) => Text.NatToString(n) + "分前"
    case Hours(n) => Text.NatToString(n) + "時間前"
    case Days(n) => Text.NatToString(n) + "日前"
    case OlderThanMonth => month
  }

  // ---------------------------------------------------------------------
  // Sorting the user table

  datatype AdminUser = AdminUser(id: string, email: Option<string>, name: Option<string>, role: Option<string>)

  datatype SortKey = ByName | ByRole | ByEmail
  datatype SortDir = Asc | Desc

  function Flip(d: SortDir): SortDir
  {
    if d == Asc then Desc else Asc
  }

  /** `roleRank[(role as Role) ?? "user"] ?? -1`: a missing role ranks as
    * "user", a name outside the four roles below all of them. */
  function RoleRank(role: Option<string>): (r: int)
    ensures -1 <= r <= 3
    ensures r == 3 <==> role == Some("superuser")
    ensures r == -1 <==> role.Some? && role.value !in {"superuser", "admin", "developer", "user"}
  {
    var name := role.GetOr("user");
    if name == "superuser" then 3
    else if name == "admin" then 2
    else if name == "developer" then 1
    else if name == "user" then 0
    else -1
  }

  /** The number the comparator subtracts for a column, under the sort
    * direction: `collation` ranks text as the Japanese collator orders it. */
  function SortingKey(key: SortKey, dir: SortDir, collation: string -> int): AdminUser -> int
  {
    (u: AdminUser) =>
      var k := match key
        case ByName => collation(u.name.GetOr(""))
        case ByEmail => collation(u.email.GetOr(""))
        case ByRole => RoleRank(u.role);
      if dir == Asc then k else -k
  }

  // ---------------------------------------------------------------------
  // Projects of the selected user

  datatype ProjectRow = ProjectRow(id: string, userId: Option<string>)

  /** `projectsOfUser`: nothing without a selected user, else the projects
    * with no owner or owned by that user, in order. */
  function ProjectsOfUser(projects: seq<ProjectRow>, userId: string): (r: seq<ProjectRow>)
    ensures |r| <= |projects|
    ensures userId == "" ==> r == []
    ensures forall p :: p in r ==> p in projects && (!Truthy(p.userId) || p.userId == Some(userId))
  {
    if userId == "" || projects == [] then []
    else
      var p := projects[0];
      var rest := ProjectsOfUser(projects[1..], userId);
      if !Truthy(p.userId) || p.userId.value == userId then [p] + rest else rest
  }

  /** Every ownerless or owned project is shown. */
  lemma {:induction false} ProjectsOfUserComplete(projects: seq<ProjectRow>, userId: string, p: ProjectRow)
    requires userId != "" && p in projects && (!Truthy(p.userId) || p.userId == Some(userId))
    ensures p in ProjectsOfUser(projects, userId)
  {
    if projects[0] != p {
      ProjectsOfUserComplete(projects[1..], userId, p);
    }
  }

  /** The shown projects are chosen project by project, so they keep the
    * order of the loaded list; its first shown project is the one the
    * selection falls back to. */
  lemma {:induction false} ProjectsOfUserConcat(a: seq<ProjectRow>, b: seq<ProjectRow>, userId: string)
    ensures ProjectsOfUser(a + b, userId) == ProjectsOfUser(a, userId) + ProjectsOfUser(b, userId)
  {
    if userId != "" && a != [] {
      assert (a + b)[0] == a[0];
      assert (a + b)[1..] == a[1..] + b;
      ProjectsOfUserConcat(a[1..], b, userId);
    } else if a == [] {
      assert a + b == b;
    }
  }

  predicate Lists(projects: seq<ProjectRow>, id: string)
  {
    exists i :: 0 <= i < |projects| && projects[i].id == id
  }

  /** The project selection after the shown list changes: kept while it is
    * still listed, else the first listed project, else none. */
  function NextSelection(shown: seq<ProjectRow>, previous: string): (r: string)
    ensures shown == [] ==> r == ""
    ensures shown != [] ==> Lists(shown, r)
    ensures Lists(shown, previous) ==> r == previous
    ensures shown != [] && !Lists(shown, previous) ==> r == shown[0].id
  {
    if shown == [] then ""
    else if Lists(shown, previous) then previous
    else shown[0].id
  }

  /** Re-running the selection rule changes nothing. */
  lemma NextSelectionIdempotent(shown: seq<ProjectRow>, previous: string)
    ensures NextSelection(shown, NextSelection(shown, previous)) == NextSelection(shown, previous)
  {
  }

  /** A request to create a user. */
  datatype CreateRequest = CreateRequest(email: string, name: string, role: string)

  /** The page's state that its handlers change. */
  class Page {
    var users: seq<AdminUser>
    var sortKey: SortKey
    var sortDir: SortDir
    var selectedUserId: string
    var projects: seq<ProjectRow>
    var selectedProjectId: string
    var email: string
    var name: string
    var role: string

    constructor()
      ensures users == [] && projects == []
      ensures sortKey == ByName && sortDir == Asc
      ensures selectedUserId == "" && selectedProjectId == ""
      ensures email == "" && name == "" && role == "user"
    {
      users := [];
      sortKey := ByName;
      sortDir := Asc;
      selectedUserId := "";
      projects := [];
      selectedProjectId := "";
      email := "";
      name := "";
      role := "user";
    }

    /** `toggleSort(key)`: the same column flips the direction, another
      * column becomes the sort column in ascending order. */
    method ToggleSort(key: SortKey)
      modifies this
      ensures sortKey == key
      ensures sortDir == if old(sortKey) == key then Flip(old(sortDir)) else Asc
      ensures users == old(users) && projects == old(projects)
      ensures selectedUserId == old(selectedUserId) && selectedProjectId == old(selectedProjectId)
      ensures email == old(email) && name == old(name) && role == old(role)
    {
      if sortKey == key {
        sortDir := Flip(sortDir);
      } else {
        sortKey := key;
        sortDir := Asc;
      }
    }

    /** `sortedUsers`: a sorted copy of `users`. */
    function SortedUsers(collation: string -> int): seq<AdminUser>
      reads this
    {
      SortBy(users, SortingKey(sortKey, sortDir, collation))
    }

    /** `projectsOfUser` for the current state. */
    function Shown(): seq<ProjectRow>
      reads this
    {
      ProjectsOfUser(projects, selectedUserId)
    }

    /** The effect on a change of the selected user: with no user, the
      * projects and the selection are cleared; with one, the projects are
      * reloaded (`fetched`, None when the request failed). */
    method OnSelectedUser(fetched: Option<seq<ProjectRow>>)
      modifies this
      ensures selectedUserId == "" ==> projects == [] && selectedProjectId == ""
      ensures selectedUserId != "" ==> projects == (if fetched.Some? then fetched.value else old(projects))
      ensures selectedUserId != "" ==> selectedProjectId == old(selectedProjectId)
      ensures selectedUserId == old(selectedUserId) && users == old(users)
      ensures sortKey == old(sortKey) && sortDir == old(sortDir)
      ensures email == old(email) && name == old(name) && role == old(role)
    {
      if selectedUserId == "" {
        projects := [];
        selectedProjectId := "";
      } else if fetched.Some? {
        projects := fetched.value;
      }
    }

    /** The effect on a change of the shown projects: with a user selected,
      * the selection follows `NextSelection`; without, nothing happens. */
    method SyncSelectedProject()
      modifies this
      ensures selectedProjectId == if selectedUserId == "" then old(selectedProjectId) else NextSelection(Shown(), old(selectedProjectId))
      ensures selectedUserId != "" && Shown() == [] ==> selectedProjectId == ""
      ensures selectedUserId != "" && Shown() != [] ==> Lists(Shown(), selectedProjectId)
      ensures projects == old(projects) && selectedUserId == old(selectedUserId) && users == old(users)
      ensures sortKey == old(sortKey) && sortDir == old(sortDir)
      ensures email == old(email) && name == old(name) && role == old(role)
    {
      if selectedUserId == "" {
        return;
      }
      var shown := ProjectsOfUser(projects, selectedUserId);
      if |shown| == 0 {
        selectedProjectId := "";
        return;
      }
      selectedProjectId := NextSelection(shown, selectedProjectId);
    }

    /** `handleCreateUser`: nothing is sent without an email (or a role);
      * otherwise the form's values are sent, and the form is reset only when
      * the creation succeeds. */
    method HandleCreateUser(created: bool) returns (sent: Option<CreateRequest>)
      modifies this
      ensures sent.None? <==> old(email) == "" || old(role) == ""
      ensures sent.Some? ==> sent.value == CreateRequest(old(email), old(name), old(role))
      ensures sent.Some? && created ==> email == "" && name == "" && role == "user"
      ensures sent.None? || !created ==> email == old(email) && name == old(name) && role == old(role)
      ensures users == old(users) && projects == old(projects)
      ensures selectedUserId == old(selectedUserId) && selectedProjectId == old(selectedProjectId)
      ensures sortKey == old(sortKey) && sortDir == old(sortDir)
    {
      if email == "" || role == "" {
        return None;
      }
      sent := Some(CreateRequest(email, name, role));
      if created {
        email := "";
        name := "";
        role := "user";
      }
    }
  }

  /** The sorted table holds the same users, ordered by the column's key
    * under the direction, and users with equal keys stay in table order. */
  lemma SortedUsersOrdered(users: seq<AdminUser>, key: SortKey, dir: SortDir, collation: string -> int, v: int)
    ensures multiset(SortBy(users, SortingKey(key, dir, collation))) == multiset(users)
    ensures SortedBy(SortBy(users, SortingKey(key, dir, collation)), SortingKey(key, dir, collation))
    ensures WithKey(SortBy(users, SortingKey(key, dir, collation)), SortingKey(key, dir, collation), v)
         == WithKey(users, SortingKey(key, dir, collation), v)
  {
    SortBySorted(users, SortingKey(key, dir, collation));
    SortByStable(users, SortingKey(key, dir, collation), v);
  }

  /** Sorting by role descending puts superusers first: ranks never rise
    * down the table. */
  lemma RoleDescending(users: seq<AdminUser>, collation: string -> int)
    ensures var s := SortBy(users, SortingKey(ByRole, Desc, collation));
      forall i, j :: 0 <= i < j < |s| ==> RoleRank(s[i].role) >= RoleRank(s[j].role)
  {
    var f := SortingKey(ByRole, Desc, collation);
    SortBySorted(users, f);
    var s := SortBy(users, f);
    forall i, j | 0 <= i < j < |s|
      ensures RoleRank(s[i].role) >= RoleRank(s[j].role)
    {
      assert f(s[i]) <= f(s[j]);
    }
  }
}
