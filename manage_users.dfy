/** The admin users table: every non-admin account with its activity, a block toggle,
    and numbered page buttons, five rows a page. */
module ManageUsers {
  import opened Wrappers
  import opened Seqs
  import opened Accounts
  import opened Paging

  /** What the three per-user lookups (cart, wishlist, orders) return. */
  datatype Activity = Activity(cartLines: nat, wishlistEntries: nat, orderTotals: seq<int>)

  /** `{ ...user, cartCount, wishlistCount, totalOrders, totalSpent }`. */
  datatype UserRow = UserRow(user: User, cartCount: nat, wishlistCount: nat, totalOrders: nat, totalSpent: int)

  const FetchFailedMessage := "Failed to fetch users"
  const ToggleFailedMessage := "Failed to update user status"

  /** One user's row. `activity` is `None` when any of the three lookups failed, which
      gives zeros for all four numbers. */
  function RowOf(u: User, activity: Option<Activity>): (row: UserRow)
    ensures row.user == u
    ensures activity.None? ==> row.cartCount == 0 && row.wishlistCount == 0 && row.totalOrders == 0 && row.totalSpent == 0
    ensures activity.Some? ==>
      row.cartCount == activity.value.cartLines && row.wishlistCount == activity.value.wishlistEntries
      && row.totalOrders == |activity.value.orderTotals| && row.totalSpent == Sum(activity.value.orderTotals)
  {
    match activity
    case None => UserRow(u, 0, 0, 0, 0)
    case Some(a) => UserRow(u, a.cartLines, a.wishlistEntries, |a.orderTotals|, Sum(a.orderTotals))
  }

  /** `usersWithStats.filter(Boolean)`: admins map to `null` and are dropped. */
  function WithStats(users: seq<User>, lookup: User -> Option<Activity>): seq<UserRow> {
    Map(Filter(users, (u: User) => !IsAdmin(u)), (u: User) => RowOf(u, lookup(u)))
  }

  /** Admins never appear; every other user does, in a row built from its own lookup. */
  lemma WithStatsRows(users: seq<User>, lookup: User -> Option<Activity>)
    ensures forall r | r in WithStats(users, lookup) :: r.user in users && !IsAdmin(r.user) && r == RowOf(r.user, lookup(r.user))
    ensures forall u | u in users && !IsAdmin(u) :: RowOf(u, lookup(u)) in WithStats(users, lookup)
  {
    var kept := Filter(users, (u: User) => !IsAdmin(u));
    var rows := WithStats(users, lookup);
    forall r | r in rows
      ensures r.user in users && !IsAdmin(r.user) && r == RowOf(r.user, lookup(r.user))
    {
      var k :| 0 <= k < |rows| && rows[k] == r;
      assert kept[k] in kept;
    }
    forall u | u in users && !IsAdmin(u)
      ensures RowOf(u, lookup(u)) in rows
    {
      var k :| 0 <= k < |kept| && kept[k] == u;
      assert rows[k] == RowOf(u, lookup(u));
    }
  }

  /** Non-admin users keep the order in which the server listed them. */
  lemma WithStatsKeepsOrder(users: seq<User>, lookup: User -> Option<Activity>)
    ensures Map(WithStats(users, lookup), (r: UserRow) => r.user) == Filter(users, (u: User) => !IsAdmin(u))
  {
    var kept := Filter(users, (u: User) => !IsAdmin(u));
    var names := Map(WithStats(users, lookup), (r: UserRow) => r.user);
    assert |names| == |kept|;
    forall k | 0 <= k < |kept|
      ensures names[k] == kept[k]
    {
    }
  }

  /** Only admins are left out: with none of them, every user has a row. */
  lemma NoAdminsAllListed(users: seq<User>, lookup: User -> Option<Activity>)
    requires forall k | 0 <= k < |users| :: !IsAdmin(users[k])
    ensures |WithStats(users, lookup)| == |users|
  {
    FilterAll(users, (u: User) => !IsAdmin(u));
  }

  /** `prev.map(user => user.id === userId ? { ...user, isBlocked: blocked } : user)`. */
  function WithBlocked(rows: seq<UserRow>, userId: string, blocked: bool): seq<UserRow> {
    Map(rows, (r: UserRow) => if r.user.id == userId then r.(user := r.user.(isBlocked := blocked)) else r)
  }

  /** Only rows of `userId` change, and in them only the blocked flag. */
  lemma WithBlockedOnlyTarget(rows: seq<UserRow>, userId: string, blocked: bool)
    ensures var after := WithBlocked(rows, userId, blocked);
      |after| == |rows|
      && forall k | 0 <= k < |rows| ::
        if rows[k].user.id == userId then after[k].user.isBlocked == blocked && after[k] == rows[k].(user := after[k].user)
          && after[k].user == rows[k].user.(isBlocked := blocked)
        else after[k] == rows[k]
  {
  }

  /** The numbers on the page buttons: `1..Math.ceil(n / 5)`, none for a single page. */
  function PageButtons(n: nat): (buttons: seq<int>)
    ensures TotalPages(n) > 1 ==> |buttons| == TotalPages(n) && forall k | 0 <= k < |buttons| :: buttons[k] == k + 1
    ensures TotalPages(n) <= 1 ==> buttons == []
  {
    if TotalPages(n) > 1 then seq(TotalPages(n), (k: int) => k + 1) else []
  }

  /** Every button leads to a non-empty page, and every row is on the page of some button. */
  lemma PageButtonsCoverRows<T>(rows: seq<T>)
    requires TotalPages(|rows|) > 1
    ensures forall b | b in PageButtons(|rows|) :: |PageOf(rows, b)| > 0
    ensures forall i | 0 <= i < |rows| :: i / PageSize + 1 in PageButtons(|rows|)
  {
    var buttons := PageButtons(|rows|);
    forall b | b in buttons
      ensures |PageOf(rows, b)| > 0
    {
      PageContents(rows, b);
    }
    forall i | 0 <= i < |rows|
      ensures i / PageSize + 1 in buttons
    {
      RowOnItsPage(rows, i);
      assert buttons[i / PageSize] == i / PageSize + 1;
    }
  }

  class UsersAdmin {
    var users: seq<UserRow>
    var loading: bool
    var currentPage: int

    constructor ()
      ensures users == [] && loading && currentPage == 1
    {
      users, loading, currentPage := [], true, 1;
    }

    /** `currentUsers`: `users.slice((currentPage - 1) * 5, currentPage * 5)`. */
    function CurrentUsers(): seq<UserRow>
      reads this
    {
      PageOf(users, currentPage)
    }

    /** `fetchUsers`: on success the rows of every non-admin replace the list; on a
        failure of the users request the list stays and an error is shown. */
    method FetchUsers(reply: Option<seq<User>>, lookup: User -> Option<Activity>) returns (message: Option<string>)
      modifies this`users, this`loading
      ensures !loading
      ensures reply.Some? ==> users == WithStats(reply.value, lookup) && message.None?
      ensures reply.None? ==> users == old(users) && message == Some(FetchFailedMessage)
    {
      loading := true;
      if reply.Some? {
        users := WithStats(reply.value, lookup);
        message := None;
      } else {
        message := Some(FetchFailedMessage);
      }
      loading := false;
    }

    /** `toggleUserBlock`: after a successful PATCH of `isBlocked: !currentStatus`,
        that user's flag becomes `!currentStatus`; on failure nothing changes. */
    method ToggleUserBlock(userId: string, currentStatus: bool, reply: Reply<()>) returns (message: string)
      modifies this`users
      ensures reply.Ok? ==>
        users == WithBlocked(old(users), userId, !currentStatus)
        && message == (if !currentStatus then "User blocked successfully" else "User unblocked successfully")
      ensures !reply.Ok? ==> users == old(users) && message == ToggleFailedMessage
    {
      if reply.Ok? {
        users := WithBlocked(users, userId, !currentStatus);
        message := if !currentStatus then "User blocked successfully" else "User unblocked successfully";
      } else {
        message := ToggleFailedMessage;
      }
    }

    /** `handlePageChange`. */
    method HandlePageChange(page: int)
      modifies this`currentPage
      ensures currentPage == page
    {
      currentPage := page;
    }
  }
}
