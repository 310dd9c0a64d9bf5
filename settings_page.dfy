/**
 * The settings page (src/app/admin/settings/page.tsx): the user list with its
 * guarded add and its remove, and the three notification switches.
 */
module SettingsPage {
  import opened Types
  import opened SeqOps

  /** The role picker offers only Worker and Admin. */
  type SelectableRole = r: UserRole | r != Manager witness Worker

  datatype NotificationKey = DailySummary | IncompleteLogs | LowStock

  datatype Notifications = Notifications(dailySummary: bool, incompleteLogs: bool, lowStock: bool) {
    function Get(key: NotificationKey): bool {
      match key
      case DailySummary => dailySummary
      case IncompleteLogs => incompleteLogs
      case LowStock => lowStock
    }
  }

  function InitialNotifications(): (n: Notifications)
    ensures n.Get(DailySummary) && !n.Get(IncompleteLogs) && n.Get(LowStock)
  {
    Notifications(true, false, true)
  }

  /** `{ ...prev, [key]: !prev[key] }`: only the named flag flips. */
  function Toggle(n: Notifications, key: NotificationKey): (r: Notifications)
    ensures r.Get(key) == !n.Get(key)
    ensures forall k :: k != key ==> r.Get(k) == n.Get(k)
  {
    match key
    case DailySummary => n.(dailySummary := !n.dailySummary)
    case IncompleteLogs => n.(incompleteLogs := !n.incompleteLogs)
    case LowStock => n.(lowStock := !n.lowStock)
  }

  /** Two flips of the same switch restore the preferences. */
  lemma ToggleTwiceRestores(n: Notifications, key: NotificationKey)
    ensures Toggle(Toggle(n, key), key) == n
  {
  }

  /** `users.filter(u => u.id !== id)` */
  function RemoveUser(users: seq<Employee>, id: string): (r: seq<Employee>)
    ensures forall u :: u in r <==> u in users && u.id != id
    ensures (forall i :: 0 <= i < |users| ==> users[i].id != id) ==> r == users
  {
    Filter(users, (u: Employee) => u.id != id)
  }

  /** Removal keeps the remaining users in order: it distributes over any split of the list. */
  lemma RemoveKeepsOrder(front: seq<Employee>, back: seq<Employee>, id: string)
    ensures RemoveUser(front + back, id) == RemoveUser(front, id) + RemoveUser(back, id)
  {
    FilterAppend(front, back, (u: Employee) => u.id != id);
  }

  class Settings {
    var users: seq<Employee>
    var newUserName: string
    var newUserRole: SelectableRole
    var notifications: Notifications

    constructor ()
      ensures users == MockEmployees() && newUserName == "" && newUserRole == Worker
      ensures notifications == InitialNotifications()
      ensures notifications.dailySummary && !notifications.incompleteLogs && notifications.lowStock
    {
      users := MockEmployees();
      newUserName := "";
      newUserRole := Worker;
      notifications := InitialNotifications();
    }

    method SetNewUserName(s: string)
      modifies this`newUserName
      ensures newUserName == s
    {
      newUserName := s;
    }

    method SetNewUserRole(r: SelectableRole)
      modifies this`newUserRole
      ensures newUserRole == r
    {
      newUserRole := r;
    }

    /**
     * `handleAddUser`: an empty name is refused and nothing changes; otherwise
     * one user `"emp-" + stamp` (`stamp` stands for `Date.now()`) with the typed
     * name and the selected role is appended and the name box is cleared.
     */
    method HandleAddUser(stamp: string) returns (added: bool)
      modifies this`users, this`newUserName
      ensures added <==> old(newUserName) != ""
      ensures !added ==> users == old(users) && newUserName == old(newUserName)
      ensures added ==> users == old(users) + [Employee("emp-" + stamp, old(newUserName), newUserRole)]
                        && newUserName == ""
      ensures added ==> users[|users| - 1].role != Manager
    {
      if newUserName == "" {
        return false;
      }
      users := users + [Employee("emp-" + stamp, newUserName, newUserRole)];
      newUserName := "";
      added := true;
    }

    /** The Remove button of a row: every user with that id goes, the rest keep their order. */
    method HandleRemoveUser(id: string)
      modifies this`users
      ensures users == RemoveUser(old(users), id)
    {
      users := RemoveUser(users, id);
    }

    /** `handleNotificationChange` */
    method HandleNotificationChange(key: NotificationKey)
      modifies this`notifications
      ensures notifications == Toggle(old(notifications), key)
    {
      notifications := Toggle(notifications, key);
    }
  }
}
