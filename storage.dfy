/**
 * The browser's local key-value store, as the dashboard script uses it:
 * each key holds a decoded value of its own type instead of JSON text, and
 * every setItem is recorded by key in a write log.
 */
module Storage {
  import opened Wrappers
  import opened Records

  const UserIdKey: string := "userId"
  const PendingKey: string := "pendingApplications"
  const NotificationsKey: string := "userNotifications"

  /** The per-user key, "userApplications_" followed by the user id. */
  function UserApplicationsKey(uid: string): (key: string)
    ensures |key| == 17 + |uid| && key[17..] == uid
  {
    "userApplications_" + uid
  }

  /** Everything the store holds, as one value. */
  datatype StoreContents = StoreContents(
    userId: Option<string>,
    pendingApplications: seq<Application>,
    allApplications: seq<Application>,
    userApplications: map<string, seq<Application>>,
    userNotifications: seq<Notification>,
    writes: seq<string>)

  class Store {
    /** "userId"; None when the key is absent. */
    var userId: Option<string>
    /** "pendingApplications"; an absent key reads as the empty list. */
    var pendingApplications: seq<Application>
    /** "allApplications", maintained by the admin side and only read here. */
    var allApplications: seq<Application>
    /** "userApplications_<id>" for each user id that has a list. */
    var userApplications: map<string, seq<Application>>
    /** "userNotifications"; an absent key reads as the empty list. */
    var userNotifications: seq<Notification>
    /** The key of every setItem, oldest first. */
    var writes: seq<string>

    function Contents(): StoreContents
      reads this
    {
      StoreContents(userId, pendingApplications, allApplications, userApplications, userNotifications, writes)
    }

    /** The list under "userApplications_<uid>", or the empty list when the key is absent. */
    function UserApplications(uid: string): seq<Application>
      reads this
    {
      if uid in userApplications then userApplications[uid] else []
    }

    constructor (userId: Option<string>, pendingApplications: seq<Application>,
                 allApplications: seq<Application>, userApplications: map<string, seq<Application>>,
                 userNotifications: seq<Notification>)
      ensures Contents() == StoreContents(userId, pendingApplications, allApplications,
                                          userApplications, userNotifications, [])
    {
      this.userId := userId;
      this.pendingApplications := pendingApplications;
      this.allApplications := allApplications;
      this.userApplications := userApplications;
      this.userNotifications := userNotifications;
      this.writes := [];
    }

    method SetUserId(uid: string)
      modifies this
      ensures Contents() == old(Contents()).(userId := Some(uid), writes := old(writes) + [UserIdKey])
    {
      userId := Some(uid);
      writes := writes + [UserIdKey];
    }

    method SetPendingApplications(apps: seq<Application>)
      modifies this
      ensures Contents() == old(Contents()).(pendingApplications := apps, writes := old(writes) + [PendingKey])
    {
      pendingApplications := apps;
      writes := writes + [PendingKey];
    }

    method SetUserApplications(uid: string, apps: seq<Application>)
      modifies this
      ensures Contents() == old(Contents()).(userApplications := old(userApplications)[uid := apps],
                                             writes := old(writes) + [UserApplicationsKey(uid)])
      ensures UserApplications(uid) == apps
      ensures forall u :: u != uid ==> UserApplications(u) == old(UserApplications(u))
    {
      userApplications := userApplications[uid := apps];
      writes := writes + [UserApplicationsKey(uid)];
    }

    method SetUserNotifications(notifications: seq<Notification>)
      modifies this
      ensures Contents() == old(Contents()).(userNotifications := notifications, writes := old(writes) + [NotificationsKey])
    {
      userNotifications := notifications;
      writes := writes + [NotificationsKey];
    }
  }
}
