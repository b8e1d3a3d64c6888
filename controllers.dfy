/**
 * The three CRUD controllers. Each one owns a module-level array (notifications, admins,
 * users); here they are instances of `RecordStore.Store`, each with its controller's 404
 * message. The admin controller also answers with both the admins and the users, but its
 * users are those of a different model file (`backend/models/userModel.js`, where the user
 * controller loads `package/backend/models/userModel.js`): a fourth array that no handler
 * changes and that is only ever listed, so it never answers 404.
 */
module Controllers {
  import opened RecordStore

  const NotificationNotFound: string := "Notificación no encontrada"
  const AdminNotFound: string := "Administrador no encontrado"
  const UserNotFound: string := "Usuario no encontrado"

  class Server {
    const notifications: Store
    const admins: Store
    const users: Store
    /** The users array the admin controller loads. */
    const adminUsers: Store

    /** The four collections are distinct arrays. */
    ghost predicate Valid()
      reads this
    {
      && notifications != admins && notifications != users && admins != users
      && adminUsers != notifications && adminUsers != admins && adminUsers != users
      && notifications.notFoundMessage == NotificationNotFound
      && admins.notFoundMessage == AdminNotFound
      && users.notFoundMessage == UserNotFound
    }

    constructor(initialNotifications: seq<Record>, initialAdmins: seq<Record>, initialUsers: seq<Record>,
                initialAdminUsers: seq<Record>)
      ensures Valid()
      ensures fresh(notifications) && fresh(admins) && fresh(users) && fresh(adminUsers)
      ensures notifications.records == initialNotifications
      ensures admins.records == initialAdmins
      ensures users.records == initialUsers
      ensures adminUsers.records == initialAdminUsers
    {
      notifications := new Store(initialNotifications, NotificationNotFound);
      admins := new Store(initialAdmins, AdminNotFound);
      users := new Store(initialUsers, UserNotFound);
      adminUsers := new Store(initialAdminUsers, UserNotFound);
    }

    // ----- notificationController -----

    method GetNotifications() returns (reply: Reply)
      ensures reply == Listed(notifications.records)
    {
      reply := notifications.List();
    }

    method CreateNotification(body: Record) returns (reply: Reply)
      requires Valid()
      modifies notifications
      ensures Creates(old(notifications.records), notifications.records, body, reply)
    {
      reply := notifications.Create(body);
    }

    method UpdateNotification(param: string, body: Record) returns (reply: Reply)
      requires Valid()
      modifies notifications
      ensures Updates(old(notifications.records), notifications.records, param, body, reply, NotificationNotFound)
    {
      reply := notifications.Update(param, body);
    }

    method DeleteNotification(param: string) returns (reply: Reply)
      requires Valid()
      modifies notifications
      ensures Deletes(old(notifications.records), notifications.records, param, reply, NotificationNotFound)
    {
      reply := notifications.Delete(param);
    }

    // ----- adminController -----

    method GetAdmins() returns (reply: Reply)
      ensures reply == Listed(admins.records)
    {
      reply := admins.List();
    }

    method CreateAdmin(body: Record) returns (reply: Reply)
      requires Valid()
      modifies admins
      ensures Creates(old(admins.records), admins.records, body, reply)
    {
      reply := admins.Create(body);
    }

    method UpdateAdmin(param: string, body: Record) returns (reply: Reply)
      requires Valid()
      modifies admins
      ensures Updates(old(admins.records), admins.records, param, body, reply, AdminNotFound)
    {
      reply := admins.Update(param, body);
    }

    method DeleteAdmin(param: string) returns (reply: Reply)
      requires Valid()
      modifies admins
      ensures Deletes(old(admins.records), admins.records, param, reply, AdminNotFound)
    {
      reply := admins.Delete(param);
    }

    /** `res.json({ admins, users })`: both collections of the admin controller, unchanged. */
    method GetAdminsAndUsers() returns (reply: Reply)
      ensures reply == Combined(admins.records, adminUsers.records)
    {
      reply := Combined(admins.records, adminUsers.records);
    }

    // ----- userController -----

    method GetUsers() returns (reply: Reply)
      ensures reply == Listed(users.records)
    {
      reply := users.List();
    }

    method CreateUser(body: Record) returns (reply: Reply)
      requires Valid()
      modifies users
      ensures Creates(old(users.records), users.records, body, reply)
      ensures adminUsers.records == old(adminUsers.records)
    {
      reply := users.Create(body);
    }

    method UpdateUser(param: string, body: Record) returns (reply: Reply)
      requires Valid()
      modifies users
      ensures Updates(old(users.records), users.records, param, body, reply, UserNotFound)
    {
      reply := users.Update(param, body);
    }

    method DeleteUser(param: string) returns (reply: Reply)
      requires Valid()
      modifies users
      ensures Deletes(old(users.records), users.records, param, reply, UserNotFound)
    {
      reply := users.Delete(param);
    }
  }
}
