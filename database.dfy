/** The two collections the backend reads and writes, as one object whose fields
    the route handlers update in place. */
module Database {
  import opened Wrappers
  import opened UserModel
  import opened ReminderModel

  /** No two users hold the same personal contact token. */
  ghost predicate PersonalTokensDistinct(users: map<UserId, User>) {
    forall a, b ::
      (a in users && b in users && users[a].personalContactToken.Some?
       && users[a].personalContactToken == users[b].personalContactToken) ==> a == b
  }

  /** No two reminders hold the same share token. The schema has no index for it;
      it holds because tokens are random, and an update through the reminder
      controller can break it by copying another reminder's token. */
  ghost predicate ShareTokensDistinct(reminders: map<ReminderId, Reminder>) {
    forall a, b ::
      (a in reminders && b in reminders && reminders[a].shareToken.Some?
       && reminders[a].shareToken == reminders[b].shareToken) ==> a == b
  }

  /** A freshly generated token: non-empty and held by no reminder. */
  ghost predicate FreshShareToken(reminders: map<ReminderId, Reminder>, token: string) {
    token != "" && forall id :: id in reminders ==> reminders[id].shareToken != Some(token)
  }

  /** A freshly generated personal token: non-empty and held by no user. */
  ghost predicate FreshPersonalToken(users: map<UserId, User>, token: string) {
    token != "" && forall id :: id in users ==> users[id].personalContactToken != Some(token)
  }

  class Db {
    var reminders: map<ReminderId, Reminder>
    var users: map<UserId, User>

    /** The invariants the user collection keeps: the unique email index, and
        distinct personal tokens. */
    ghost predicate Valid()
      reads this
    {
      EmailsUnique(users) && PersonalTokensDistinct(users)
    }

    constructor (users0: map<UserId, User>)
      requires EmailsUnique(users0) && PersonalTokensDistinct(users0)
      ensures Valid() && reminders == map[] && users == users0
    {
      reminders := map[];
      users := users0;
    }
  }
}
