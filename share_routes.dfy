/** The six share routes: issuing and using the permanent personal link, and
    issuing, reading and using a per-reminder share link. Tokens that the source
    draws from `crypto.randomBytes` and the clock are parameters here. */
module ShareRoutes {
  import opened Wrappers
  import opened UserModel
  import opened ReminderModel
  import opened Database
  import opened ShareLinks

  /** generate-personal-link. A user without a (truthy) personal token gets the
      fresh one stored; a user who has one gets it back unchanged, so the token is
      never rotated. A caller whose user document is gone makes the handler throw. */
  method GeneratePersonalLink(db: Db, caller: UserId, freshToken: string) returns (res: Response<string>)
    requires db.Valid()
    requires FreshPersonalToken(db.users, freshToken)
    modifies db
    ensures db.Valid()
    ensures db.reminders == old(db.reminders)
    ensures caller !in old(db.users) ==> res == ServerError && db.users == old(db.users)
    ensures caller in old(db.users) && Truthy(old(db.users)[caller].personalContactToken) ==>
              res == Ok(old(db.users)[caller].personalContactToken.value) && db.users == old(db.users)
    ensures caller in old(db.users) && !Truthy(old(db.users)[caller].personalContactToken) ==>
              res == Ok(freshToken)
              && db.users == old(db.users)[caller := old(db.users)[caller].(personalContactToken := Some(freshToken))]
    ensures res.Ok? ==> caller in db.users && db.users[caller].personalContactToken == Some(res.value)
  {
    if caller !in db.users {
      return ServerError;
    }
    var user := db.users[caller];
    if !Truthy(user.personalContactToken) {
      user := user.(personalContactToken := Some(freshToken));
      db.users := db.users[caller := user];
    }
    res := Ok(user.personalContactToken.value);
  }

  /** Issuing the personal link twice returns the same token both times. */
  method PersonalLinkIsStable(db: Db, caller: UserId, token1: string, token2: string)
      returns (first: Response<string>, second: Response<string>)
    requires db.Valid()
    requires FreshPersonalToken(db.users, token1) && FreshPersonalToken(db.users, token2)
    requires token1 != token2
    modifies db
    ensures db.Valid()
    ensures first == second
  {
    first := GeneratePersonalLink(db, caller, token1);
    second := GeneratePersonalLink(db, caller, token2);
  }

  /** submit-personal-contact. An unknown personal token is refused with 404 and
      nothing is created. Otherwise the new reminder described by
      `PersonalReminder` is stored under the fresh id, owned by the token's user
      (the only one while personal tokens are distinct); a truthy event type
      outside the enum makes saving throw, storing nothing. */
  method SubmitPersonalContact(db: Db, token: string, form: PersonalForm, now: int, freshId: ReminderId)
      returns (res: Response<Option<string>>)
    requires freshId !in db.reminders
    requires db.Valid()
    modifies db
    ensures db.Valid()
    ensures db.users == old(db.users)
    ensures res.NotFound? <==> !exists u :: u in db.users && db.users[u].personalContactToken == Some(token)
    ensures !res.Ok? ==> db.reminders == old(db.reminders)
    ensures res.Ok? ==> res.value == form.contact.name
    ensures res.Ok? ==> exists u :: u in db.users && db.users[u].personalContactToken == Some(token)
                          && PersonalReminder(u, form, now).Some?
                          && db.reminders == old(db.reminders)[freshId := PersonalReminder(u, form, now).value]
    ensures res.Ok? || res.NotFound? || res.ServerError?
    ensures res.Ok? <==> (exists u :: u in db.users && db.users[u].personalContactToken == Some(token))
                         && !(Truthy(form.eventType) && ParseEventType(form.eventType.value).None?)
    ensures res.ServerError? <==> (exists u :: u in db.users && db.users[u].personalContactToken == Some(token))
                                  && Truthy(form.eventType) && ParseEventType(form.eventType.value).None?
    ensures res.Ok? && PersonalTokensDistinct(db.users) ==>
              forall u :: u in db.users && db.users[u].personalContactToken == Some(token) ==>
                db.reminders == old(db.reminders)[freshId := PersonalReminder(u, form, now).value]
    ensures ShareTokensDistinct(old(db.reminders)) ==> ShareTokensDistinct(db.reminders)
  {
    if !exists u :: u in db.users && db.users[u].personalContactToken == Some(token) {
      return NotFound;
    }
    var u :| u in db.users && db.users[u].personalContactToken == Some(token);
    var created := PersonalReminder(u, form, now);
    if created.None? {
      return ServerError;
    }
    if PersonalTokensDistinct(db.users) {
      forall v | v in db.users && db.users[v].personalContactToken == Some(token) ensures v == u {
        PersonalTokenOwnerUnique(db.users, token, u, v);
      }
    }
    db.reminders := db.reminders[freshId := created.value];
    res := Ok(form.contact.name);
  }

  /** With distinct personal tokens, the user a personal token designates is unique. */
  lemma PersonalTokenOwnerUnique(users: map<UserId, User>, token: string, u: UserId, v: UserId)
    requires PersonalTokensDistinct(users)
    requires u in users && users[u].personalContactToken == Some(token)
    requires v in users && users[v].personalContactToken == Some(token)
    ensures u == v
  {
  }

  /** personal-details: the name and email of the token's user, or 404. */
  method PersonalDetails(db: Db, token: string) returns (res: Response<(string, string)>)
    ensures res.NotFound? <==> !exists u :: u in db.users && db.users[u].personalContactToken == Some(token)
    ensures res.Ok? ==> exists u :: u in db.users && db.users[u].personalContactToken == Some(token)
                          && res.value == (db.users[u].name, db.users[u].email)
    ensures res.Ok? || res.NotFound?
  {
    if !exists u :: u in db.users && db.users[u].personalContactToken == Some(token) {
      return NotFound;
    }
    var u :| u in db.users && db.users[u].personalContactToken == Some(token);
    res := Ok((db.users[u].name, db.users[u].email));
  }

  /** What generate-link returns: the token and its expiry. */
  datatype ShareGrant = ShareGrant(token: string, expiresAt: int)

  /** generate-link. 404 for a missing reminder, then 401 for a caller who is not
      its owner, both leaving the store unchanged. Saving re-validates the whole
      document, so a reminder an update left without a title makes the save throw
      (500, nothing stored). Otherwise the reminder gets the fresh token with an
      expiry 24 hours from now, replacing any earlier pair. */
  method GenerateLink(db: Db, caller: UserId, id: ReminderId, freshToken: string, now: int)
      returns (res: Response<ShareGrant>)
    requires FreshShareToken(db.reminders, freshToken)
    requires db.Valid()
    modifies db
    ensures db.Valid()
    ensures db.users == old(db.users)
    ensures id !in old(db.reminders) ==> res == NotFound && db.reminders == old(db.reminders)
    ensures id in old(db.reminders) && old(db.reminders)[id].user != caller ==>
              res == Unauthorized && db.reminders == old(db.reminders)
    ensures id in old(db.reminders) && old(db.reminders)[id].user == caller && !Conforms(old(db.reminders)[id]) ==>
              res == ServerError && db.reminders == old(db.reminders)
    ensures id in old(db.reminders) && old(db.reminders)[id].user == caller && Conforms(old(db.reminders)[id]) ==>
              res == Ok(ShareGrant(freshToken, now + SHARE_LINK_LIFETIME_MS))
              && db.reminders == old(db.reminders)[id := IssueShare(old(db.reminders)[id], freshToken, now)]
    ensures ShareTokensDistinct(old(db.reminders)) ==> ShareTokensDistinct(db.reminders)
  {
    if id !in db.reminders {
      return NotFound;
    }
    var r := db.reminders[id];
    if r.user != caller {
      return Unauthorized;
    }
    if !Conforms(r) {
      return ServerError;
    }
    var issued := IssueShare(r, freshToken, now);
    db.reminders := db.reminders[id := issued];
    res := Ok(ShareGrant(freshToken, issued.shareTokenExpiry.value));
  }

  /** submit-contact. When no reminder accepts the token at `now` (unknown,
      cleared or expired), 404 and nothing changes. Otherwise one accepting
      reminder is loaded; if an update left it without a title, saving fails
      validation (500) and nothing changes, so its link stays open. Otherwise it
      gets the submitted contact and loses its share token, and the reply carries
      its title. */
  method SubmitContact(db: Db, token: string, form: ContactForm, now: int) returns (res: Response<string>)
    requires db.Valid()
    modifies db
    ensures db.Valid()
    ensures db.users == old(db.users)
    ensures res.Ok? || res.NotFound? || res.ServerError?
    ensures res.NotFound? <==> !exists id :: id in old(db.reminders) && AcceptsToken(old(db.reminders)[id], token, now)
    ensures !res.Ok? ==> db.reminders == old(db.reminders)
    ensures res.ServerError? ==> exists id :: id in old(db.reminders) && AcceptsToken(old(db.reminders)[id], token, now)
                                   && !Conforms(old(db.reminders)[id])
    ensures res.Ok? ==> exists id :: id in old(db.reminders) && AcceptsToken(old(db.reminders)[id], token, now)
                          && Conforms(old(db.reminders)[id])
                          && res.value == old(db.reminders)[id].title
                          && db.reminders == old(db.reminders)[id := ApplySubmission(old(db.reminders)[id], form)]
    ensures ((exists id :: id in old(db.reminders) && AcceptsToken(old(db.reminders)[id], token, now))
             && (forall id :: id in old(db.reminders) && AcceptsToken(old(db.reminders)[id], token, now) ==>
                   Conforms(old(db.reminders)[id]))) ==> res.Ok?
    ensures (forall id :: id in old(db.reminders) && AcceptsToken(old(db.reminders)[id], token, now) ==>
               !Conforms(old(db.reminders)[id])) ==> !res.Ok?
    ensures ShareTokensDistinct(old(db.reminders)) ==> ShareTokensDistinct(db.reminders)
    ensures ShareTokensDistinct(old(db.reminders)) && res.Ok? ==>
              forall id :: id in db.reminders ==> !AcceptsToken(db.reminders[id], token, now)
  {
    if !exists id :: id in db.reminders && AcceptsToken(db.reminders[id], token, now) {
      return NotFound;
    }
    var id :| id in db.reminders && AcceptsToken(db.reminders[id], token, now);
    var r := db.reminders[id];
    if !Conforms(r) {
      return ServerError;
    }
    db.reminders := db.reminders[id := ApplySubmission(r, form)];
    res := Ok(r.title);
  }

  /** With distinct share tokens, at most one reminder accepts a token. */
  lemma AcceptingReminderUnique(reminders: map<ReminderId, Reminder>, token: string, now: int, a: ReminderId, b: ReminderId)
    requires ShareTokensDistinct(reminders)
    requires a in reminders && AcceptsToken(reminders[a], token, now)
    requires b in reminders && AcceptsToken(reminders[b], token, now)
    ensures a == b
  {
  }

  /** The link works once: after a successful submission, a second one with the
      same token is refused. A submission refused for any reason leaves the store
      as it was, so the second one is answered the same way. */
  method SecondSubmissionRefused(db: Db, token: string, form1: ContactForm, form2: ContactForm, now: int)
      returns (first: Response<string>, second: Response<string>)
    requires db.Valid()
    requires ShareTokensDistinct(db.reminders)
    modifies db
    ensures db.Valid()
    ensures first.Ok? ==> second == NotFound
    ensures !first.Ok? ==> second == first
  {
    ghost var before := db.reminders;
    first := SubmitContact(db, token, form1, now);
    if first.ServerError? {
      ghost var a :| a in before && AcceptsToken(before[a], token, now) && !Conforms(before[a]);
      forall b | b in before && AcceptsToken(before[b], token, now) ensures !Conforms(before[b]) {
        AcceptingReminderUnique(before, token, now, a, b);
      }
    }
    second := SubmitContact(db, token, form2, now);
  }

  /** details. A token no reminder accepts at `now` gets 404; otherwise the
      title, event type, date and notes of an accepting reminder, and nothing
      else of it. */
  method Details(db: Db, token: string, now: int) returns (res: Response<ReminderDetails>)
    ensures res.NotFound? <==> !exists id :: id in db.reminders && AcceptsToken(db.reminders[id], token, now)
    ensures res.Ok? || res.NotFound?
    ensures res.Ok? ==> exists id :: id in db.reminders && AcceptsToken(db.reminders[id], token, now)
                          && res.value == DetailsOf(db.reminders[id])
  {
    if !exists id :: id in db.reminders && AcceptsToken(db.reminders[id], token, now) {
      return NotFound;
    }
    var id :| id in db.reminders && AcceptsToken(db.reminders[id], token, now);
    res := Ok(DetailsOf(db.reminders[id]));
  }
}
