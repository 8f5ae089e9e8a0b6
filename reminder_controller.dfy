/** The protected reminder endpoints: list, create, get, update and delete, each
    acting for an already authenticated caller. */
module ReminderController {
  import opened Wrappers
  import opened UserModel
  import opened ReminderModel
  import opened Database

  /** Entries listed in ascending date order. */
  predicate SortedByDate(list: seq<(ReminderId, Reminder)>) {
    forall i, j :: 0 <= i < j < |list| ==> list[i].1.date <= list[j].1.date
  }

  /** No reminder id is listed twice. */
  predicate IdsDistinct(list: seq<(ReminderId, Reminder)>) {
    forall i, j :: 0 <= i < j < |list| ==> list[i].0 != list[j].0
  }

  /** Inserting one entry into a date-ordered list, after every entry dated no
      later than it. */
  function InsertByDate(list: seq<(ReminderId, Reminder)>, x: (ReminderId, Reminder)): (r: seq<(ReminderId, Reminder)>)
    ensures |r| == |list| + 1
  {
    if list == [] then [x]
    else if list[0].1.date <= x.1.date then [list[0]] + InsertByDate(list[1..], x)
    else [x] + list
  }

  /** The insertion adds exactly the new entry and loses none. */
  lemma {:induction false} InsertByDateMembers(list: seq<(ReminderId, Reminder)>, x: (ReminderId, Reminder))
    ensures forall p :: p in InsertByDate(list, x) <==> p in list || p == x
  {
    if list != [] && list[0].1.date <= x.1.date {
      InsertByDateMembers(list[1..], x);
      assert list == [list[0]] + list[1..];
    }
  }

  /** The insertion keeps the list in ascending date order. */
  lemma {:induction false} InsertByDateSorted(list: seq<(ReminderId, Reminder)>, x: (ReminderId, Reminder))
    requires SortedByDate(list)
    ensures SortedByDate(InsertByDate(list, x))
  {
    if list != [] && list[0].1.date <= x.1.date {
      InsertByDateSorted(list[1..], x);
      InsertByDateMembers(list[1..], x);
      var rest := InsertByDate(list[1..], x);
      forall j | 0 <= j < |rest| ensures list[0].1.date <= rest[j].1.date {
        assert rest[j] in rest;
      }
    }
  }

  /** The insertion of an id not yet listed lists no id twice. */
  lemma {:induction false} InsertByDateDistinct(list: seq<(ReminderId, Reminder)>, x: (ReminderId, Reminder))
    requires IdsDistinct(list)
    requires forall p :: p in list ==> p.0 != x.0
    ensures IdsDistinct(InsertByDate(list, x))
  {
    if list != [] && list[0].1.date <= x.1.date {
      InsertByDateDistinct(list[1..], x);
      InsertByDateMembers(list[1..], x);
      var rest := InsertByDate(list[1..], x);
      forall j | 0 <= j < |rest| ensures list[0].0 != rest[j].0 {
        assert rest[j] in rest;
        if rest[j] != x {
          var k :| 0 <= k < |list[1..]| && list[1..][k] == rest[j];
          assert list[k + 1] == rest[j];
        }
      }
    }
  }

  /** getReminders: `Reminder.find({ user }).sort({ date: 1 })`. The list holds
      each of the caller's reminders exactly once, nothing else, in ascending
      date order. */
  method GetReminders(db: Db, caller: UserId) returns (list: seq<(ReminderId, Reminder)>)
    ensures forall p :: p in list ==> p.0 in db.reminders && db.reminders[p.0] == p.1 && p.1.user == caller
    ensures forall id :: id in db.reminders && db.reminders[id].user == caller ==> (id, db.reminders[id]) in list
    ensures IdsDistinct(list)
    ensures SortedByDate(list)
  {
    var pending := db.reminders.Keys;
    list := [];
    while pending != {}
      invariant pending <= db.reminders.Keys
      invariant forall p :: p in list ==>
                  p.0 in db.reminders && db.reminders[p.0] == p.1 && p.1.user == caller && p.0 !in pending
      invariant forall id :: id in db.reminders && id !in pending && db.reminders[id].user == caller ==>
                  (id, db.reminders[id]) in list
      invariant IdsDistinct(list)
      invariant SortedByDate(list)
      decreases pending
    {
      var id :| id in pending;
      pending := pending - {id};
      var r := db.reminders[id];
      if r.user == caller {
        InsertByDateMembers(list, (id, r));
        InsertByDateSorted(list, (id, r));
        InsertByDateDistinct(list, (id, r));
        list := InsertByDate(list, (id, r));
      }
    }
  }

  /** The fields createReminder reads from the request body. A `contact` sent in
      the body is part of the request but is not copied. Dates are milliseconds. */
  datatype CreateBody = CreateBody(
    title: Option<string>,
    eventType: Option<string>,
    date: Option<int>,
    notes: Option<string>,
    contact: Option<Contact>)

  /** createReminder. A missing title, event type or date is refused with 400; an
      event type outside the enum makes `Reminder.create` throw (500); otherwise
      the new reminder is stored under the fresh id with the caller as owner and
      only title, event type, date and notes taken from the body. */
  method CreateReminder(db: Db, caller: UserId, body: CreateBody, freshId: ReminderId) returns (res: Response<Reminder>)
    requires freshId !in db.reminders
    requires db.Valid()
    modifies db
    ensures db.Valid()
    ensures db.users == old(db.users)
    ensures !Truthy(body.title) || !Truthy(body.eventType) || body.date.None? ==>
              res == BadRequest && db.reminders == old(db.reminders)
    ensures Truthy(body.title) && Truthy(body.eventType) && body.date.Some?
            && ParseEventType(body.eventType.value).None? ==>
              res == ServerError && db.reminders == old(db.reminders)
    ensures res.Ok? <==> Truthy(body.title) && Truthy(body.eventType) && body.date.Some?
                         && ParseEventType(body.eventType.value).Some?
    ensures res.Ok? ==>
              && res.value == NewReminder(caller, body.title.value, ParseEventType(body.eventType.value).value,
                                          body.date.value, body.notes)
              && res.value.contact == DEFAULT_CONTACT
              && db.reminders == old(db.reminders)[freshId := res.value]
    ensures ShareTokensDistinct(old(db.reminders)) ==> ShareTokensDistinct(db.reminders)
  {
    if !Truthy(body.title) || !Truthy(body.eventType) || body.date.None? {
      return BadRequest;
    }
    var eventType := ParseEventType(body.eventType.value);
    if eventType.None? {
      return ServerError;
    }
    var r := NewReminder(caller, body.title.value, eventType.value, body.date.value, body.notes);
    db.reminders := db.reminders[freshId := r];
    res := Ok(r);
  }

  /** getReminderById: 404 for a missing id, whoever asks; then 401 for a caller
      who is not the owner, with no content; otherwise the stored reminder. */
  method GetReminderById(db: Db, caller: UserId, id: ReminderId) returns (res: Response<Reminder>)
    ensures res.NotFound? <==> id !in db.reminders
    ensures res.Unauthorized? <==> id in db.reminders && db.reminders[id].user != caller
    ensures res.Ok? <==> id in db.reminders && db.reminders[id].user == caller
    ensures res.Ok? ==> res.value == db.reminders[id]
  {
    if id !in db.reminders {
      return NotFound;
    }
    var r := db.reminders[id];
    if r.user != caller {
      return Unauthorized;
    }
    res := Ok(r);
  }

  /** A request body for updateReminder: every reminder field, each optional.
      `findByIdAndUpdate(id, req.body)` copies whatever is present, `user`
      included, and runs no validators. */
  datatype UpdateBody = UpdateBody(
    user: Option<UserId>,
    title: Option<string>,
    eventType: Option<EventType>,
    date: Option<int>,
    notes: Option<string>,
    contact: Option<Contact>,
    shareToken: Option<string>,
    shareTokenExpiry: Option<int>,
    isCompleted: Option<bool>)

  const EMPTY_UPDATE := UpdateBody(None, None, None, None, None, None, None, None, None)

  function Pick<T>(given: Option<T>, current: T): T {
    if given.Some? then given.value else current
  }

  /** The merge: a field present in the body replaces the stored one, every other
      field keeps its stored value. */
  function Merge(r: Reminder, b: UpdateBody): (m: Reminder)
    ensures b.user.Some? ==> m.user == b.user.value
    ensures b.user.None? ==> m.user == r.user
    ensures b.title.Some? ==> m.title == b.title.value
    ensures b.title.None? ==> m.title == r.title
    ensures b.eventType.Some? ==> m.eventType == b.eventType.value
    ensures b.eventType.None? ==> m.eventType == r.eventType
    ensures b.date.Some? ==> m.date == b.date.value
    ensures b.date.None? ==> m.date == r.date
    ensures b.notes.Some? ==> m.notes == b.notes
    ensures b.notes.None? ==> m.notes == r.notes
    ensures b.contact.Some? ==> m.contact == b.contact.value
    ensures b.contact.None? ==> m.contact == r.contact
    ensures b.shareToken.Some? ==> m.shareToken == b.shareToken
    ensures b.shareToken.None? ==> m.shareToken == r.shareToken
    ensures b.shareTokenExpiry.Some? ==> m.shareTokenExpiry == b.shareTokenExpiry
    ensures b.shareTokenExpiry.None? ==> m.shareTokenExpiry == r.shareTokenExpiry
    ensures b.isCompleted.Some? ==> m.isCompleted == b.isCompleted.value
    ensures b.isCompleted.None? ==> m.isCompleted == r.isCompleted
  {
    Reminder(
      Pick(b.user, r.user),
      Pick(b.title, r.title),
      Pick(b.eventType, r.eventType),
      Pick(b.date, r.date),
      if b.notes.Some? then b.notes else r.notes,
      Pick(b.contact, r.contact),
      if b.shareToken.Some? then b.shareToken else r.shareToken,
      if b.shareTokenExpiry.Some? then b.shareTokenExpiry else r.shareTokenExpiry,
      Pick(b.isCompleted, r.isCompleted))
  }

  /** Applying the same update twice is the same as applying it once, and an
      empty body changes nothing. */
  lemma MergeIdempotent(r: Reminder, b: UpdateBody)
    ensures Merge(Merge(r, b), b) == Merge(r, b)
    ensures Merge(r, EMPTY_UPDATE) == r
  {
  }

  /** Nothing protects the owner field: an owner's update that names another user
      makes that user the reminder's owner. */
  lemma UpdateCanTransferOwnership(r: Reminder, other: UserId)
    requires other != r.user
    ensures Merge(r, EMPTY_UPDATE.(user := Some(other))).user == other
    ensures Merge(r, EMPTY_UPDATE.(user := Some(other))).user != r.user
  {
  }

  /** updateReminder: 404 for a missing id, then 401 for a caller who is not the
      owner, both leaving the store unchanged; otherwise the merged reminder
      replaces the stored one and every other reminder is untouched. */
  method UpdateReminder(db: Db, caller: UserId, id: ReminderId, body: UpdateBody) returns (res: Response<Reminder>)
    requires db.Valid()
    modifies db
    ensures db.Valid()
    ensures db.users == old(db.users)
    ensures id !in old(db.reminders) ==> res == NotFound && db.reminders == old(db.reminders)
    ensures id in old(db.reminders) && old(db.reminders)[id].user != caller ==>
              res == Unauthorized && db.reminders == old(db.reminders)
    ensures id in old(db.reminders) && old(db.reminders)[id].user == caller ==>
              res == Ok(Merge(old(db.reminders)[id], body))
              && db.reminders == old(db.reminders)[id := Merge(old(db.reminders)[id], body)]
  {
    if id !in db.reminders {
      return NotFound;
    }
    var r := db.reminders[id];
    if r.user != caller {
      return Unauthorized;
    }
    var updated := Merge(r, body);
    db.reminders := db.reminders[id := updated];
    res := Ok(updated);
  }

  /** deleteReminder: 404 for a missing id, then 401 for a caller who is not the
      owner, both leaving the store unchanged; otherwise exactly that id is
      removed. */
  method DeleteReminder(db: Db, caller: UserId, id: ReminderId) returns (res: Response<()>)
    requires db.Valid()
    modifies db
    ensures db.Valid()
    ensures db.users == old(db.users)
    ensures id !in old(db.reminders) ==> res == NotFound && db.reminders == old(db.reminders)
    ensures id in old(db.reminders) && old(db.reminders)[id].user != caller ==>
              res == Unauthorized && db.reminders == old(db.reminders)
    ensures id in old(db.reminders) && old(db.reminders)[id].user == caller ==>
              res == Ok(()) && db.reminders == old(db.reminders) - {id}
    ensures ShareTokensDistinct(old(db.reminders)) ==> ShareTokensDistinct(db.reminders)
  {
    if id !in db.reminders {
      return NotFound;
    }
    if db.reminders[id].user != caller {
      return Unauthorized;
    }
    db.reminders := db.reminders - {id};
    res := Ok(());
  }
}
