/** An end-to-end walk through the share-link lifecycle, using only the handlers'
    contracts: user A creates a reminder, user B is refused it, A issues a link,
    a third party submits a contact through it, and the link then stops working. */
module Scenarios {
  import opened Wrappers
  import opened UserModel
  import opened ReminderModel
  import opened Database
  import opened ShareLinks
  import opened ReminderController
  import opened ShareRoutes

  method ShareLinkLifecycle(now: int)
  {
    var db := new Db(map[]);
    var alice: UserId, bob: UserId, id: ReminderId := 1, 2, 10;
    var march1 := 1740787200000;

    var created := CreateReminder(db, alice,
      CreateBody(Some("Ana's Birthday"), Some("Birthday"), Some(march1), None, None), id);
    assert created.Ok? && db.reminders.Keys == {id};

    var listed := GetReminders(db, alice);
    assert (id, db.reminders[id]) in listed;
    assert forall p :: p in listed ==> p == (id, db.reminders[id]);

    var peek := GetReminderById(db, bob, id);
    assert peek == Unauthorized;

    var grant := GenerateLink(db, alice, id, "3f9a", now);
    assert grant == Ok(ShareGrant("3f9a", now + SHARE_LINK_LIFETIME_MS));

    var form := ContactForm(Some("Ana"), Some("5551234"), None, None, "+1");
    var sent := SubmitContact(db, "3f9a", form, now);
    assert sent == Ok("Ana's Birthday");
    assert "+1" + "5551234" == "+15551234";
    assert db.reminders[id].contact.phone == Some("+15551234");
    assert db.reminders[id].contact.whatsapp == Some("+15551234");
    assert db.reminders[id].shareToken.None?;

    var again := SubmitContact(db, "3f9a", form, now);
    assert again == NotFound;
  }
}
