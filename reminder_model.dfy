/** The Reminder record: owner, title, event type, date, notes, the embedded
    contact sub-record, the share-token pair and the completion flag. */
module ReminderModel {
  import opened Wrappers
  import opened UserModel

  /** A reminder's document id. */
  type ReminderId = nat

  /** The schema's enum `['Birthday', 'Anniversary', 'Meeting', 'Follow-up', 'Custom']`. */
  datatype EventType = Birthday | Anniversary | Meeting | FollowUp | Custom

  const DEFAULT_EVENT_TYPE: EventType := Custom

  /** The string stored for an event type. */
  function EventTypeName(t: EventType): string {
    match t
    case Birthday => "Birthday"
    case Anniversary => "Anniversary"
    case Meeting => "Meeting"
    case FollowUp => "Follow-up"
    case Custom => "Custom"
  }

  /** The enum validator: a string is accepted exactly when it is one of the five
      names, and then it denotes the event type of that name. */
  function ParseEventType(s: string): (r: Option<EventType>)
    ensures r.Some? ==> EventTypeName(r.value) == s
    ensures (exists t :: EventTypeName(t) == s) ==> r.Some?
  {
    if s == "Birthday" then Some(Birthday)
    else if s == "Anniversary" then Some(Anniversary)
    else if s == "Meeting" then Some(Meeting)
    else if s == "Follow-up" then Some(FollowUp)
    else if s == "Custom" then Some(Custom)
    else None
  }

  /** Every event type survives the trip through its stored name. */
  lemma ParseEventTypeName(t: EventType)
    ensures ParseEventType(EventTypeName(t)) == Some(t)
  {
  }

  const DEFAULT_COUNTRY_CODE: string := "+91"

  /** The embedded contact: every field optional; `countryCode` defaults to "+91". */
  datatype Contact = Contact(
    name: Option<string>,
    countryCode: Option<string>,
    phone: Option<string>,
    email: Option<string>,
    whatsapp: Option<string>)

  /** The contact sub-document of a reminder created without one. */
  const DEFAULT_CONTACT := Contact(None, Some(DEFAULT_COUNTRY_CODE), None, None, None)

  /** Dates are integer milliseconds since the epoch. The schema does not tie
      `shareToken` and `shareTokenExpiry` together. */
  datatype Reminder = Reminder(
    user: UserId,
    title: string,
    eventType: EventType,
    date: int,
    notes: Option<string>,
    contact: Contact,
    shareToken: Option<string>,
    shareTokenExpiry: Option<int>,
    isCompleted: bool)

  /** What schema validation enforces on save: the required `title` is not empty
      (owner and date are always present by construction). */
  predicate Conforms(r: Reminder) {
    r.title != ""
  }

  /** A share link is either fully present (token and expiry) or fully absent. */
  predicate ShareStatePaired(r: Reminder) {
    r.shareToken.Some? <==> r.shareTokenExpiry.Some?
  }

  /** A new reminder document with the schema defaults filled in: the default
      contact (country code "+91"), not completed, and no share link. */
  function NewReminder(user: UserId, title: string, eventType: EventType, date: int, notes: Option<string>): (r: Reminder)
    requires title != ""
    ensures Conforms(r) && ShareStatePaired(r)
    ensures r.user == user && r.title == title && r.eventType == eventType && r.date == date && r.notes == notes
    ensures !r.isCompleted && r.shareToken.None? && r.shareTokenExpiry.None?
    ensures r.contact.countryCode == Some(DEFAULT_COUNTRY_CODE)
            && r.contact.name.None? && r.contact.phone.None? && r.contact.email.None? && r.contact.whatsapp.None?
  {
    Reminder(user, title, eventType, date, notes, DEFAULT_CONTACT, None, None, false)
  }
}
