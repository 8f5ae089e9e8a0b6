/** The pure part of the share routes: how a submitted contact is formatted and
    stored, and how a per-reminder share token is issued, checked and consumed. */
module ShareLinks {
  import opened Wrappers
  import opened Text
  import opened UserModel
  import opened ReminderModel

  /** A share link lives 24 hours: `24 * 60 * 60 * 1000` milliseconds. */
  const SHARE_LINK_LIFETIME_MS: int := 24 * 60 * 60 * 1000

  /** `${countryCode}${number}` when the number is truthy, else the empty string.
      The local number can be read back by cutting the country code off. */
  function PrefixedNumber(countryCode: string, number: Option<string>): (r: string)
    ensures !Truthy(number) ==> r == ""
    ensures Truthy(number) ==> StartsWith(r, countryCode) && r[|countryCode|..] == number.value
  {
    if Truthy(number) then countryCode + number.value else ""
  }

  /** The stored phone number: the country code joined to the submitted phone. */
  function FormatPhone(countryCode: string, phone: Option<string>): (r: string)
    ensures r == "" <==> !Truthy(phone)
    ensures Truthy(phone) ==> StartsWith(r, countryCode) && r[|countryCode|..] == phone.value
  {
    PrefixedNumber(countryCode, phone)
  }

  /** The stored WhatsApp number: the country code joined to the submitted
      WhatsApp number, falling back to the formatted phone when none is given. */
  function FormatWhatsapp(countryCode: string, whatsapp: Option<string>, phone: Option<string>): (r: string)
    ensures Truthy(whatsapp) ==> StartsWith(r, countryCode) && r[|countryCode|..] == whatsapp.value
    ensures !Truthy(whatsapp) ==> r == FormatPhone(countryCode, phone)
    ensures r == "" <==> !Truthy(whatsapp) && !Truthy(phone)
  {
    if Truthy(whatsapp) then PrefixedNumber(countryCode, whatsapp) else FormatPhone(countryCode, phone)
  }

  /** The request body of both submission routes. `countryCode` is always sent by
      the contact pages, so it is a plain string here. */
  datatype ContactForm = ContactForm(
    name: Option<string>,
    phone: Option<string>,
    email: Option<string>,
    whatsapp: Option<string>,
    countryCode: string)

  /** The contact sub-document both submission routes store, given the name to
      store: formatted numbers, email `|| ''`, and country code `|| '+91'`. Every
      field is present afterwards, whatever was submitted. */
  function StoredContact(form: ContactForm, name: Option<string>): (c: Contact)
    ensures c.name == name
    ensures c.phone == Some(FormatPhone(form.countryCode, form.phone))
    ensures c.whatsapp == Some(FormatWhatsapp(form.countryCode, form.whatsapp, form.phone))
    ensures c.email == Some(if Truthy(form.email) then form.email.value else "")
    ensures c.countryCode.Some? && c.countryCode.value != ""
    ensures form.countryCode != "" ==> c.countryCode == Some(form.countryCode)
    ensures form.countryCode == "" ==> c.countryCode == Some(DEFAULT_COUNTRY_CODE)
  {
    Contact(
      name,
      Some(if form.countryCode != "" then form.countryCode else DEFAULT_COUNTRY_CODE),
      Some(FormatPhone(form.countryCode, form.phone)),
      Some(if Truthy(form.email) then form.email.value else ""),
      Some(FormatWhatsapp(form.countryCode, form.whatsapp, form.phone)))
  }

  /** The lookup `{ shareToken, shareTokenExpiry: { $gt: now } }`: the token matches
      and the expiry is strictly later than now. */
  predicate AcceptsToken(r: Reminder, token: string, now: int): (b: bool)
    ensures b ==> r.shareToken == Some(token) && ShareStatePaired(r)
    ensures r.shareTokenExpiry.None? ==> !b
    ensures r.shareTokenExpiry.Some? && r.shareTokenExpiry.value <= now ==> !b
  {
    r.shareToken == Some(token) && r.shareTokenExpiry.Some? && r.shareTokenExpiry.value > now
  }

  /** Issuing a share link: a new token and an expiry 24 hours after `now`,
      overwriting any earlier pair; nothing else about the reminder changes. */
  function IssueShare(r: Reminder, token: string, now: int): (r': Reminder)
    ensures r'.shareToken == Some(token) && r'.shareTokenExpiry == Some(now + SHARE_LINK_LIFETIME_MS)
    ensures ShareStatePaired(r')
    ensures r'.(shareToken := r.shareToken, shareTokenExpiry := r.shareTokenExpiry) == r
  {
    r.(shareToken := Some(token), shareTokenExpiry := Some(now + SHARE_LINK_LIFETIME_MS))
  }

  /** A token issued at `issuedAt` is accepted exactly while `now` is before
      `issuedAt` + 24 h, and refused from that instant on. */
  lemma IssuedTokenWindow(r: Reminder, token: string, issuedAt: int, now: int)
    ensures AcceptsToken(IssueShare(r, token, issuedAt), token, now) <==> now < issuedAt + SHARE_LINK_LIFETIME_MS
    ensures issuedAt <= now < issuedAt + 86400000 ==> AcceptsToken(IssueShare(r, token, issuedAt), token, now)
  {
  }

  /** Re-issuing revokes: once a new token is issued, an earlier different token is
      refused at every time. */
  lemma ReissueRevokes(r: Reminder, earlier: string, later: string, issuedAt: int, now: int)
    requires earlier != later
    ensures !AcceptsToken(IssueShare(r, later, issuedAt), earlier, now)
  {
  }

  /** The name stored by submit-contact: the submitted name, or the reminder's
      title when none was given. */
  function ContactName(form: ContactForm, title: string): (n: string)
    ensures Truthy(form.name) ==> n == form.name.value
    ensures !Truthy(form.name) ==> n == title
  {
    if Truthy(form.name) then form.name.value else title
  }

  /** A successful submit-contact: the contact is replaced, both share fields are
      cleared, and nothing else changes. */
  function ApplySubmission(r: Reminder, form: ContactForm): (r': Reminder)
    ensures r'.contact == StoredContact(form, Some(ContactName(form, r.title)))
    ensures r'.shareToken.None? && r'.shareTokenExpiry.None? && ShareStatePaired(r')
    ensures r'.(contact := r.contact, shareToken := r.shareToken, shareTokenExpiry := r.shareTokenExpiry) == r
  {
    r.(contact := StoredContact(form, Some(ContactName(form, r.title))), shareToken := None, shareTokenExpiry := None)
  }

  /** A link works once: after a submission the reminder accepts no token at all. */
  lemma SubmissionIsSingleUse(r: Reminder, form: ContactForm, token: string, now: int)
    ensures !AcceptsToken(ApplySubmission(r, form), token, now)
  {
  }

  /** What the details route selects: title, event type, date and notes only. */
  datatype ReminderDetails = ReminderDetails(title: string, eventType: EventType, date: int, notes: Option<string>)

  function DetailsOf(r: Reminder): (d: ReminderDetails)
    ensures d.title == r.title && d.eventType == r.eventType && d.date == r.date && d.notes == r.notes
  {
    ReminderDetails(r.title, r.eventType, r.date, r.notes)
  }

  /** The body of submit-personal-contact: a contact plus optional event fields.
      `eventDate` is already converted to milliseconds when it is truthy; an
      absent or falsy one is None. */
  datatype PersonalForm = PersonalForm(
    contact: ContactForm,
    eventTitle: Option<string>,
    eventType: Option<string>,
    eventDate: Option<int>,
    notes: Option<string>)

  /** `${name}` in a template: an absent name prints as "undefined". */
  function Interpolate(s: Option<string>): string {
    if s.Some? then s.value else "undefined"
  }

  const PERSONAL_LINK_NOTES: string := "Contact information collected via personal link"

  /** The reminder a personal-link submission creates for `owner` at time `now`,
      or None when a truthy `eventType` is not in the enum (saving the document
      then fails validation). Defaults: title "<name>'s Contact", type Custom,
      date now, fixed notes; never completed and without a share link. */
  function PersonalReminder(owner: UserId, f: PersonalForm, now: int): (r: Option<Reminder>)
    ensures r.None? <==> Truthy(f.eventType) && ParseEventType(f.eventType.value).None?
    ensures r.Some? ==> var m := r.value;
      && m.user == owner && Conforms(m)
      && m.title == (if Truthy(f.eventTitle) then f.eventTitle.value else Interpolate(f.contact.name) + "'s Contact")
      && (!Truthy(f.eventType) ==> m.eventType == DEFAULT_EVENT_TYPE)
      && (Truthy(f.eventType) ==> EventTypeName(m.eventType) == f.eventType.value)
      && m.date == (if f.eventDate.Some? then f.eventDate.value else now)
      && m.notes == Some(if Truthy(f.notes) then f.notes.value else PERSONAL_LINK_NOTES)
      && m.contact == StoredContact(f.contact, f.contact.name)
      && !m.isCompleted && m.shareToken.None? && m.shareTokenExpiry.None?
  {
    var eventType := if Truthy(f.eventType) then ParseEventType(f.eventType.value) else Some(DEFAULT_EVENT_TYPE);
    if eventType.None? then None
    else
      var title := if Truthy(f.eventTitle) then f.eventTitle.value else Interpolate(f.contact.name) + "'s Contact";
      Some(Reminder(
        owner,
        title,
        eventType.value,
        if f.eventDate.Some? then f.eventDate.value else now,
        Some(if Truthy(f.notes) then f.notes.value else PERSONAL_LINK_NOTES),
        StoredContact(f.contact, f.contact.name),
        None,
        None,
        false))
  }
}
