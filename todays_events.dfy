/** The pure helpers of the "Today's events" page: which reminders are shown and in
    what order, how a typed contact is formatted before it is saved, how a WhatsApp
    number is cleaned and checked, how a greeting name is taken from a title, and
    the icon and emoji of each event type. */
module TodaysEvents {
  import opened Wrappers
  import opened Text
  import opened ReminderModel
  import opened ShareLinks

  // ---------------------------------------------------------------------------
  // Today's reminders and their order

  const MS_PER_DAY: int := 86400000

  /** The UTC calendar day of an instant: the day `toISOString().split('T')[0]`
      names. (Dafny's division rounds down for a positive divisor, as the UTC
      calendar does before 1970.) */
  function Day(ms: int): (d: int)
    ensures d * MS_PER_DAY <= ms < (d + 1) * MS_PER_DAY
  {
    ms / MS_PER_DAY
  }

  /** The filter: the reminders dated on the same UTC day as `now`, in their
      original order; each is kept as often as it occurs, every other is dropped. */
  function TodaysReminders(rs: seq<Reminder>, now: int): (r: seq<Reminder>)
    ensures forall x :: multiset(r)[x] == if Day(x.date) == Day(now) then multiset(rs)[x] else 0
    ensures forall x :: x in r ==> x in rs && Day(x.date) == Day(now)
    ensures |r| <= |rs|
  {
    if rs == [] then []
    else
      assert rs == [rs[0]] + rs[1..];
      var rest := TodaysReminders(rs[1..], now);
      if Day(rs[0].date) == Day(now) then [rs[0]] + rest else rest
  }

  /** The comparator given to `sort`: positive when `a` must go after `b`. An
      incomplete reminder goes before a completed one; otherwise the earlier date
      goes first. */
  function Compare(a: Reminder, b: Reminder): (c: int)
    ensures c < 0 <==> (!a.isCompleted && b.isCompleted) || (a.isCompleted == b.isCompleted && a.date < b.date)
    ensures c > 0 <==> (a.isCompleted && !b.isCompleted) || (a.isCompleted == b.isCompleted && a.date > b.date)
    ensures c == 0 <==> a.isCompleted == b.isCompleted && a.date == b.date
  {
    if a.isCompleted && !b.isCompleted then 1
    else if !a.isCompleted && b.isCompleted then -1
    else a.date - b.date
  }

  /** A sequence the comparator accepts: no pair is out of order. */
  predicate OrderedForDisplay(s: seq<Reminder>) {
    forall i, j :: 0 <= i < j < |s| ==> Compare(s[i], s[j]) <= 0
  }

  /** Insert `x` before the first element it may precede. */
  function InsertForDisplay(x: Reminder, s: seq<Reminder>): (r: seq<Reminder>)
    ensures multiset(r) == multiset(s) + multiset{x}
  {
    if s == [] || Compare(x, s[0]) <= 0 then [x] + s
    else
      assert s == [s[0]] + s[1..];
      [s[0]] + InsertForDisplay(x, s[1..])
  }

  lemma {:induction false} InsertForDisplayOrdered(x: Reminder, s: seq<Reminder>)
    requires OrderedForDisplay(s)
    ensures OrderedForDisplay(InsertForDisplay(x, s))
  {
    if s != [] && Compare(x, s[0]) > 0 {
      InsertForDisplayOrdered(x, s[1..]);
      var rest := InsertForDisplay(x, s[1..]);
      forall j | 0 <= j < |rest| ensures Compare(s[0], rest[j]) <= 0 {
        assert rest[j] in multiset(rest);
        assert rest[j] == x || rest[j] in s[1..];
      }
    } else if s != [] {
      forall j | 0 <= j < |s| ensures Compare(x, s[j]) <= 0 {
        assert Compare(s[0], s[j]) <= 0 || j == 0;
      }
    }
  }

  /** The sort (a stable insertion sort, as `Array.prototype.sort` is stable). */
  function SortForDisplay(s: seq<Reminder>): (r: seq<Reminder>)
    ensures multiset(r) == multiset(s)
  {
    if s == [] then []
    else
      assert s == [s[0]] + s[1..];
      InsertForDisplay(s[0], SortForDisplay(s[1..]))
  }

  lemma {:induction false} SortForDisplayOrdered(s: seq<Reminder>)
    ensures OrderedForDisplay(SortForDisplay(s))
  {
    if s != [] {
      SortForDisplayOrdered(s[1..]);
      InsertForDisplayOrdered(s[0], SortForDisplay(s[1..]));
    }
  }

  /** The list the page shows: today's reminders, sorted. */
  function TodaysEventsView(rs: seq<Reminder>, now: int): (v: seq<Reminder>)
    ensures |v| <= |rs|
    ensures forall x :: x in v ==> x in rs && Day(x.date) == Day(now)
  {
    var t := TodaysReminders(rs, now);
    var v := SortForDisplay(t);
    assert |v| == |multiset(v)| == |multiset(t)| == |t|;
    assert forall x :: x in v ==> x in multiset(v) && x in t;
    v
  }

  /** What the page promises about that list: only today's reminders, each as
      often as it was fetched, every incomplete one before every completed one,
      and ascending dates among reminders of the same status. */
  lemma TodaysEventsViewSpec(rs: seq<Reminder>, now: int)
    ensures var v := TodaysEventsView(rs, now);
      && (forall x :: multiset(v)[x] == if Day(x.date) == Day(now) then multiset(rs)[x] else 0)
      && (forall x :: x in v ==> Day(x.date) == Day(now))
      && (forall i, j :: 0 <= i < j < |v| && v[i].isCompleted ==> v[j].isCompleted)
      && (forall i, j :: 0 <= i < j < |v| && v[i].isCompleted == v[j].isCompleted ==> v[i].date <= v[j].date)
  {
    var t := TodaysReminders(rs, now);
    var v := SortForDisplay(t);
    SortForDisplayOrdered(t);
    forall x | x in v ensures Day(x.date) == Day(now) {
      assert x in multiset(v);
      assert x in t;
    }
    forall i, j | 0 <= i < j < |v| && v[i].isCompleted ensures v[j].isCompleted {
      assert Compare(v[i], v[j]) <= 0;
    }
    forall i, j | 0 <= i < j < |v| && v[i].isCompleted == v[j].isCompleted ensures v[i].date <= v[j].date {
      assert Compare(v[i], v[j]) <= 0;
    }
  }

  // ---------------------------------------------------------------------------
  // Saving a contact typed into the modal

  /** The modal's fields, all strings (initially empty; country code "+91"). */
  datatype ContactInfo = ContactInfo(phone: string, email: string, whatsapp: string, countryCode: string)

  /** The contact sent to the update endpoint: country code as typed, phone and
      WhatsApp prefixed by it (WhatsApp falling back to the phone), email as typed. */
  function FormatContact(info: ContactInfo): (c: Contact)
    ensures c.countryCode == Some(info.countryCode) && c.email == Some(info.email) && c.name.None?
    ensures c.phone.Some? && c.whatsapp.Some?
    ensures info.phone == "" <==> c.phone == Some("")
    ensures info.phone != "" ==> StartsWith(c.phone.value, info.countryCode)
                                 && c.phone.value[|info.countryCode|..] == info.phone
    ensures info.whatsapp != "" ==> StartsWith(c.whatsapp.value, info.countryCode)
                                    && c.whatsapp.value[|info.countryCode|..] == info.whatsapp
    ensures info.whatsapp == "" ==> c.whatsapp == c.phone
  {
    Contact(
      None,
      Some(info.countryCode),
      Some(if info.phone != "" then info.countryCode + info.phone else ""),
      Some(info.email),
      Some(if info.whatsapp != "" then info.countryCode + info.whatsapp
           else if info.phone != "" then info.countryCode + info.phone else ""))
  }

  /** The page formats numbers exactly as the share routes do. */
  lemma FormatContactAgreesWithServer(info: ContactInfo)
    ensures FormatContact(info).phone == Some(FormatPhone(info.countryCode, Some(info.phone)))
    ensures FormatContact(info).whatsapp
            == Some(FormatWhatsapp(info.countryCode, Some(info.whatsapp), Some(info.phone)))
  {
  }

  // ---------------------------------------------------------------------------
  // WhatsApp numbers

  predicate IsDigit(c: char) {
    '0' <= c <= '9'
  }

  /** `s.replace(/\D/g, '')`: the digits of `s`, in order. */
  function DigitsOnly(s: string): (r: string)
    ensures |r| <= |s|
    ensures forall i :: 0 <= i < |r| ==> IsDigit(r[i])
    ensures forall c :: c in r ==> c in s
  {
    if s == [] then []
    else if IsDigit(s[0]) then [s[0]] + DigitsOnly(s[1..])
    else DigitsOnly(s[1..])
  }

  /** Cleaning works piecewise: the digits of a concatenation are the digits of
      each part, concatenated. */
  lemma {:induction false} DigitsOnlyAppend(a: string, b: string)
    ensures DigitsOnly(a + b) == DigitsOnly(a) + DigitsOnly(b)
  {
    if a == [] {
      assert a + b == b;
    } else {
      assert (a + b)[0] == a[0] && (a + b)[1..] == a[1..] + b;
      DigitsOnlyAppend(a[1..], b);
    }
  }

  /** A string without digits is cleaned away entirely. */
  lemma {:induction false} DigitsOnlyNoDigits(s: string)
    requires forall i :: 0 <= i < |s| ==> !IsDigit(s[i])
    ensures DigitsOnly(s) == []
  {
    if s != [] {
      DigitsOnlyNoDigits(s[1..]);
    }
  }

  /** A string of digits is left as it is, so cleaning twice is cleaning once. */
  lemma {:induction false} DigitsOnlyKeepsDigits(s: string)
    requires forall i :: 0 <= i < |s| ==> IsDigit(s[i])
    ensures DigitsOnly(s) == s
  {
    if s != [] {
      DigitsOnlyKeepsDigits(s[1..]);
    }
  }

  const MIN_WHATSAPP_DIGITS: nat := 10

  /** What the WhatsApp handlers do with a number: no number at all, a number
      with fewer than 10 digits (refused before any URL is built), or the digits
      to put in the `wa.me` URL. */
  datatype WhatsAppTarget = NoNumber | TooShort | Dial(digits: string)

  function WhatsAppNumber(number: Option<string>): (t: WhatsAppTarget)
    ensures t.NoNumber? <==> !Truthy(number)
    ensures t.TooShort? <==> Truthy(number) && |DigitsOnly(number.value)| < MIN_WHATSAPP_DIGITS
    ensures t.Dial? ==> t.digits == DigitsOnly(number.value)
                        && |t.digits| >= MIN_WHATSAPP_DIGITS
                        && forall i :: 0 <= i < |t.digits| ==> IsDigit(t.digits[i])
  {
    if !Truthy(number) then NoNumber
    else
      var clean := DigitsOnly(number.value);
      if |clean| < MIN_WHATSAPP_DIGITS then TooShort else Dial(clean)
  }

  /** A number saved with the default country code and a ten-digit local number
      is dialable, as "91" followed by the local digits. */
  lemma SavedIndianNumberDialable(local: string)
    requires |local| == 10 && forall i :: 0 <= i < |local| ==> IsDigit(local[i])
    ensures WhatsAppNumber(Some(FormatPhone(DEFAULT_COUNTRY_CODE, Some(local)))) == Dial("91" + local)
  {
    DigitsOnlyAppend(DEFAULT_COUNTRY_CODE, local);
    DigitsOnlyKeepsDigits(local);
    assert DigitsOnly("+91") == "91" by {
      assert "+91"[1..] == "91";
      assert "91"[1..] == "1";
      assert "1"[1..] == "";
    }
  }

  // ---------------------------------------------------------------------------
  // The greeting name

  /** ASCII lower case. Without the `u` flag a case-insensitive JavaScript
      regular expression matches these keywords only against ASCII letters. */
  function LowerAscii(c: char): char {
    if 'A' <= c <= 'Z' then (c as int + 32) as char else c
  }

  /** The keyword `k` (lower case) matches at the start of `s`, ignoring case. */
  predicate MatchesKeyword(s: string, k: string) {
    |k| <= |s| && forall i :: 0 <= i < |k| ==> LowerAscii(s[i]) == k[i]
  }

  const KEYWORDS: seq<string> := ["birthday", "anniversary", "meeting", "follow-up"]

  /** The length of the keyword the alternation matches at the start of `s`, if any. */
  function KeywordAt(s: string): (n: nat)
    ensures n <= |s|
    ensures n == 0 <==> forall k :: k in KEYWORDS ==> !MatchesKeyword(s, k)
    ensures n > 0 ==> exists k :: k in KEYWORDS && MatchesKeyword(s, k) && n == |k|
  {
    if MatchesKeyword(s, KEYWORDS[0]) then |KEYWORDS[0]|
    else if MatchesKeyword(s, KEYWORDS[1]) then |KEYWORDS[1]|
    else if MatchesKeyword(s, KEYWORDS[2]) then |KEYWORDS[2]|
    else if MatchesKeyword(s, KEYWORDS[3]) then |KEYWORDS[3]|
    else 0
  }

  /** `title.replace(/birthday|anniversary|meeting|follow-up/gi, '')`: one left to
      right pass that deletes each match and keeps every other character. */
  function RemoveKeywords(s: string): (r: string)
    ensures |r| <= |s|
    decreases |s|
  {
    if s == [] then []
    else
      var n := KeywordAt(s);
      if n > 0 then RemoveKeywords(s[n..]) else [s[0]] + RemoveKeywords(s[1..])
  }

  /** The name the greetings address: the title without its keywords, trimmed;
      never longer than the title and never padded with whitespace. */
  function GreetingName(title: string): (name: string)
    ensures |name| <= |title|
    ensures name != [] ==> !IsJsWhitespace(name[0]) && !IsJsWhitespace(name[|name| - 1])
  {
    Trim(RemoveKeywords(title))
  }

  /** A title in which no keyword occurs anywhere is left as it is. */
  lemma {:induction false} RemoveKeywordsNoMatch(s: string)
    requires forall i :: 0 <= i <= |s| ==> KeywordAt(s[i..]) == 0
    ensures RemoveKeywords(s) == s
  {
    if s != [] {
      assert KeywordAt(s[0..]) == 0;
      assert s[0..] == s;
      forall i | 0 <= i <= |s[1..]| ensures KeywordAt(s[1..][i..]) == 0 {
        assert s[1..][i..] == s[i + 1..];
      }
      RemoveKeywordsNoMatch(s[1..]);
    }
  }

  /** A leading keyword, in any ASCII casing, disappears. */
  lemma LeadingKeywordRemoved(k: string, s: string, t: string)
    requires k in KEYWORDS
    requires |t| == |k| && forall i :: 0 <= i < |t| ==> LowerAscii(t[i]) == k[i]
    ensures RemoveKeywords(t + s) == RemoveKeywords(s)
  {
    var ts := t + s;
    assert MatchesKeyword(ts, k);
    // the four keywords start with four different letters
    assert LowerAscii(ts[0]) == k[0];
    forall j | 0 <= j < |KEYWORDS| && KEYWORDS[j] != k ensures !MatchesKeyword(ts, KEYWORDS[j]) {
      assert KEYWORDS[j][0] != k[0];
    }
    assert KeywordAt(ts) == |t|;
    assert ts[|t|..] == s;
  }

  /** A prefix at none of whose positions a keyword starts is kept as it is, and
      the pass goes on with the rest. */
  lemma {:induction false} KeywordFreePrefix(a: string, b: string)
    requires forall i :: 0 <= i < |a| ==> KeywordAt((a + b)[i..]) == 0
    ensures RemoveKeywords(a + b) == a + RemoveKeywords(b)
  {
    if a == [] {
      assert a + b == b;
    } else {
      var s := a + b;
      assert KeywordAt(s[0..]) == 0;
      assert s[0..] == s;
      assert s[1..] == a[1..] + b;
      forall i | 0 <= i < |a[1..]| ensures KeywordAt((a[1..] + b)[i..]) == 0 {
        assert (a[1..] + b)[i..] == s[i + 1..];
      }
      KeywordFreePrefix(a[1..], b);
    }
  }

  /** A keyword anywhere after a keyword-free prefix disappears, in any ASCII
      casing, and the pass goes on after it. */
  lemma KeywordAfterPrefixRemoved(a: string, k: string, t: string, b: string)
    requires k in KEYWORDS
    requires |t| == |k| && forall i :: 0 <= i < |t| ==> LowerAscii(t[i]) == k[i]
    requires forall i :: 0 <= i < |a| ==> KeywordAt((a + t + b)[i..]) == 0
    ensures RemoveKeywords(a + t + b) == a + RemoveKeywords(b)
  {
    assert a + t + b == a + (t + b);
    KeywordFreePrefix(a, t + b);
    LeadingKeywordRemoved(k, b, t);
  }

  /** A title ending in a keyword, as "Ana's Birthday", greets the trimmed rest. */
  lemma TrailingKeywordGreeting(a: string, k: string, t: string)
    requires k in KEYWORDS
    requires |t| == |k| && forall i :: 0 <= i < |t| ==> LowerAscii(t[i]) == k[i]
    requires forall i :: 0 <= i < |a| ==> KeywordAt((a + t)[i..]) == 0
    ensures RemoveKeywords(a + t) == a
    ensures GreetingName(a + t) == Trim(a)
  {
    assert a + t + [] == a + t;
    KeywordAfterPrefixRemoved(a, k, t, []);
    assert a + [] == a;
  }

  // ---------------------------------------------------------------------------
  // Icons and emojis

  const BIRTHDAY_ICON: string := "bi-balloon-heart-fill text-primary"
  const ANNIVERSARY_ICON: string := "bi-heart-fill text-danger"
  const MEETING_ICON: string := "bi-people-fill text-success"
  const FOLLOW_UP_ICON: string := "bi-chat-dots-fill text-info"
  const DEFAULT_ICON: string := "bi-calendar-heart-fill text-warning"

  /** The four event type names with an icon and emoji of their own. */
  predicate HasOwnIcon(eventType: string) {
    eventType == "Birthday" || eventType == "Anniversary" || eventType == "Meeting" || eventType == "Follow-up"
  }

  /** getEventIcon: a fixed icon per named type, the default for any other string. */
  function EventIcon(eventType: string): (icon: string)
    ensures icon == DEFAULT_ICON <==> !HasOwnIcon(eventType)
  {
    match eventType
    case "Birthday" => BIRTHDAY_ICON
    case "Anniversary" => ANNIVERSARY_ICON
    case "Meeting" => MEETING_ICON
    case "Follow-up" => FOLLOW_UP_ICON
    case _ => DEFAULT_ICON
  }

  const DEFAULT_EMOJI: string := "\U{2B50}"

  /** getEventEmoji: cake, sparkling heart, handshake and telephone receiver for
      the four named types, a star for any other string. */
  function EventEmoji(eventType: string): (emoji: string)
    ensures emoji == DEFAULT_EMOJI <==> !HasOwnIcon(eventType)
    ensures |emoji| == 1
  {
    match eventType
    case "Birthday" => "\U{1F382}"
    case "Anniversary" => "\U{1F496}"
    case "Meeting" => "\U{1F91D}"
    case "Follow-up" => "\U{1F4DE}"
    case _ => DEFAULT_EMOJI
  }

  /** getEventEmoji as its literals stand in the file: each emoji's UTF-8 bytes
      were read as Windows-1252 and saved again, so every literal is two to four
      Latin characters (the star lost its third byte, which Windows-1252 leaves
      undefined). The named types' literals all begin with the lead bytes 0xF0 0x9F
      of a four-byte UTF-8 sequence, seen as "\U{F0}\U{178}". */
  function EventEmojiAsWritten(eventType: string): (e: string)
    ensures e == "\U{E2}\U{AD}" <==> !HasOwnIcon(eventType)
    ensures HasOwnIcon(eventType) ==> |e| >= 3 && e[..2] == "\U{F0}\U{178}"
    ensures |e| >= 2
  {
    match eventType
    case "Birthday" => "\U{F0}\U{178}\U{17D}\U{201A}"
    case "Anniversary" => "\U{F0}\U{178}\U{2019}\U{2013}"
    case "Meeting" => "\U{F0}\U{178}\U{A4}"
    case "Follow-up" => "\U{F0}\U{178}\U{201C}\U{17E}"
    case _ => "\U{E2}\U{AD}"
  }

  /** No literal as written is the single emoji character it stands for, for any
      event type. */
  lemma EmojiLiteralsMisencoded(eventType: string)
    ensures EventEmojiAsWritten(eventType) != EventEmoji(eventType)
  {
    assert |EventEmoji(eventType)| == 1;
  }

  /** Different named types get different icons and different emojis. */
  lemma NamedTypesDistinguished(a: string, b: string)
    requires HasOwnIcon(a) && HasOwnIcon(b) && a != b
    ensures EventIcon(a) != EventIcon(b) && EventEmoji(a) != EventEmoji(b)
  {
  }

  /** Of the five stored event types, only Custom falls back to the defaults. */
  lemma OnlyCustomGetsDefaults(t: EventType)
    ensures EventIcon(EventTypeName(t)) == DEFAULT_ICON <==> t == Custom
    ensures EventEmoji(EventTypeName(t)) == DEFAULT_EMOJI <==> t == Custom
  {
  }
}
