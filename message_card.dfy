/**
 * The message card (src/components/MessageCard.tsx): which of the three date
 * labels a message gets, the "N day(s) ago" text, and the card's fallback
 * labels and controls. Times are epoch milliseconds; the locale-formatted
 * time of day and calendar date are represented only by which one is shown.
 */
module MessageCard {
  import opened Wrappers
  import opened JsString
  import opened Messages

  const HourMs := 1000 * 60 * 60
  const DayMs := 1000 * 60 * 60 * 24

  /** The three branches of `formatDate`. */
  datatype DateLabel = TimeOfDay | DaysAgo(days: nat) | CalendarDate

  function Abs(x: int): nat {
    if x < 0 then -x else x
  }

  /** `formatDate`: the distance between now and the creation time, in whole
      hours and whole days, picks the label. The three branches split the
      distances at one day and at seven days, and the day count shown is the
      number of whole days, between one and six. */
  function FormatDate(now: int, created: int): (l: DateLabel)
    ensures l.TimeOfDay? <==> Abs(now - created) < 86400000
    ensures l.DaysAgo? <==> 86400000 <= Abs(now - created) < 604800000
    ensures l.CalendarDate? <==> 604800000 <= Abs(now - created)
    ensures l.DaysAgo? ==>
      1 <= l.days <= 6 && l.days * 86400000 <= Abs(now - created) < (l.days + 1) * 86400000
  {
    var diffTime := Abs(now - created);
    var diffHours := diffTime / HourMs;
    var diffDays := diffTime / DayMs;
    if diffHours < 24 then TimeOfDay
    else if diffDays < 7 then DaysAgo(diffDays)
    else CalendarDate
  }

  /** A message created a given time in the future gets the same label as one
      created the same time in the past. */
  lemma FormatDateSymmetric(created: int, k: int)
    ensures FormatDate(created + k, created) == FormatDate(created - k, created)
  {
  }

  /** The order of the branches as a message ages. */
  function Rank(l: DateLabel): nat {
    match l
    case TimeOfDay => 0
    case DaysAgo(n) => n
    case CalendarDate => 7
  }

  /** Labels only move forward as the distance grows: never from a calendar
      date back to days, never from a larger day count to a smaller one. */
  lemma FormatDateMonotone(now1: int, now2: int, created: int)
    requires created <= now1 <= now2
    ensures Rank(FormatDate(now1, created)) <= Rank(FormatDate(now2, created))
  {
    var d1, d2 := now1 - created, now2 - created;
    assert d1 / DayMs <= d2 / DayMs;
  }

  /** `${diffDays} day${diffDays === 1 ? '' : 's'} ago`: the text reads back
      as the number it shows, and says "day" exactly for one and "days"
      otherwise. */
  function DaysAgoText(n: nat): (t: string)
    ensures var k := |NatToString(n)|;
      && k < |t| && (forall i :: 0 <= i < k ==> IsDigit(t[i]))
      && ParseNat(t[..k]) == n
      && (t[k..] == " day ago" <==> n == 1)
      && (t[k..] == " days ago" <==> n != 1)
  {
    var digits := NatToString(n);
    var rest := " day" + (if n == 1 then "" else "s") + " ago";
    var t := digits + rest;
    assert t[..|digits|] == digits;
    assert t[|digits|..] == rest;
    ParseNatToString(n);
    t
  }

  /** What a card shows for a message, apart from its text. */
  datatype CardView = CardView(
    toBadge: Option<string>,
    fromLabel: string,
    showDelete: bool,
    likeDisabled: bool,
    showMusic: bool,
    likes: nat,
    date: DateLabel)

  /** The card of `m` for the visitor with session `session`: the "To" badge
      only for a non-empty recipient, a sender label that is never empty, the
      delete control only for the visitor who wrote it, the like button
      disabled while a like is in flight, the music panel when track data is
      attached. */
  function View(m: Message, session: string, isProcessing: bool, now: int): (v: CardView)
    ensures v.toBadge.Some? <==> Truthy(m.toName)
    ensures v.toBadge.Some? ==> v.toBadge.value == m.toName.value
    ensures v.fromLabel != ""
    ensures Truthy(m.fromName) ==> v.fromLabel == m.fromName.value
    ensures !Truthy(m.fromName) ==> v.fromLabel == "Someone"
    ensures v.showDelete <==> m.sessionId == session
    ensures v.likeDisabled <==> isProcessing
    ensures v.showMusic <==> m.spotifyData.Some?
    ensures v.likes == m.likes && v.date == FormatDate(now, m.createdAt)
  {
    CardView(
      if Truthy(m.toName) then Some(m.toName.value) else None,
      if Truthy(m.fromName) then m.fromName.value else "Someone",
      m.sessionId == session,
      isProcessing,
      m.spotifyData.Some?,
      m.likes,
      FormatDate(now, m.createdAt))
  }
}
