/** The status badge the pricing pages show for a price list: its colour and
    the translation key of its label, decided from the list's status and its
    validity window against the current time. */
module PriceListUtils {
  import opened Wrappers

  /** A moment, in milliseconds since the epoch. */
  type Instant = int

  datatype PriceListStatus = Active | Draft

  /** The fields of a price list the badge depends on; a missing date is
      `None`. */
  datatype PriceList = PriceList(status: PriceListStatus, startsAt: Option<Instant>, endsAt: Option<Instant>)

  /** What `getValues` reports about a price list at a given time. */
  datatype Values = Values(isExpired: bool, isScheduled: bool, isDraft: bool)

  datatype Color = Red | Grey | Orange | Green

  /** The four badges, in the order they take precedence. */
  datatype Status = Expired | DraftStatus | Scheduled | ActiveStatus

  const ActiveKey := "pricing.status.active"
  const ScheduledKey := "pricing.status.scheduled"
  const DraftKey := "pricing.status.draft"
  const ExpiredKey := "pricing.status.expired"

  /** `getValues`: a list is expired once its end lies before `now`, scheduled
      while its start lies after `now`, and a draft when its status says so. */
  function GetValues(priceList: PriceList, now: Instant): (v: Values)
    ensures v.isExpired <==> priceList.endsAt.Some? && priceList.endsAt.value < now
    ensures v.isScheduled <==> priceList.startsAt.Some? && now < priceList.startsAt.value
    ensures v.isDraft <==> priceList.status == Draft
  {
    var isExpired := if priceList.endsAt.Some? then priceList.endsAt.value < now else false;
    var isScheduled := if priceList.startsAt.Some? then priceList.startsAt.value > now else false;
    Values(isExpired, isScheduled, priceList.status == Draft)
  }

  /** The badge by precedence: expired beats draft, draft beats scheduled, and
      a list that is none of these is active. */
  function Shown(v: Values): Status {
    if v.isExpired then Expired
    else if v.isDraft then DraftStatus
    else if v.isScheduled then Scheduled
    else ActiveStatus
  }

  function ColorOf(s: Status): Color {
    match s
    case Expired => Red
    case DraftStatus => Grey
    case Scheduled => Orange
    case ActiveStatus => Green
  }

  /** The translation key of a badge's label. */
  function KeyOf(s: Status): string {
    match s
    case Expired => ExpiredKey
    case DraftStatus => DraftKey
    case Scheduled => ScheduledKey
    case ActiveStatus => ActiveKey
  }

  /** `getPriceListStatus`: starts from the active badge and lets each later
      rule that applies overwrite the colour and the label, so the last
      applicable rule wins. The label is returned as its translation key. */
  method GetPriceListStatus(priceList: PriceList, now: Instant) returns (color: Color, text: string)
    ensures color == ColorOf(Shown(GetValues(priceList, now)))
    ensures text == KeyOf(Shown(GetValues(priceList, now)))
    ensures GetValues(priceList, now).isExpired ==> color == Red && text == ExpiredKey
  {
    var values := GetValues(priceList, now);

    text := ActiveKey;
    color := Green;

    if values.isScheduled {
      color := Orange;
      text := ScheduledKey;
    }

    if values.isDraft {
      color := Grey;
      text := DraftKey;
    }

    if values.isExpired {
      color := Red;
      text := ExpiredKey;
    }
  }

  /** Every badge has its own colour and its own label, so either one tells
      which badge is shown. */
  lemma BadgesAreDistinct(s: Status, s': Status)
    ensures ColorOf(s) == ColorOf(s') <==> s == s'
    ensures KeyOf(s) == KeyOf(s') <==> s == s'
  {
    match s
    case Expired =>
    case DraftStatus =>
    case Scheduled =>
    case ActiveStatus =>
  }

  /** An expired list is red and labelled expired whatever its status and start. */
  lemma ExpiredWins(priceList: PriceList, now: Instant)
    requires priceList.endsAt.Some? && priceList.endsAt.value < now
    ensures Shown(GetValues(priceList, now)) == Expired
    ensures ColorOf(Shown(GetValues(priceList, now))) == Red
  {
  }

  /** A draft that has not expired is grey and labelled draft, even when its
      start still lies ahead. */
  lemma DraftBeatsScheduled(priceList: PriceList, now: Instant)
    requires priceList.status == Draft
    requires priceList.endsAt.None? || now <= priceList.endsAt.value
    ensures Shown(GetValues(priceList, now)) == DraftStatus
    ensures ColorOf(Shown(GetValues(priceList, now))) == Grey
  {
  }

  /** The badge as a whole, from the flags: each badge is shown exactly when
      its flag is set and no flag of higher precedence is. */
  lemma ShownExactly(v: Values)
    ensures Shown(v) == Expired <==> v.isExpired
    ensures Shown(v) == DraftStatus <==> !v.isExpired && v.isDraft
    ensures Shown(v) == Scheduled <==> !v.isExpired && !v.isDraft && v.isScheduled
    ensures Shown(v) == ActiveStatus <==> !v.isExpired && !v.isDraft && !v.isScheduled
  {
  }

  /** Expiry is final: a list expired at some time is expired, and shown as
      such, at every later time. */
  lemma ExpiryIsFinal(priceList: PriceList, now: Instant, later: Instant)
    requires now <= later
    requires GetValues(priceList, now).isExpired
    ensures GetValues(priceList, later).isExpired
    ensures Shown(GetValues(priceList, later)) == Expired
  {
  }

  /** A list whose window is well formed (it starts no later than it ends) is
      never expired and scheduled at once. */
  lemma WindowIsConsistent(priceList: PriceList, now: Instant)
    requires priceList.startsAt.Some? && priceList.endsAt.Some?
    requires priceList.startsAt.value <= priceList.endsAt.value
    ensures !(GetValues(priceList, now).isExpired && GetValues(priceList, now).isScheduled)
  {
  }

  /** An active list inside its window, or without one, is green. */
  lemma LiveListIsActive(priceList: PriceList, now: Instant)
    requires priceList.status == Active
    requires priceList.startsAt.None? || priceList.startsAt.value <= now
    requires priceList.endsAt.None? || now <= priceList.endsAt.value
    ensures Shown(GetValues(priceList, now)) == ActiveStatus
    ensures ColorOf(Shown(GetValues(priceList, now))) == Green
  {
  }
}
