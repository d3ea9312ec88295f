/** The due-date badge: overdue, due soon or upcoming, each with its colour
    class and text. `new Date()` is the parameter `now`; date-fns
    `addDays(now, 2)` is the parameter `addDays`, applied as `addDays(now, 2)`. */
module TimeStatus {
  import opened TodoTypes
  import opened DateFns
  import TodoSelectors

  /** What the badge shows. */
  datatype Badge = Badge(color: string, text: string)

  const OverdueBadge := Badge("text-red-500", "Overdue")
  const DueSoonBadge := Badge("text-yellow-500", "Due Soon")
  const UpcomingBadge := Badge("text-green-500", "Upcoming")

  /** `isOverdue`: due before now and not on today's calendar day. */
  predicate IsOverdue(due: int, now: int, dayOf: int -> int)
    ensures IsOverdue(due, now, dayOf) <==> due < now && dayOf(due) != dayOf(now)
  {
    IsBefore(due, now) && !IsToday(due, now, dayOf)
  }

  /** `isDueSoon`: not overdue and due before two days from now. */
  predicate IsDueSoon(due: int, now: int, dayOf: int -> int, addDays: (int, int) -> int)
    ensures IsDueSoon(due, now, dayOf, addDays) ==> !IsOverdue(due, now, dayOf)
    ensures IsDueSoon(due, now, dayOf, addDays) <==>
      (due >= now || dayOf(due) == dayOf(now)) && due < addDays(now, 2)
  {
    !IsOverdue(due, now, dayOf) && IsBefore(due, addDays(now, 2))
  }

  /** `getStatusColor`: red exactly when overdue, yellow exactly when due soon
      and not overdue, green otherwise. */
  function StatusColor(isOverdue: bool, isDueSoon: bool): (r: string)
    ensures r == OverdueBadge.color <==> isOverdue
    ensures r == DueSoonBadge.color <==> !isOverdue && isDueSoon
    ensures r == UpcomingBadge.color <==> !isOverdue && !isDueSoon
  {
    if isOverdue then "text-red-500"
    else if isDueSoon then "text-yellow-500"
    else "text-green-500"
  }

  /** `getStatusText`: the same precedence as the colour, so colour and text
      always name the same status. */
  function StatusText(isOverdue: bool, isDueSoon: bool): (r: string)
    ensures r == OverdueBadge.text <==> isOverdue
    ensures r == DueSoonBadge.text <==> !isOverdue && isDueSoon
    ensures r == UpcomingBadge.text <==> !isOverdue && !isDueSoon
  {
    if isOverdue then "Overdue"
    else if isDueSoon then "Due Soon"
    else "Upcoming"
  }

  /** The component: nothing without a due date, otherwise exactly one of the
      three badges, red for overdue, yellow for due soon, green otherwise. */
  function TimeStatus(dueDate: Option<int>, now: int, dayOf: int -> int, addDays: (int, int) -> int): (r: Option<Badge>)
    ensures r.None? <==> dueDate.None?
    ensures r.Some? ==> r.value in {OverdueBadge, DueSoonBadge, UpcomingBadge}
    ensures r.Some? ==> (r.value == OverdueBadge <==> dueDate.value < now && dayOf(dueDate.value) != dayOf(now))
    ensures r.Some? ==> (r.value == DueSoonBadge <==>
      (dueDate.value >= now || dayOf(dueDate.value) == dayOf(now)) && dueDate.value < addDays(now, 2))
  {
    match dueDate
    case None => None
    case Some(due) =>
      var isOverdue := IsOverdue(due, now, dayOf);
      var isDueSoon := IsDueSoon(due, now, dayOf, addDays);
      Some(Badge(StatusColor(isOverdue, isDueSoon), StatusText(isOverdue, isDueSoon)))
  }

  /** The two flags never hold together. */
  lemma OverdueExcludesDueSoon(due: int, now: int, dayOf: int -> int, addDays: (int, int) -> int)
    ensures !(IsOverdue(due, now, dayOf) && IsDueSoon(due, now, dayOf, addDays))
  {
  }

  /** An item due earlier today, already past, is reported "Due Soon", not
      "Overdue", as long as two days from now is not before now. */
  lemma EarlierTodayIsDueSoon(due: int, now: int, dayOf: int -> int, addDays: (int, int) -> int)
    requires due < now && dayOf(due) == dayOf(now)
    requires addDays(now, 2) >= now
    ensures TimeStatus(Some(due), now, dayOf, addDays) == Some(DueSoonBadge)
  {
  }

  /** For an incomplete dated item the badge says "Overdue" exactly when the
      overdue selector lists it, and an item due today is never shown overdue. */
  lemma BadgeAgreesWithBuckets(t: Todo, now: int, dayOf: int -> int, addDays: (int, int) -> int)
    requires !t.completed && t.dueDate.Some?
    ensures TimeStatus(t.dueDate, now, dayOf, addDays) == Some(OverdueBadge)
        <==> TodoSelectors.BucketOf(t, now, dayOf) == TodoSelectors.Overdue
    ensures TodoSelectors.BucketOf(t, now, dayOf) == TodoSelectors.DueToday
        ==> TimeStatus(t.dueDate, now, dayOf, addDays) != Some(OverdueBadge)
  {
  }
}
