/** The order in which lines are served. */
module Deadlines {
  import opened Sorting

  datatype Deadline = Deadline(date: int, time: Option<nat>, lineId: nat)

  /** Earlier date; on the same date the earlier time, untimed last; then the smaller line id. */
  predicate DueBefore(a: Deadline, b: Deadline) {
    || a.date < b.date
    || (a.date == b.date && EarlierTime(a.time, b.time))
    || (a.date == b.date && a.time == b.time && a.lineId < b.lineId)
  }

  predicate EarlierTime(t: Option<nat>, u: Option<nat>) { t.Some? && (u.None? || t.value < u.value) }

  lemma DeadlinesDecide(a: Deadline, b: Deadline)
    ensures a.lineId != b.lineId ==> (DueBefore(a, b) <==> !DueBefore(b, a))
    ensures !DueBefore(a, a) && !(DueBefore(a, b) && DueBefore(b, a))
  {
  }
}
