/** The day screen: the habits scheduled for one date, which of them are
    completed, and the toggle that marks one completed or not. */
module HabitScreen {
  import opened ListToggle
  import opened Calendar
  import opened Remote

  type HabitId = string

  /** One habit scheduled on the date. */
  datatype HabitRef = HabitRef(id: HabitId, title: string)

  /** The payload of `GET day?date=…`. */
  datatype HabitsAtDay = HabitsAtDay(available: seq<HabitRef>, completed: seq<HabitId>)

  /** The user-facing notices the screen raises. */
  datatype Notice = Silent | LoadFailed | ToggleFailed

  /** One rendered checkbox row of the habit list. */
  datatype CheckboxRow = CheckboxRow(id: HabitId, title: string, checked: bool, disabled: bool)

  /** The ids of the scheduled habits. */
  function AvailableIds(available: seq<HabitRef>): (ids: set<HabitId>)
    ensures forall i :: 0 <= i < |available| ==> available[i].id in ids
    ensures forall id :: id in ids ==> exists i :: 0 <= i < |available| && available[i].id == id
  {
    set i | 0 <= i < |available| :: available[i].id
  }

  /** The value shown by the progress bar: the zero guard in front of
      `generate` (the percentage helper, not part of this model). */
  function ProgressPercentage(habitsAtDay: Option<HabitsAtDay>, completedCount: nat,
                              generate: (nat, nat) -> int): (p: int)
    ensures habitsAtDay.None? || |habitsAtDay.value.available| == 0 ==> p == 0
    ensures habitsAtDay.Some? && |habitsAtDay.value.available| > 0 ==>
              p == generate(|habitsAtDay.value.available|, completedCount)
  {
    if habitsAtDay.Some? && |habitsAtDay.value.available| != 0
    then generate(|habitsAtDay.value.available|, completedCount)
    else 0
  }

  /** The component state for the date it was opened with. */
  class DayCompletion {
    const date: Day
    var loading: bool
    var habitsAtDay: Option<HabitsAtDay>
    var completedHabits: seq<HabitId>

    /** Every completed id is the id of a scheduled habit. */
    ghost predicate CompletedWithinAvailable()
      reads this
    {
      habitsAtDay.Some? ==>
        forall id :: id in completedHabits ==> id in AvailableIds(habitsAtDay.value.available)
    }

    constructor (date: Day)
      ensures this.date == date
      ensures loading && habitsAtDay.None? && completedHabits == []
    {
      this.date := date;
      loading := true;
      habitsAtDay := None;
      completedHabits := [];
    }

    /** Loads the day from the reply to `GET day`; the loading flag is
        cleared whatever the outcome. */
    method FetchHabits(reply: Reply<HabitsAtDay>) returns (notice: Notice)
      modifies this
      ensures !loading
      ensures reply.Ok? ==> habitsAtDay == Some(reply.value) && completedHabits == reply.value.completed
      ensures reply.Failed? ==> habitsAtDay == old(habitsAtDay) && completedHabits == old(completedHabits)
      ensures notice == (if reply.Ok? then Silent else LoadFailed)
    {
      loading := true;
      match reply {
        case Ok(data) =>
          habitsAtDay := Some(data);
          completedHabits := data.completed;
          notice := Silent;
        case Failed =>
          notice := LoadFailed;
      }
      loading := false;
    }

    /** Flips the membership of `habitID` once the `PATCH …/toggle` reply
        succeeded; on failure nothing changes. */
    method HandleHabitToggle(habitID: HabitId, reply: Reply<()>) returns (notice: Notice)
      modifies this
      ensures loading == old(loading) && habitsAtDay == old(habitsAtDay)
      ensures reply.Ok? ==> completedHabits == Toggle(old(completedHabits), habitID)
      ensures reply.Ok? ==> ((habitID in completedHabits) <==> (habitID !in old(completedHabits)))
      ensures reply.Failed? ==> completedHabits == old(completedHabits)
      ensures notice == (if reply.Ok? then Silent else ToggleFailed)
    {
      if reply.Failed? {
        notice := ToggleFailed;
        return;
      }
      if habitID in completedHabits {
        completedHabits := Remove(completedHabits, habitID);
      } else {
        completedHabits := completedHabits + [habitID];
      }
      notice := Silent;
    }

    /** The progress bar's value for the current state. */
    function Progress(generate: (nat, nat) -> int): (p: int)
      reads this
      ensures habitsAtDay.None? || |habitsAtDay.value.available| == 0 ==> p == 0
      ensures habitsAtDay.Some? && |habitsAtDay.value.available| > 0 ==>
                p == generate(|habitsAtDay.value.available|, |completedHabits|)
    {
      ProgressPercentage(habitsAtDay, |completedHabits|, generate)
    }

    /** The habit rows on screen at instant `now`: none while loading or
        without data, otherwise one per scheduled habit in order, checked
        when its id is completed and disabled when the date is before today. */
    function Checkboxes(now: Instant): (rows: seq<CheckboxRow>)
      reads this
      ensures loading || habitsAtDay.None? ==> rows == []
      ensures !loading && habitsAtDay.Some? ==> |rows| == |habitsAtDay.value.available|
      ensures forall i :: 0 <= i < |rows| ==>
                && rows[i].id == habitsAtDay.value.available[i].id
                && rows[i].title == habitsAtDay.value.available[i].title
                && (rows[i].checked <==> rows[i].id in completedHabits)
                && (rows[i].disabled <==> date < DayOf(now))
    {
      PastIffBeforeToday(date, now);
      if loading || habitsAtDay.None? then []
      else
        var available, completed, past := habitsAtDay.value.available, completedHabits, IsPastDate(date, now);
        seq(|available|, i requires 0 <= i < |available| =>
          CheckboxRow(available[i].id, available[i].title, available[i].id in completed, past))
    }

    /** A press on row `index` at instant `now`: a disabled row issues no
        request; an enabled one toggles its habit with the reply `reply`.
        Returns the id whose toggle was requested, if any. */
    method Press(index: nat, now: Instant, reply: Reply<()>) returns (requested: Option<HabitId>, notice: Notice)
      requires index < |Checkboxes(now)|
      modifies this
      ensures habitsAtDay == old(habitsAtDay) && loading == old(loading)
      ensures date < DayOf(now) ==> requested == None && completedHabits == old(completedHabits)
      ensures date >= DayOf(now) ==> requested == Some(habitsAtDay.value.available[index].id)
      ensures requested.Some? && reply.Ok? ==> completedHabits == Toggle(old(completedHabits), requested.value)
      ensures requested.Some? && reply.Failed? ==> completedHabits == old(completedHabits)
      ensures requested.None? ==> notice == Silent
      ensures requested.Some? ==> notice == (if reply.Ok? then Silent else ToggleFailed)
      ensures old(CompletedWithinAvailable()) ==> CompletedWithinAvailable()
    {
      var row := Checkboxes(now)[index];
      if row.disabled {
        requested, notice := None, Silent;
      } else {
        ghost var ids := AvailableIds(habitsAtDay.value.available);
        ghost var before := completedHabits;
        assert row.id in ids;
        requested := Some(row.id);
        notice := HandleHabitToggle(row.id, reply);
        if reply.Ok? && habitsAtDay.Some? &&
           (forall id :: id in before ==> id in ids) {
          ToggleKeepsWithin(before, row.id, ids);
        }
      }
    }
  }
}
