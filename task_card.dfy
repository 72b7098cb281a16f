/** The task card's overdue highlight and its due-date line
    (app/components/TaskCard.tsx). Timestamps are integers and "now" is a
    parameter. */
module TaskCard {
  import opened Domain

  /** `task.due_date && new Date(task.due_date) < new Date() && task.status !== 'Done'`:
      only a task with a parsable due date that is not done can be overdue,
      and such a task is overdue exactly when its date is strictly before now. */
  function IsOverdue(t: Task, now: int): (r: bool)
    ensures r ==> t.dueDate.On? && !IsDone(t)
    ensures t.dueDate.On? && !IsDone(t) ==> (r <==> t.dueDate.time < now)
  {
    t.dueDate.On? && t.dueDate.time < now && t.status != DONE
  }

  /** A task without a due date is never overdue. */
  lemma UnsetNeverOverdue(t: Task, now: int)
    requires t.dueDate == Unset
    ensures !IsOverdue(t, now)
  {
  }

  /** A due date that cannot be parsed never makes a task overdue. */
  lemma UnparsableNeverOverdue(t: Task, now: int)
    requires t.dueDate == Unparsable
    ensures !IsOverdue(t, now)
  {
  }

  /** A finished task is never overdue, whatever its date. */
  lemma DoneNeverOverdue(t: Task, now: int)
    requires IsDone(t)
    ensures !IsOverdue(t, now)
  {
  }

  /** A task with a due date is overdue exactly when the date is strictly
      before now and the task is not done. */
  lemma OverdueExactly(t: Task, due: int, now: int)
    requires t.dueDate == On(due)
    ensures IsOverdue(t, now) <==> due < now && !IsDone(t)
  {
  }

  /** A task due exactly now is not overdue: the comparison is strict. */
  lemma DueNowNotOverdue(t: Task, now: int)
    requires t.dueDate == On(now)
    ensures !IsOverdue(t, now)
  {
  }

  /** Once overdue, a task stays overdue as time goes on. */
  lemma OverdueStaysOverdue(t: Task, now: int, later: int)
    requires IsOverdue(t, now) && now <= later
    ensures IsOverdue(t, later)
  {
  }

  /** What the date line shows before the mark: "No date", the text
      `toLocaleDateString` gives for an Invalid Date, or the formatted date. */
  datatype DateShown = NoDate | InvalidDate | LocaleDate(time: int)

  datatype DueLine = DueLine(date: DateShown, mark: string)

  const OVERDUE_MARK: string := " (OVERDUE)"

  /** The due-date line of the card: the date part depends only on whether
      `due_date` is set, and the " (OVERDUE)" mark is shown exactly when the
      task is overdue. */
  function DueLineOf(t: Task, now: int): (r: DueLine)
    ensures r.date == NoDate <==> t.dueDate == Unset
    ensures r.mark == OVERDUE_MARK <==> IsOverdue(t, now)
    ensures r.mark == "" <==> !IsOverdue(t, now)
    ensures r.mark != "" ==> r.date == LocaleDate(t.dueDate.time)
  {
    var date := match t.dueDate
      case Unset => NoDate
      case Unparsable => InvalidDate
      case On(d) => LocaleDate(d);
    DueLine(date, if IsOverdue(t, now) then OVERDUE_MARK else "")
  }

  /** The text of the card's date line, given the locale's date formatting:
      "No date" for an unset date, "Invalid Date" for one that cannot be
      parsed, and otherwise the formatted date, followed by " (OVERDUE)"
      exactly when the task is overdue. */
  function DueText(t: Task, now: int, format: int -> string): (r: string)
    ensures t.dueDate == Unset ==> r == "No date"
    ensures t.dueDate == Unparsable ==> r == "Invalid Date"
    ensures t.dueDate.On? && IsOverdue(t, now) ==> r == format(t.dueDate.time) + OVERDUE_MARK
    ensures t.dueDate.On? && !IsOverdue(t, now) ==> r == format(t.dueDate.time)
  {
    var line := DueLineOf(t, now);
    var date := match line.date
      case NoDate => "No date"
      case InvalidDate => "Invalid Date"
      case LocaleDate(d) => format(d);
    date + line.mark
  }

  /** A task that is not done and was due on 2024-01-01 is overdue on
      2025-01-01; the same task marked done is not (dates as day numbers
      since 1970-01-01). */
  lemma OverdueExample(t: Task)
    requires t.dueDate == On(19723) && !IsDone(t)
    ensures IsOverdue(t, 20089)
    ensures !IsOverdue(t.(status := DONE), 20089)
  {
  }
}
