/** The entities the front end receives from the remote store. The JSON
    records are untyped in the source; here they are records with the fields
    the modelled code reads or writes. */
module Domain {
  import opened Wrappers

  /** The status string the dashboard and the task card compare against. */
  const DONE: string := "Done"

  /** A task's `due_date` as the code sees it: falsy (`null`, `undefined` or
      `""`), a string `new Date` cannot parse (an Invalid Date, whose
      comparisons are all false), or a point in time. */
  datatype DueDate = Unset | Unparsable | On(time: int)

  datatype Task = Task(
    id: int,
    projectId: Option<int>,   // `project_id`; `None` when the record has none
    title: string,
    description: string,
    priority: string,
    status: string,
    dueDate: DueDate)

  datatype Project = Project(id: int, name: string)

  /** `t.status === 'Done'`. */
  predicate IsDone(t: Task) {
    t.status == DONE
  }

  /** `t.status !== 'Done'`. */
  predicate IsPending(t: Task) {
    t.status != DONE
  }

  /** The signed-in user as the session store holds it: a record of string
      fields, one of which is `token`. */
  type User = map<string, string>

  const TOKEN_FIELD: string := "token"

  /** `user?.token`. */
  function TokenOf(user: Option<User>): (t: Option<string>)
    ensures t.Some? <==> user.Some? && TOKEN_FIELD in user.value
    ensures t.Some? ==> t.value == user.value[TOKEN_FIELD]
  {
    if user.Some? && TOKEN_FIELD in user.value then Some(user.value[TOKEN_FIELD]) else None
  }

  /** A rejected remote call or thrown error: `err.response?.data?.message`
      and `err.message`, each possibly absent. */
  datatype ErrorInfo = ErrorInfo(serverMessage: Option<string>, message: Option<string>)
}
