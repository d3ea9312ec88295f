/** The to-do record shared by the store, the selectors and the views.
    Timestamps (`Date` values in the application) are milliseconds since the
    epoch; an absent optional field is `None`. */
module TodoTypes {

  datatype Option<+T> = None | Some(value: T)

  /** One to-do item, field for field as the application declares it. */
  datatype Todo = Todo(
    id: int,
    title: string,
    body: string,
    completed: bool,
    isEditing: bool,
    dueDate: Option<int>,
    createdAt: int,
    updatedAt: int)
}
