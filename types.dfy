/** The records the widget passes between its components. */
module Types {

  /** Timer settings: minutes per mode, whether a sound plays, and which sound theme. */
  datatype Settings = Settings(
    pomodoro: nat,
    shortBreak: nat,
    longBreak: nat,
    soundEnabled: bool,
    soundTheme: string)

  /** A task; `id` is the creation time in milliseconds, supplied by the caller here. */
  datatype Task = Task(
    id: int,
    title: string,
    description: string,
    completed: bool,
    dueDate: string,
    dueTime: string,
    priority: string,
    listId: string)

  /** A task list; tasks refer to it through `listId`. */
  datatype TodoList = TodoList(id: string, name: string, color: string)

  /** A catalog entry: a video id, its display title and an icon URL. */
  datatype Channel = Channel(id: string, title: string, icon: string)

  /** One entry of the stored favourites list. */
  datatype FavoriteChannel = FavoriteChannel(id: string)
}
