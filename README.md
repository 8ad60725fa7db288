# kanbanlache board core, modelled in Dafny

kanbanlache is a Kanban board: a user has one board, the board has ordered
sections (by default TODO, DOING and DONE) and each section holds ordered
tasks. The Django server (`backend/board`) stores boards, sections and tasks.
Its views add, update, delete, promote and demote tasks, and return the
board as one JSON aggregate. The React client (`frontend/src`) draws the
board as one section widget per column. Each widget gets capability flags
from its column index. A task widget is a small edit machine.

This project models that core:

- `models.dfy` (module `Models`) holds the schema:
  - the three tables and their length limits;
  - the default board;
  - ForeignKey integrity and the cascading deletes.

  The database is a value `Db`: one map per table from primary key to row,
  plus one autoincrement counter per table. `Children` lists a parent's rows
  in ascending primary-key order by scanning the keys below the counter; this
  order is an assumption, stated under "## Left out".
- `views.dfy` (module `BoardViews`) holds the server views:
  - `isFirstSection` / `isLastSection`;
  - the two move loops;
  - `create_board_aggregate` and `create_default_board`;
  - the `board` view and the task views with their responses.

  The database is the field `db` of class `Store`. Each view that saves
  rows reassigns `db`, and its contract ties the new value to a pure function
  of the old one. A request is its HTTP method plus the `"text"` field of
  its JSON body, if present. An exception the view does not catch becomes
  `ServerError` with its reason:
  - a row that `objects.get` cannot find;
  - a user who owns several boards;
  - a text longer than the `max_length` of the column, on a database that
    enforces it.
- `board_widget.dfy` (module `BoardWidget`) models `Board.js`:
  - the flags by index;
  - the closures that bind a section's index, modelled by the events they
    raise;
  - rendering nothing when there are no sections.
- `task_widget.dfy` (module `TaskWidget`) models `Task.js`:
  - the pure transitions of the edit state;
  - the controls shown in each mode;
  - the class `TaskComponent`, whose handlers apply those transitions to
    their fields;
  - the calls made on the section are returned, and so is the alert message.
- `section_placeholder.dfy` (module `SectionPlaceholder`) models
  `Section.js`: the placeholder component that appends `"new task"` to a
  copy of its task array.
- `agreement.dfy` (module `Agreement`) connects the two sides. When the
  client is given the server's aggregate:
  - column `i` offers Promote exactly when the server does not consider it
    the last section;
  - it offers Demote exactly when the server does not consider it the first;
  - a move the client offers lands the task in the neighbouring column.

Under the ascending-id order, a task that is promoted and then demoted is
back in the same section, at the same position in its task list, and the
database is exactly as before (`PromoteThenDemote`).

Cancel in `Task.js` leaves the draft in `textareaValue`. After Edit, typing,
Cancel and Edit again, the textarea shows the saved text, but Update sends
the discarded draft (`CancelKeepsDraft`).

## Model

| member | source | states |
|---|---|---|
| `Models.Integrity` | backend/board/models.py:22-40 | the schema's rules: every key comes from its table's counter, every ForeignKey points to an existing row, and every name and text respects its max_length; every operation below is proved to keep it |
| `Models.EmptyDbIntegrity` | backend/board/models.py:22-40 | the empty database satisfies the schema's key, ForeignKey and length rules |
| `Models.Children` | backend/board/models.py:32-40 | the scan: a parent's rows through the reverse ForeignKey (`section_set`, `task_set`, used at backend/board/views.py:42 and 158), in the ascending id order assumed under "## Left out"; `ChildrenSound`, `ChildrenComplete` and `ChildrenAscending` state what it lists |
| `Models.ChildrenSound` | backend/board/models.py:32 | the ascending scan lists only rows whose parent is the given key, each below the counter |
| `Models.ChildrenComplete` | backend/board/models.py:32 | the scan lists every row below the counter whose parent is the given key |
| `Models.ChildrenAscending` | backend/board/models.py:32 | the scan is strictly ascending by id, so no row is listed twice |
| `Models.NoChildren` | backend/board/models.py:40 | a key that no row points to has an empty child list |
| `Models.AppendChild` | backend/board/models.py:32 | saving a row under the next id appends it to its parent's list and to no other list |
| `Models.ChildrenUpdate` | backend/board/models.py:40 | re-parenting a row changes no list except those of its old and new parent |
| `Models.ChildrenRestrict` | backend/board/models.py:32 | deleting rows that are not children of `p` leaves `p`'s list unchanged |
| `Models.SectionsOf` | backend/board/views.py:42 | `board.section_set.all()`; `SectionsOfFacts` states that it lists exactly the board's sections, ascending |
| `Models.TasksOf` | backend/board/views.py:158 | `section.task_set.all()`; `TasksOfFacts` states that it lists exactly the section's tasks, ascending |
| `Models.BoardsOf` | backend/board/views.py:285 | the boards `Board.objects.get(user=...)` inspects; `BoardsOfFacts` states that they are exactly the user's boards |
| `Models.SectionsOfFacts` | backend/board/views.py:42 | `board.section_set.all()` lists exactly the board's sections, in ascending id order |
| `Models.TasksOfFacts` | backend/board/views.py:158 | `section.task_set.all()` lists exactly the section's tasks, in ascending id order |
| `Models.BoardsOfFacts` | backend/board/views.py:285 | the boards found by user are exactly that user's boards |
| `Models.TaskListedOnlyByItsSection` | backend/board/models.py:40 | a task is in a section's task list if and only if it is that section's task: tasks are partitioned across sections |
| `Models.DeleteTaskRow` | backend/board/views.py:397 | `task.delete()` removes exactly that task and keeps the schema valid |
| `Models.DeleteSectionRow` | backend/board/models.py:40 | deleting a section cascades to exactly its tasks; everything else is kept |
| `Models.DeleteBoardRow` | backend/board/models.py:32 | deleting a board cascades to its sections and their tasks; everything else is kept |
| `Models.DeleteBoardKeepsOtherBoards` | backend/board/models.py:32 | a cascading board delete leaves every other board's section list unchanged |
| `Models.DeleteSectionKeepsOtherSections` | backend/board/models.py:40 | a cascading section delete leaves every other section's task list unchanged |
| `BoardViews.BoardOrder` | backend/board/views.py:41-42 | the sections of a section's board are ascending by id, include the section, and are exactly the sections of that board |
| `BoardViews.IsFirstSection` | backend/board/views.py:29-44 | true if and only if the section is at position 0 of its board's order |
| `BoardViews.IsLastSection` | backend/board/views.py:47-63 | true if and only if the section is at the last position of its board's order |
| `BoardViews.SingleSectionIsFirstAndLast` | backend/board/views.py:44 | on a board with one section, that section is both first and last |
| `BoardViews.NextSection` | backend/board/views.py:77-91 | there is no next section if and only if the task's section is last; otherwise the next section is on the same board at the next position |
| `BoardViews.PreviousSection` | backend/board/views.py:105-118 | there is no previous section if and only if the task's section is first; otherwise the previous section is on the same board at the previous position |
| `BoardViews.WithSection` | backend/board/views.py:84-85 | assigning a task's section changes only that task's section; the schema stays valid |
| `BoardViews.WithText` | backend/board/views.py:366-367 | assigning a task's text changes only that task's text; the schema stays valid |
| `BoardViews.WithNewTask` | backend/board/views.py:323-324 | a new task gets the next id and goes at the end of its section's list; other sections' lists are unchanged |
| `BoardViews.WithNewBoard` | backend/board/views.py:189-190 | a new board gets the next id, is appended to the user's boards and has no sections |
| `BoardViews.WithNewSection` | backend/board/views.py:194-195 | a new section gets the next id and goes at the end of its board's list |
| `BoardViews.WithNewSections` | backend/board/views.py:193-195 | saving one section per name keeps the schema valid and the boards unchanged |
| `BoardViews.WithNewSectionsFacts` | backend/board/views.py:193-195 | the sections take consecutive fresh ids and are appended in name order; existing rows and tasks are unchanged |
| `BoardViews.WithSectionKeepsOrder` | backend/board/views.py:84-85 | moving a task changes no board's section order |
| `BoardViews.WithSectionKeepsOtherTaskLists` | backend/board/views.py:84-85 | moving a task leaves the task list of every section other than its old and new one unchanged, in content and order |
| `BoardViews.PromoteThenDemote` | backend/board/views.py:66-118 | after a promotion, the previous section is the original one, and demoting there restores the database exactly |
| `BoardViews.DemoteThenPromote` | backend/board/views.py:66-118 | after a demotion, the next section is the original one, and promoting there restores the database exactly |
| `BoardViews.TaskEntries` | backend/board/views.py:157-160 | one `{id, text}` entry per task of the section, in order, with the text copied |
| `BoardViews.Aggregate` | backend/board/views.py:148-173 | the aggregate has the board's id and name and one entry per section, in order, each with its tasks in order |
| `BoardViews.AggregateListsBoardTasks` | backend/board/views.py:154-171 | the aggregate lists a task if and only if the task is on that board |
| `BoardViews.AggregateListsTaskOnce` | backend/board/views.py:154-171 | no task is listed at two places in the aggregate |
| `BoardViews.WithBoardAndSections` | backend/board/views.py:188-195 | creating a board and then its sections keeps the schema valid |
| `BoardViews.DefaultBoard` | backend/board/views.py:176-198 | the default board creation keeps the schema valid |
| `BoardViews.NewBoardSections` | backend/board/views.py:188-195 | the new board's sections are, in order, new sections named after the given names |
| `BoardViews.NewBoardKeepsRows` | backend/board/views.py:188-195 | the board is appended to the user's boards; no existing row changes; every new section belongs to the new board and has no tasks |
| `BoardViews.NewBoardAggregate` | backend/board/views.py:286-290 | the new board's aggregate has its name and one empty entry per section name, in order |
| `BoardViews.Store.constructor` | backend/board/models.py:22-40 | the store starts empty, with every counter at 1 |
| `BoardViews.Store.MoveTaskToNextSection` | backend/board/views.py:66-91 | the flag loop moves the task to the next section, or does nothing from the last section |
| `BoardViews.Store.MoveTaskToPreviousSection` | backend/board/views.py:94-118 | the `lastSection` loop moves the task to the previous section |
| `BoardViews.Store.PromoteTask` | backend/board/views.py:205-232 | non-POST gives 405; a missing task raises; a task in the last section gives 400 and no change; otherwise the task moves to the next section |
| `BoardViews.Store.DemoteTask` | backend/board/views.py:235-262 | non-POST gives 405; a missing task raises; a task in the first section gives 400 and no change; otherwise the task moves to the previous section |
| `BoardViews.Store.CreateBoardAggregate` | backend/board/views.py:121-173 | the nested append loops build exactly `Aggregate` |
| `BoardViews.Store.CreateDefaultBoard` | backend/board/views.py:176-198 | saves the default board and then its sections in order |
| `BoardViews.Store.SaveSections` | backend/board/views.py:193-195 | the save loop builds exactly `WithNewSections` |
| `BoardViews.Store.BoardView` | backend/board/views.py:265-290 | one board: its aggregate, no change; several: the lookup raises; none: the default board is created and its aggregate has the default names and no tasks |
| `BoardViews.Store.AddTaskToSection` | backend/board/views.py:293-336 | non-POST gives 405; missing text gives 400; a missing section raises; an over-long text raises; otherwise a new task goes at the end of the section and is returned |
| `BoardViews.Store.UpdateTask` | backend/board/views.py:339-375 | non-PUT gives 405; PUT without text returns nothing; a missing task raises; an over-long text raises; otherwise the text is replaced and the task returned |
| `BoardViews.Store.DeleteTask` | backend/board/views.py:378-402 | non-DELETE gives 405; a missing task raises; otherwise exactly that task is deleted |
| `BoardViews.Store.TaskActionRouter` | backend/board/views.py:405-428 | PUT behaves as `update_task`, DELETE as `delete_task`, any other method gives 405 |
| `BoardWidget.Bind` | frontend/src/Board.js:44-48 | the five closures; `BindForwards`, `BindInjective` and `BindOnto` state what they pass on |
| `BoardWidget.BindForwards` | frontend/src/Board.js:44-48 | each bound callback reaches the board callback of the same kind (add, promote, demote, remove, update), puts its section's index first and forwards the section's arguments unchanged |
| `BoardWidget.BindInjective` | frontend/src/Board.js:44-48 | two bound calls raise the same board event if and only if they come from the same section with the same arguments |
| `BoardWidget.BindOnto` | frontend/src/Board.js:44-48 | every board event is raised by the bound callback of the section it names |
| `BoardWidget.WidgetAt` | frontend/src/Board.js:35-52 | the props of the widget at one index; `WidgetFlags` states its flags by index |
| `BoardWidget.BuildSectionsWidget` | frontend/src/Board.js:34-56 | one widget per section, in order, with the section's name and tasks and its own index bound |
| `BoardWidget.WidgetFlags` | frontend/src/Board.js:35-52 | editable and has-adder if and only if index 0; promotable if and only if not the last index; demotable if and only if not index 0; always removable |
| `BoardWidget.SingleSectionFlags` | frontend/src/Board.js:35-52 | a lone section is editable and has the adder, but cannot promote or demote |
| `BoardWidget.ExactlyOneAdder` | frontend/src/Board.js:43 | exactly one widget, the first one, has the task adder, and it is editable |
| `BoardWidget.MovesConnectNeighbours` | frontend/src/Board.js:51-52 | a column can promote if and only if a column to its right exists, and that column can demote; and the other way round |
| `BoardWidget.Render` | frontend/src/Board.js:61-66 | no section widgets if and only if `sections` is missing or empty |
| `BoardWidget.RenderBuildsEachSection` | frontend/src/Board.js:64-66 | with sections present, one widget per section, in order |
| `TaskWidget.ConfigOrDefault` | frontend/src/Task.js:93-100 | a missing config prop is replaced by the default: not editable; removable, promotable and demotable |
| `TaskWidget.Initial` | frontend/src/Task.js:23-26 | a new task is in display mode with its own text as the draft |
| `TaskWidget.Toggled` | frontend/src/Task.js:32-36 | `toggleEditMode`; `ToggleTwiceRestores` states that it flips the mode, keeps the draft and is its own inverse |
| `TaskWidget.Typed` | frontend/src/Task.js:53-57 | `onTextareaChange`; `TypingKeepsMode` states that it sets the draft and keeps the mode |
| `TaskWidget.Update` | frontend/src/Task.js:41-48 | `onUpdate`; `UpdateGuard` and `UpdateLeavesEditMode` state the empty-draft guard and the mode change |
| `TaskWidget.Controls` | frontend/src/Task.js:62-87 | `render`; `DisplayControls`, `EditControls`, `DisplayEndsWithText` and `DefaultDisplayControls` state which controls each mode shows |
| `TaskWidget.Click` | frontend/src/Task.js:68-81 | the `onClick` handlers; `ButtonsCallTheirCallbacks` states which section call each button makes |
| `TaskWidget.ToggleTwiceRestores` | frontend/src/Task.js:32-36 | a toggle flips the mode and keeps the draft; two toggles restore the state |
| `TaskWidget.TypingKeepsMode` | frontend/src/Task.js:53-57 | a textarea change sets the draft and keeps the mode |
| `TaskWidget.UpdateGuard` | frontend/src/Task.js:41-48 | an empty draft sends nothing, changes nothing and alerts; a non-empty one is sent exactly once and the mode flips |
| `TaskWidget.UpdateLeavesEditMode` | frontend/src/Task.js:46-47 | a successful Update in edit mode returns to display mode |
| `TaskWidget.DisplayControls` | frontend/src/Task.js:73-83 | in display mode each button is shown if and only if its config flag is set, and neither Cancel nor Update is shown |
| `TaskWidget.EditControls` | frontend/src/Task.js:65-71 | in edit mode the task shows Cancel, Update and a textarea holding the saved text |
| `TaskWidget.DisplayEndsWithText` | frontend/src/Task.js:82 | in display mode the saved text comes last, once |
| `TaskWidget.ButtonsCallTheirCallbacks` | frontend/src/Task.js:68-81 | Remove, Demote and Promote each make exactly their own section call; Edit and Cancel make none and only toggle, and each is shown only in its mode |
| `TaskWidget.DefaultDisplayControls` | frontend/src/Task.js:93-100 | with the default config a displayed task offers Remove, Demote and Promote, and no Edit |
| `TaskWidget.CancelKeepsDraft` | frontend/src/Task.js:68-70 | after Edit, typing `v`, Cancel and Edit, the textarea shows the saved text while Update sends `v` |
| `TaskWidget.TaskComponent.constructor` | frontend/src/Task.js:20-27 | the component starts in the initial state with the given or default config |
| `TaskWidget.TaskComponent.ToggleEditMode` | frontend/src/Task.js:32-36 | the fields take the toggled state |
| `TaskWidget.TaskComponent.OnUpdate` | frontend/src/Task.js:41-48 | the fields, the calls made and the alert are those of the Update transition |
| `TaskWidget.TaskComponent.OnTextareaChange` | frontend/src/Task.js:53-57 | the fields take the typed state |
| `TaskWidget.TaskComponent.OnClick` | frontend/src/Task.js:62-87 | a click on a rendered control runs that control's handler |
| `SectionPlaceholder.PushNewTask` | frontend/src/Section.js:17-18 | `slice` then `push('new task')`; `PushNewTaskAppends` states that it appends one "new task" and keeps the earlier tasks |
| `SectionPlaceholder.PushNewTaskAppends` | frontend/src/Section.js:16-22 | a click adds one task at the end, with text "new task", and keeps the earlier ones in place |
| `SectionPlaceholder.ClicksAreNewTasks` | frontend/src/Section.js:16-22 | after `n` clicks on a new section there are `n` tasks, all "new task" |
| `SectionPlaceholder.Render` | frontend/src/Section.js:25 | one task element per text, in order |
| `SectionPlaceholder.RenderPushNewTask` | frontend/src/Section.js:16-25 | after a click the rendered list is the old one plus one "new task" element |
| `SectionPlaceholder.Section.constructor` | frontend/src/Section.js:7-14 | the name comes from the props and there are no tasks |
| `SectionPlaceholder.Section.OnClick` | frontend/src/Section.js:16-22 | a fresh array holds the old tasks plus "new task"; the old array is not written; the name is unchanged |
| `Agreement.ColumnPosition` | backend/board/views.py:155 | column `i` of the aggregate is the section at position `i` of its board's order |
| `Agreement.FlagsAgreeWithServer` | frontend/src/Board.js:35-52 | column `i` is promotable if and only if the server does not consider it last, demotable if and only if not first, and editable if and only if first |
| `Agreement.PromoteLandsInNextColumn` | frontend/src/Board.js:45 | promoting a task the client shows as promotable moves it to the section of the next column |
| `Agreement.DemoteLandsInPreviousColumn` | frontend/src/Board.js:46 | demoting a task the client shows as demotable moves it to the section of the previous column |

## Left out

- The order of `section_set.all()` and `task_set.all()` is an assumption. The models set no `Meta.ordering` and the views call no `order_by` (backend/board/models.py:22-43), so Django leaves that order unspecified. The model takes ascending id, the order the docstrings of `isFirstSection` and `isLastSection` describe (backend/board/views.py:31-33, 49-51). Every order-dependent result holds only under it: first and last section, the next and previous section, the order of the aggregate, and the same position in `PromoteThenDemote` and `DemoteThenPromote`.

- `frontend/src/Backend.js` is not part of this model. It is the HTTP client: axios calls, the CSRF header and URLs built from `window.location`.
- `frontend/src/App.js` is not part of this model. It is a static render with no logic.
- The repository has no client board state. `frontend/src/App.js` renders statically, and `frontend/src/Backend.js` only passes server replies to callbacks. So nothing maps the section and task indices of a client event to database ids, and the model has no such mapping.
- Routing is left out. `backend/board/urls.py` routes the board, add-task and PUT/DELETE router views, but none of its paths reaches `promote_task` or `demote_task`. The model covers those views as written.
- Authentication and ownership are left out: `login_required`, the user session, and the missing ownership checks. The source does not perform those checks.
- The request is taken as already parsed. A body that `json.loads` rejects, and a `"text"` value that is not a string, are not modelled.
- `HttpResponseNotAllowed` is modelled as a bare 405 response. The source passes it a message string where Django expects a list of methods.
- A user is only a key (`UserId`). Deleting a user, which cascades to their boards, is not modelled.
- `BoardViews.Store.AddTaskToSection` assumes a database that enforces `max_length` on the text column. There an over-long text raises (`TEXT_TOO_LONG`) and nothing is saved. SQLite does not enforce it and would store the text. `BoardViews.Store.UpdateTask` makes the same assumption.
- `BoardViews.Store.MoveTaskToPreviousSection` requires the task not to be in the first section. From there the source would assign `None` to a non-null ForeignKey and the save would fail. `demote_task` never calls it in that case.
- The `board` view's docstring says a user without a board gets a not-found response. The code creates the default board instead, and the model follows the code.
- Layout is left out: the section width `(100 / sections.length) - SECTIONS_GAP` (floating point), the React `key`, CSS and headings.
- The browser `alert` is modelled as a returned message.
- `setState` is applied at once. React may batch or defer it; the model does not capture this.
- The model keeps a mounted Task's props fixed.
- `Section.js` renders `<Task text={el}/>`, while `Task.js` needs `model` and `Section` props. The placeholder's task elements are therefore modelled only by their text, and no Task is mounted from them.
