/**
 * The task component: a two-state edit machine.  In display mode it shows the
 * task's text and the buttons its configuration enables; in edit mode it
 * shows Cancel, Update and a textarea.  The draft typed into the textarea is
 * kept in `textareaValue`; Update hands it to the section unless it is empty.
 *
 * The component's calls into its section (`props.Section.onTask…`) are
 * returned as the list of calls made; the browser alert is returned as its
 * message.
 */
module TaskWidget {

  import opened Wrappers
  import opened Payload

  /** Which controls a task offers in display mode. */
  datatype TaskConfig = TaskConfig(editable: bool, removable: bool, promotable: bool, demotable: bool)

  /** `Task.defaultProps.config`. */
  const DEFAULT_CONFIG: TaskConfig := TaskConfig(false, true, true, true)

  const EMPTY_TEXT_ALERT: string := "Can't update task: Text is empty!"

  /** The config prop as the component sees it: the default when none is passed. */
  function ConfigOrDefault(config: Option<TaskConfig>): (c: TaskConfig)
    ensures config.Some? ==> c == config.value
    ensures config.None? ==> c == DEFAULT_CONFIG
  {
    if config.Some? then config.value else DEFAULT_CONFIG
  }

  /** The component's state: `{editMode, textareaValue}`. */
  datatype TaskState = TaskState(editMode: bool, textareaValue: string)

  /** A call the task makes on its section. */
  datatype SectionCall = OnTaskUpdate(text: string) | OnTaskRemove | OnTaskDemote | OnTaskPromote

  /** The elements `render` produces, in order. */
  datatype Control =
    | EditButton | RemoveButton | DemoteButton | PromoteButton | Heading(text: string)
    | CancelButton | UpdateButton | Textarea(defaultValue: string)

  /** What a handler leaves behind: the next state, the section calls made, and an alert. */
  datatype Outcome = Outcome(next: TaskState, calls: seq<SectionCall>, alert: Option<string>)

  /** The constructor's state. */
  function Initial(model: TaskEntry): (s: TaskState)
    ensures !s.editMode && s.textareaValue == model.text
  {
    TaskState(false, model.text)
  }

  /** `toggleEditMode`. */
  function Toggled(s: TaskState): TaskState
  {
    s.(editMode := !s.editMode)
  }

  /** `onTextareaChange` with the textarea's new value. */
  function Typed(s: TaskState, value: string): TaskState
  {
    s.(textareaValue := value)
  }

  /** `onUpdate`: an empty draft raises the alert; otherwise the draft is sent and the mode flips. */
  function Update(s: TaskState): Outcome
  {
    if s.textareaValue == "" then Outcome(s, [], Some(EMPTY_TEXT_ALERT))
    else Outcome(Toggled(s), [OnTaskUpdate(s.textareaValue)], None)
  }

  /** A button that `render` shows only when `flag` holds. */
  function ShownIf(flag: bool, c: Control): seq<Control>
  {
    if flag then [c] else []
  }

  /** `render`: the controls of the current mode, in document order. */
  function Controls(config: TaskConfig, model: TaskEntry, s: TaskState): seq<Control>
  {
    if s.editMode then [CancelButton, UpdateButton, Textarea(model.text)]
    else
      ShownIf(config.editable, EditButton)
      + ShownIf(config.removable, RemoveButton)
      + ShownIf(config.demotable, DemoteButton)
      + ShownIf(config.promotable, PromoteButton)
      + [Heading(model.text)]
  }

  /**
   * In display mode each button is shown exactly when its config flag is set,
   * and neither Cancel nor Update is shown.
   */
  lemma DisplayControls(config: TaskConfig, model: TaskEntry, s: TaskState)
    requires !s.editMode
    ensures var r := Controls(config, model, s);
      && (EditButton in r <==> config.editable)
      && (RemoveButton in r <==> config.removable)
      && (DemoteButton in r <==> config.demotable)
      && (PromoteButton in r <==> config.promotable)
      && CancelButton !in r && UpdateButton !in r
  {
  }

  /** In edit mode the task shows Cancel, Update and a textarea holding the task's saved text. */
  lemma EditControls(config: TaskConfig, model: TaskEntry, s: TaskState)
    requires s.editMode
    ensures Controls(config, model, s) == [CancelButton, UpdateButton, Textarea(model.text)]
  {
  }

  /** In display mode the task's saved text comes last, after the buttons. */
  lemma DisplayEndsWithText(config: TaskConfig, model: TaskEntry, s: TaskState)
    requires !s.editMode
    ensures var r := Controls(config, model, s);
      |r| > 0 && r[|r| - 1] == Heading(model.text) && Heading(model.text) !in r[..|r| - 1]
  {
  }

  /** The handler of a click on `c`; the heading and the textarea have none. */
  function Click(s: TaskState, c: Control): Outcome
  {
    match c
    case EditButton => Outcome(Toggled(s), [], None)
    case CancelButton => Outcome(Toggled(s), [], None)
    case UpdateButton => Update(s)
    case RemoveButton => Outcome(s, [OnTaskRemove], None)
    case DemoteButton => Outcome(s, [OnTaskDemote], None)
    case PromoteButton => Outcome(s, [OnTaskPromote], None)
    case Heading(_) => Outcome(s, [], None)
    case Textarea(_) => Outcome(s, [], None)
  }

  /** Toggling flips the mode and keeps the draft, so toggling twice restores the state. */
  lemma ToggleTwiceRestores(s: TaskState)
    ensures Toggled(s).editMode == !s.editMode && Toggled(s).textareaValue == s.textareaValue
    ensures Toggled(Toggled(s)) == s
  {
  }

  /** Typing changes the draft and nothing else. */
  lemma TypingKeepsMode(s: TaskState, value: string)
    ensures Typed(s, value).editMode == s.editMode && Typed(s, value).textareaValue == value
  {
  }

  /**
   * Update sends the draft exactly once when it is non-empty and then flips
   * the mode; an empty draft sends nothing, changes nothing and alerts.
   */
  lemma UpdateGuard(s: TaskState)
    ensures Update(s).calls == [] <==> s.textareaValue == ""
    ensures s.textareaValue == "" ==> Update(s).next == s && Update(s).alert == Some(EMPTY_TEXT_ALERT)
    ensures s.textareaValue != "" ==>
      && Update(s).calls == [OnTaskUpdate(s.textareaValue)]
      && Update(s).next == Toggled(s) && Update(s).alert.None?
  {
  }

  /** From edit mode, a successful Update returns the task to display mode. */
  lemma UpdateLeavesEditMode(s: TaskState)
    requires s.editMode && s.textareaValue != ""
    ensures !Update(s).next.editMode
  {
  }

  /** Every displayed button calls exactly its own section callback; Edit and Cancel call none. */
  lemma ButtonsCallTheirCallbacks(config: TaskConfig, model: TaskEntry, s: TaskState, c: Control)
    requires c in Controls(config, model, s)
    ensures c == RemoveButton ==> Click(s, c).calls == [OnTaskRemove] && Click(s, c).next == s
    ensures c == DemoteButton ==> Click(s, c).calls == [OnTaskDemote] && Click(s, c).next == s
    ensures c == PromoteButton ==> Click(s, c).calls == [OnTaskPromote] && Click(s, c).next == s
    ensures c == EditButton || c == CancelButton ==> Click(s, c).calls == [] && Click(s, c).next == Toggled(s)
    ensures c == EditButton ==> config.editable && !s.editMode
    ensures c == CancelButton ==> s.editMode
  {
  }

  /** With the default configuration a displayed task offers Remove, Demote and Promote, but not Edit. */
  lemma DefaultDisplayControls(model: TaskEntry, s: TaskState)
    requires !s.editMode
    ensures Controls(DEFAULT_CONFIG, model, s) == [RemoveButton, DemoteButton, PromoteButton, Heading(model.text)]
  {
  }

  /**
   * Cancel keeps the draft.  Edit, type `v`, Cancel, Edit again: the textarea
   * shows the task's text, yet Update sends `v`.
   */
  lemma CancelKeepsDraft(config: TaskConfig, model: TaskEntry, v: string)
    requires config.editable && v != ""
    ensures
      var editing := Click(Initial(model), EditButton).next;
      var typed := Typed(editing, v);
      var cancelled := Click(typed, CancelButton).next;
      var reopened := Click(cancelled, EditButton).next;
      && EditButton in Controls(config, model, Initial(model))
      && CancelButton in Controls(config, model, typed)
      && EditButton in Controls(config, model, cancelled)
      && Textarea(model.text) in Controls(config, model, reopened)
      && Click(reopened, UpdateButton).calls == [OnTaskUpdate(v)]
  {
  }

  /** The mounted component: its props and its state. */
  class TaskComponent {
    const model: TaskEntry
    const config: TaskConfig
    var editMode: bool
    var textareaValue: string

    function State(): TaskState
      reads this
    {
      TaskState(editMode, textareaValue)
    }

    /** What `render` shows now. */
    function Rendered(): seq<Control>
      reads this
    {
      Controls(config, model, State())
    }

    /** `constructor(props)`: display mode, the draft set to the task's text. */
    constructor (model: TaskEntry, config: Option<TaskConfig>)
      ensures this.model == model && this.config == ConfigOrDefault(config)
      ensures State() == Initial(model)
    {
      this.model := model;
      this.config := ConfigOrDefault(config);
      editMode := false;
      textareaValue := model.text;
    }

    method ToggleEditMode()
      modifies this
      ensures State() == Toggled(old(State()))
    {
      editMode := !editMode;
    }

    method OnUpdate() returns (calls: seq<SectionCall>, alert: Option<string>)
      modifies this
      ensures State() == Update(old(State())).next
      ensures calls == Update(old(State())).calls && alert == Update(old(State())).alert
    {
      if textareaValue == "" {
        return [], Some(EMPTY_TEXT_ALERT);
      }
      calls := [OnTaskUpdate(textareaValue)];
      ToggleEditMode();
      alert := None;
    }

    method OnTextareaChange(value: string)
      modifies this
      ensures State() == Typed(old(State()), value)
    {
      textareaValue := value;
    }

    /** A click on one of the rendered controls, dispatched to its `onClick` handler. */
    method OnClick(c: Control) returns (calls: seq<SectionCall>, alert: Option<string>)
      requires c in Rendered()
      modifies this
      ensures State() == Click(old(State()), c).next
      ensures calls == Click(old(State()), c).calls && alert == Click(old(State()), c).alert
    {
      match c {
        case EditButton =>
          ToggleEditMode();
          calls, alert := [], None;
        case CancelButton =>
          ToggleEditMode();
          calls, alert := [], None;
        case UpdateButton =>
          calls, alert := OnUpdate();
        case RemoveButton =>
          calls, alert := [OnTaskRemove], None;
        case DemoteButton =>
          calls, alert := [OnTaskDemote], None;
        case PromoteButton =>
          calls, alert := [OnTaskPromote], None;
        case Heading(_) =>
          calls, alert := [], None;
        case Textarea(_) =>
          calls, alert := [], None;
      }
    }
  }
}
