/**
 * The board component: from the aggregate's list of sections it builds one
 * section widget per section, in order.  A widget's capability flags depend
 * only on its index (tasks are editable and can be added only in the first
 * section, cannot move left from the first nor right from the last, and can
 * always be removed), and its callbacks are the board's callbacks with the
 * section's index bound as first argument.
 *
 * A callback is modelled by the event it raises: a section widget raises a
 * `SectionEvent`, and the board's own callback receives the `BoardEvent`
 * that binding the index produces.
 */
module BoardWidget {

  import opened Wrappers
  import opened Payload

  /** What a section widget's callbacks are called with. */
  datatype SectionEvent =
    | AddTask(text: string)
    | TaskPromote(taskIndex: nat)
    | TaskDemote(taskIndex: nat)
    | TaskRemove(taskIndex: nat)
    | TaskUpdate(taskIndex: nat, text: string)

  /** What the board's callbacks (its props) are called with. */
  datatype BoardEvent =
    | BoardAddTask(sectionIndex: nat, text: string)
    | BoardTaskPromote(sectionIndex: nat, taskIndex: nat)
    | BoardTaskDemote(sectionIndex: nat, taskIndex: nat)
    | BoardTaskRemove(sectionIndex: nat, taskIndex: nat)
    | BoardTaskUpdate(sectionIndex: nat, taskIndex: nat, text: string)

  /**
   * The closures of `buildSectionsWidget`: the section's callback with
   * `index` put in front of its arguments.
   */
  function Bind(index: nat, e: SectionEvent): (r: BoardEvent)
  {
    match e
    case AddTask(text) => BoardAddTask(index, text)
    case TaskPromote(t) => BoardTaskPromote(index, t)
    case TaskDemote(t) => BoardTaskDemote(index, t)
    case TaskRemove(t) => BoardTaskRemove(index, t)
    case TaskUpdate(t, text) => BoardTaskUpdate(index, t, text)
  }

  /** The section index a board event carries. */
  function EventSection(r: BoardEvent): nat
  {
    r.sectionIndex
  }

  /** The board event with its section index dropped: the arguments the section passed on. */
  function Unbind(r: BoardEvent): (e: SectionEvent)
  {
    match r
    case BoardAddTask(_, text) => AddTask(text)
    case BoardTaskPromote(_, t) => TaskPromote(t)
    case BoardTaskDemote(_, t) => TaskDemote(t)
    case BoardTaskRemove(_, t) => TaskRemove(t)
    case BoardTaskUpdate(_, t, text) => TaskUpdate(t, text)
  }

  /**
   * Every bound callback passes its own section's index first and forwards
   * the section's arguments unchanged; binding loses nothing, so two
   * sections never raise the same board event.
   */
  lemma BindForwards(index: nat, e: SectionEvent)
    ensures EventSection(Bind(index, e)) == index
    ensures Unbind(Bind(index, e)) == e
    ensures e.AddTask? <==> Bind(index, e).BoardAddTask?
    ensures e.TaskPromote? <==> Bind(index, e).BoardTaskPromote?
    ensures e.TaskDemote? <==> Bind(index, e).BoardTaskDemote?
    ensures e.TaskRemove? <==> Bind(index, e).BoardTaskRemove?
    ensures e.TaskUpdate? <==> Bind(index, e).BoardTaskUpdate?
  {
  }

  /** Binding is injective: distinct sections or distinct arguments give distinct events. */
  lemma BindInjective(i: nat, e: SectionEvent, i': nat, e': SectionEvent)
    ensures Bind(i, e) == Bind(i', e') <==> i == i' && e == e'
  {
    BindForwards(i, e);
    BindForwards(i', e');
  }

  /** Every board event is raised by exactly one section's bound callback. */
  lemma BindOnto(r: BoardEvent)
    ensures Bind(EventSection(r), Unbind(r)) == r
  {
  }

  /** The props one section widget receives. */
  datatype SectionWidget = SectionWidget(
    name: string,
    tasks: seq<TaskEntry>,
    hasTaskAdder: bool,
    boundIndex: nat,           // the index its callbacks carry
    taskEditable: bool,
    taskRemovable: bool,
    taskPromotable: bool,
    taskDemotable: bool)

  /** The widget of the section at `index` among `count` sections. */
  function WidgetAt(s: SectionEntry, index: nat, count: nat): SectionWidget
  {
    var isFirstSection := index == 0;
    var isLastSection := index == count - 1;
    SectionWidget(s.name, s.tasks, isFirstSection, index,
                  isFirstSection, true, !isLastSection, !isFirstSection)
  }

  /** `buildSectionsWidget`: `sections.map` over the index. */
  function BuildSectionsWidget(sections: seq<SectionEntry>): (r: seq<SectionWidget>)
    ensures |r| == |sections|
    ensures forall i :: 0 <= i < |r| ==>
      && r[i].name == sections[i].name && r[i].tasks == sections[i].tasks
      && r[i].boundIndex == i
  {
    seq(|sections|, i requires 0 <= i < |sections| => WidgetAt(sections[i], i, |sections|))
  }

  /**
   * The flags by index: tasks are editable, and can be added, exactly in the
   * first section; promotable exactly outside the last; demotable exactly
   * outside the first; removable everywhere.
   */
  lemma WidgetFlags(sections: seq<SectionEntry>, i: nat)
    requires i < |sections|
    ensures var w := BuildSectionsWidget(sections)[i];
      && (w.taskEditable <==> i == 0)
      && (w.hasTaskAdder <==> i == 0)
      && (w.taskPromotable <==> i != |sections| - 1)
      && (w.taskDemotable <==> i != 0)
      && w.taskRemovable
  {
  }

  /** A board with one section: the section is editable and has the adder, but tasks cannot move. */
  lemma SingleSectionFlags(s: SectionEntry)
    ensures var w := BuildSectionsWidget([s]);
      && |w| == 1
      && w[0].taskEditable && w[0].hasTaskAdder && w[0].taskRemovable
      && !w[0].taskPromotable && !w[0].taskDemotable
  {
  }

  /** Exactly one widget of a non-empty board has the task adder, and it is the editable one. */
  lemma ExactlyOneAdder(sections: seq<SectionEntry>)
    requires |sections| > 0
    ensures var w := BuildSectionsWidget(sections);
      && w[0].hasTaskAdder
      && forall i :: 0 <= i < |w| && w[i].hasTaskAdder ==> i == 0 && w[i].taskEditable
  {
  }

  /**
   * Moves connect neighbours: a task in a promotable section has a section to
   * its right, which is demotable, and vice versa.
   */
  lemma MovesConnectNeighbours(sections: seq<SectionEntry>, i: nat)
    requires i < |sections|
    ensures var w := BuildSectionsWidget(sections);
      && (w[i].taskPromotable <==> i + 1 < |w| && w[i + 1].taskDemotable)
      && (w[i].taskDemotable <==> i > 0 && w[i - 1].taskPromotable)
  {
  }

  /** `render`: no section widgets when `sections` is missing or empty. */
  function Render(sections: Option<seq<SectionEntry>>): (r: Option<seq<SectionWidget>>)
    ensures r.None? <==> sections.None? || |sections.value| == 0
  {
    if sections.Some? && |sections.value| > 0 then Some(BuildSectionsWidget(sections.value)) else None
  }

  /** When there are sections, the rendered widgets are one per section, in order. */
  lemma RenderBuildsEachSection(sections: seq<SectionEntry>)
    requires |sections| > 0
    ensures Render(Some(sections)).Some?
    ensures |Render(Some(sections)).value| == |sections|
    ensures forall i :: 0 <= i < |sections| ==>
      Render(Some(sections)).value[i].name == sections[i].name
      && Render(Some(sections)).value[i].tasks == sections[i].tasks
  {
  }
}
