/**
 * The placeholder section component: it keeps its own name and list of task
 * texts, starts with no tasks, and its "Add task" button appends the text
 * "new task" to a copy of the list, which then replaces the old one.
 */
module SectionPlaceholder {

  /** The text of every task the button adds. */
  const NEW_TASK_TEXT: string := "new task"

  /** One rendered `<Task text={el}/>`. */
  datatype TaskElement = TaskElement(text: string)

  /** The list after one click: the old texts, then NEW_TASK_TEXT. */
  function PushNewTask(tasks: seq<string>): seq<string>
  {
    tasks + [NEW_TASK_TEXT]
  }

  /** A click adds one task at the end and leaves the earlier ones in place. */
  lemma PushNewTaskAppends(tasks: seq<string>)
    ensures |PushNewTask(tasks)| == |tasks| + 1
    ensures PushNewTask(tasks)[..|tasks|] == tasks
    ensures PushNewTask(tasks)[|tasks|] == NEW_TASK_TEXT
  {
  }

  /** `n` clicks on a new section give `n` tasks, all NEW_TASK_TEXT. */
  function Clicks(n: nat): seq<string>
  {
    if n == 0 then [] else PushNewTask(Clicks(n - 1))
  }

  lemma {:induction false} ClicksAreNewTasks(n: nat)
    ensures |Clicks(n)| == n
    ensures forall i :: 0 <= i < n ==> Clicks(n)[i] == NEW_TASK_TEXT
  {
    if n > 0 {
      ClicksAreNewTasks(n - 1);
    }
  }

  /** `render`: one task element per text, in order. */
  function Render(tasks: seq<string>): (r: seq<TaskElement>)
    ensures |r| == |tasks|
    ensures forall i :: 0 <= i < |r| ==> r[i].text == tasks[i]
  {
    if tasks == [] then [] else [TaskElement(tasks[0])] + Render(tasks[1..])
  }

  /** A click renders the old elements followed by one for the new task. */
  lemma {:induction false} RenderPushNewTask(tasks: seq<string>)
    ensures Render(PushNewTask(tasks)) == Render(tasks) + [TaskElement(NEW_TASK_TEXT)]
  {
    if tasks != [] {
      assert PushNewTask(tasks)[1..] == PushNewTask(tasks[1..]);
      RenderPushNewTask(tasks[1..]);
    }
  }

  class Section {
    var name: string
    var tasks: array<string>

    /** What `render` shows. */
    function Rendered(): seq<TaskElement>
      reads this, tasks
    {
      Render(tasks[..])
    }

    /** `constructor(props)`: the name from the props and no tasks. */
    constructor (name: string)
      ensures this.name == name && tasks[..] == [] && fresh(tasks)
    {
      this.name := name;
      tasks := new string[0];
    }

    /**
     * `onClick`: copies the list (`slice`), appends NEW_TASK_TEXT to the copy
     * (`push`) and makes the copy the state.  The old array is not written.
     */
    method OnClick()
      modifies this
      ensures fresh(tasks)
      ensures tasks[..] == PushNewTask(old(tasks[..]))
      ensures old(tasks)[..] == old(tasks[..])
      ensures name == old(name)
    {
      var previous := tasks;
      var copy := new string[previous.Length + 1];
      var i := 0;
      while i < previous.Length
        invariant 0 <= i <= previous.Length
        invariant copy[..i] == previous[..i]
        invariant name == old(name) && tasks == previous
      {
        copy[i] := previous[i];
        i := i + 1;
      }
      copy[previous.Length] := NEW_TASK_TEXT;
      assert copy[..] == previous[..] + [NEW_TASK_TEXT];
      tasks := copy;
    }
  }
}
