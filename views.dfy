/**
 * The board server's views over the schema of `Models`: the position helpers,
 * the two task moves, the board aggregate, the default board, and the task
 * views (promote, demote, add, update, delete and the PUT/DELETE router).
 *
 * The database is the field `db` of a `Store`; a view that saves rows
 * reassigns it.  Requests arrive already parsed: the HTTP method and, when the
 * JSON body has a "text" field, its value.  A row that `objects.get` does not
 * find raises `DoesNotExist`, which the views do not catch: the response is
 * then `ServerError(DOES_NOT_EXIST)` and the database is unchanged.
 */
module BoardViews {

  import opened Wrappers
  import opened Models
  import opened Payload

  datatype HttpMethod = GET | POST | PUT | DELETE | OtherMethod

  /** A request: its method and the "text" field of its JSON body, if present. */
  datatype Request = Request(verb: HttpMethod, text: Option<string>)

  datatype Response =
    | Plain(message: string)              // HttpResponse, status 200
    | TaskJson(id: nat, text: string)     // JsonResponse of one task
    | BoardJson(board: BoardEntry)        // JsonResponse of the board aggregate
    | BadRequest(message: string)         // HttpResponseBadRequest, status 400
    | NotAllowed                          // HttpResponseNotAllowed, status 405
    | NoResponse                          // the view returned None
    | ServerError(reason: string)         // an exception the view does not catch

  const PROMOTED: string := "Task promoted"
  const DEMOTED: string := "Task demoted"
  const DELETED: string := "Task deleted"
  const CANNOT_PROMOTE: string := "Task could not be promoted: Task is in last section"
  const CANNOT_DEMOTE: string := "Task could not be demoted: Task is in first section"
  const MISSING_TEXT: string := "Missing \"text\" field in request body"
  const TEXT_TOO_LONG: string := "DataError: value too long for the text column"
  const MULTIPLE_BOARDS: string := "MultipleObjectsReturned: the user has several boards"
  const DOES_NOT_EXIST: string := "DoesNotExist: no row has the requested id"

  /** The index of `x` in `xs`. */
  function Position(xs: seq<nat>, x: nat): (k: nat)
    requires x in xs
    ensures k < |xs| && xs[k] == x
    ensures x !in xs[..k]
  {
    if xs[0] == x then 0
    else
      var k := 1 + Position(xs[1..], x);
      assert xs[..k] == [xs[0]] + xs[1..][..k - 1];
      k
  }

  lemma PositionOfIndex(xs: seq<nat>, i: nat)
    requires Ascending(xs) && i < |xs|
    ensures Position(xs, xs[i]) == i
  {
  }

  /** The sections of the board that section `s` belongs to, in order. */
  function BoardOrder(db: Db, s: nat): (order: seq<nat>)
    requires Integrity(db) && s in db.sections
    ensures s in order && Ascending(order)
    ensures forall x :: x in order <==> x in db.sections && db.sections[x].board == db.sections[s].board
  {
    SectionsOfFacts(db, db.sections[s].board);
    SectionsOf(db, db.sections[s].board)
  }

  /** `isFirstSection`: `s` is the section with the lowest id of its board. */
  function IsFirstSection(db: Db, s: nat): (r: bool)
    requires Integrity(db) && s in db.sections
    ensures r <==> Position(BoardOrder(db, s), s) == 0
  {
    var order := BoardOrder(db, s);
    PositionOfIndex(order, 0);
    s == order[0]
  }

  /** `isLastSection`: `s` is the section with the highest id of its board. */
  function IsLastSection(db: Db, s: nat): (r: bool)
    requires Integrity(db) && s in db.sections
    ensures r <==> Position(BoardOrder(db, s), s) == |BoardOrder(db, s)| - 1
  {
    var order := BoardOrder(db, s);
    PositionOfIndex(order, |order| - 1);
    s == order[|order| - 1]
  }

  /** On a board with one section, that section is both first and last. */
  lemma SingleSectionIsFirstAndLast(db: Db, s: nat)
    requires Integrity(db) && s in db.sections && |BoardOrder(db, s)| == 1
    ensures IsFirstSection(db, s) && IsLastSection(db, s)
  {
  }

  /** The section a task is promoted into: the next one of its board, if any. */
  function NextSection(db: Db, t: nat): (r: Option<nat>)
    requires Integrity(db) && t in db.tasks
    ensures r.None? <==> IsLastSection(db, db.tasks[t].section)
    ensures r.Some? ==>
      var s := db.tasks[t].section;
      && r.value in db.sections
      && db.sections[r.value].board == db.sections[s].board
      && Position(BoardOrder(db, s), r.value) == Position(BoardOrder(db, s), s) + 1
  {
    var s := db.tasks[t].section;
    var order := BoardOrder(db, s);
    var k := Position(order, s);
    if k + 1 < |order| then
      PositionOfIndex(order, k + 1);
      Some(order[k + 1])
    else None
  }

  /** The section a task is demoted into: the previous one of its board, if any. */
  function PreviousSection(db: Db, t: nat): (r: Option<nat>)
    requires Integrity(db) && t in db.tasks
    ensures r.None? <==> IsFirstSection(db, db.tasks[t].section)
    ensures r.Some? ==>
      var s := db.tasks[t].section;
      && r.value in db.sections
      && db.sections[r.value].board == db.sections[s].board
      && Position(BoardOrder(db, s), r.value) + 1 == Position(BoardOrder(db, s), s)
  {
    var s := db.tasks[t].section;
    var order := BoardOrder(db, s);
    var k := Position(order, s);
    if k > 0 then
      PositionOfIndex(order, k - 1);
      Some(order[k - 1])
    else None
  }

  /** `task.section = d; task.save()`. */
  function WithSection(db: Db, t: nat, d: nat): (r: Db)
    requires Integrity(db) && t in db.tasks && d in db.sections
    ensures Integrity(r)
    ensures r.tasks.Keys == db.tasks.Keys && r.tasks[t] == TaskRow(db.tasks[t].text, d)
    ensures forall x :: x in db.tasks && x != t ==> r.tasks[x] == db.tasks[x]
    ensures r.boards == db.boards && r.sections == db.sections
    ensures r.nextBoard == db.nextBoard && r.nextSection == db.nextSection && r.nextTask == db.nextTask
  {
    db.(tasks := db.tasks[t := db.tasks[t].(section := d)])
  }

  /** `task.text = text; task.save()`, for a text the column accepts. */
  function WithText(db: Db, t: nat, text: string): (r: Db)
    requires Integrity(db) && t in db.tasks && |text| <= TEXT_MAXLENGTH
    ensures Integrity(r)
    ensures r.tasks.Keys == db.tasks.Keys && r.tasks[t] == TaskRow(text, db.tasks[t].section)
    ensures forall x :: x in db.tasks && x != t ==> r.tasks[x] == db.tasks[x]
    ensures r.boards == db.boards && r.sections == db.sections
    ensures r.nextBoard == db.nextBoard && r.nextSection == db.nextSection && r.nextTask == db.nextTask
  {
    db.(tasks := db.tasks[t := db.tasks[t].(text := text)])
  }

  /** `Task(text=text, section=s).save()`: a new row under the next task id. */
  function WithNewTask(db: Db, s: nat, text: string): (r: Db)
    requires Integrity(db) && s in db.sections && |text| <= TEXT_MAXLENGTH
    ensures Integrity(r)
    ensures db.nextTask !in db.tasks && r.nextTask == db.nextTask + 1
    ensures r.tasks == db.tasks[db.nextTask := TaskRow(text, s)]
    ensures TasksOf(r, s) == TasksOf(db, s) + [db.nextTask]
    ensures forall s' :: s' != s ==> TasksOf(r, s') == TasksOf(db, s')
    ensures r.boards == db.boards && r.sections == db.sections
    ensures r.nextBoard == db.nextBoard && r.nextSection == db.nextSection
  {
    var n := db.nextTask;
    var r := db.(tasks := db.tasks[n := TaskRow(text, s)], nextTask := n + 1);
    AppendChild(db.tasks, TaskSection, s, n, TaskRow(text, s));
    forall s' | s' != s
      ensures TasksOf(r, s') == TasksOf(db, s')
    {
      AppendChild(db.tasks, TaskSection, s', n, TaskRow(text, s));
    }
    r
  }

  /** `Board(name=name, user=u).save()`: a new board with no sections. */
  function WithNewBoard(db: Db, name: string, u: UserId): (r: Db)
    requires Integrity(db) && |name| <= NAME_MAXLENGTH
    ensures Integrity(r)
    ensures db.nextBoard !in db.boards && r.nextBoard == db.nextBoard + 1
    ensures r.boards == db.boards[db.nextBoard := BoardRow(name, u)]
    ensures BoardsOf(r, u) == BoardsOf(db, u) + [db.nextBoard]
    ensures SectionsOf(r, db.nextBoard) == []
    ensures r.sections == db.sections && r.tasks == db.tasks
    ensures r.nextSection == db.nextSection && r.nextTask == db.nextTask
  {
    var n := db.nextBoard;
    AppendChild(db.boards, BoardUser, u, n, BoardRow(name, u));
    NoChildren(db.sections, SectionBoard, n, db.nextSection);
    db.(boards := db.boards[n := BoardRow(name, u)], nextBoard := n + 1)
  }

  /** `Section(name=name, board=b).save()`: a new section at the end of the board. */
  function WithNewSection(db: Db, b: nat, name: string): (r: Db)
    requires Integrity(db) && b in db.boards && |name| <= NAME_MAXLENGTH
    ensures Integrity(r)
    ensures db.nextSection !in db.sections && r.nextSection == db.nextSection + 1
    ensures r.sections == db.sections[db.nextSection := SectionRow(name, b)]
    ensures SectionsOf(r, b) == SectionsOf(db, b) + [db.nextSection]
    ensures r.boards == db.boards && r.tasks == db.tasks
    ensures r.nextBoard == db.nextBoard && r.nextTask == db.nextTask
  {
    var n := db.nextSection;
    AppendChild(db.sections, SectionBoard, b, n, SectionRow(name, b));
    db.(sections := db.sections[n := SectionRow(name, b)], nextSection := n + 1)
  }

  /** The `n` consecutive ids starting at `a`. */
  function Range(a: nat, n: nat): (r: seq<nat>)
    ensures |r| == n && forall k :: 0 <= k < n ==> r[k] == a + k
  {
    seq(n, k => a + k)
  }

  /** Saving one new section per name, in order, at the end of board `b`. */
  function WithNewSections(db: Db, b: nat, names: seq<string>): (r: Db)
    requires Integrity(db) && b in db.boards
    requires forall k :: 0 <= k < |names| ==> |names[k]| <= NAME_MAXLENGTH
    ensures Integrity(r) && r.boards == db.boards
    decreases |names|
  {
    if names == [] then db
    else
      var last := |names| - 1;
      WithNewSection(WithNewSections(db, b, names[..last]), b, names[last])
  }

  /**
   * The sections saved by `WithNewSections` take the next ids in order, are
   * appended to the board's list in that order, and carry the given names;
   * nothing else changes.
   */
  lemma {:induction false} WithNewSectionsFacts(db: Db, b: nat, names: seq<string>)
    requires Integrity(db) && b in db.boards
    requires forall k :: 0 <= k < |names| ==> |names[k]| <= NAME_MAXLENGTH
    ensures var r := WithNewSections(db, b, names);
      && r.tasks == db.tasks
      && r.nextBoard == db.nextBoard && r.nextTask == db.nextTask
      && r.nextSection == db.nextSection + |names|
      && SectionsOf(r, b) == SectionsOf(db, b) + Range(db.nextSection, |names|)
      && (forall s :: s in r.sections <==> s in db.sections || db.nextSection <= s < r.nextSection)
      && (forall s :: s in db.sections ==> r.sections[s] == db.sections[s])
      && (forall s :: s in r.sections && s !in db.sections ==> r.sections[s].board == b)
      && (forall k :: 0 <= k < |names| ==>
            db.nextSection + k in r.sections && r.sections[db.nextSection + k] == SectionRow(names[k], b))
    decreases |names|
  {
    if names != [] {
      var last := |names| - 1;
      assert names == names[..last] + [names[last]];
      WithNewSectionsFacts(db, b, names[..last]);
      var prefix := WithNewSections(db, b, names[..last]);
      var r := WithNewSection(prefix, b, names[last]);
      NewSectionsStep(db, prefix, r, b, names[..last], names[last]);
    }
  }

  /** The inductive step of `WithNewSections`: saving one more name after the others. */
  lemma NewSectionsStep(db: Db, prefix: Db, r: Db, b: nat, init: seq<string>, name: string)
    requires forall s :: s in db.sections ==> s < db.nextSection
    requires prefix.nextSection == db.nextSection + |init|
    requires SectionsOf(prefix, b) == SectionsOf(db, b) + Range(db.nextSection, |init|)
    requires forall s :: s in prefix.sections <==> s in db.sections || db.nextSection <= s < prefix.nextSection
    requires forall s :: s in db.sections ==> prefix.sections[s] == db.sections[s]
    requires forall s :: s in prefix.sections && s !in db.sections ==> prefix.sections[s].board == b
    requires forall k :: 0 <= k < |init| ==> prefix.sections[db.nextSection + k] == SectionRow(init[k], b)
    requires r.nextSection == prefix.nextSection + 1
    requires r.sections == prefix.sections[prefix.nextSection := SectionRow(name, b)]
    requires SectionsOf(r, b) == SectionsOf(prefix, b) + [prefix.nextSection]
    ensures SectionsOf(r, b) == SectionsOf(db, b) + Range(db.nextSection, |init| + 1)
    ensures forall s :: s in r.sections <==> s in db.sections || db.nextSection <= s < r.nextSection
    ensures forall s :: s in db.sections ==> r.sections[s] == db.sections[s]
    ensures forall s :: s in r.sections && s !in db.sections ==> r.sections[s].board == b
    ensures forall k :: 0 <= k < |init| + 1 ==>
      db.nextSection + k in r.sections && r.sections[db.nextSection + k] == SectionRow((init + [name])[k], b)
  {
    assert Range(db.nextSection, |init|) + [db.nextSection + |init|] == Range(db.nextSection, |init| + 1);
  }

  /** A move never changes any board's list of sections. */
  lemma WithSectionKeepsOrder(db: Db, t: nat, d: nat, s: nat)
    requires Integrity(db) && t in db.tasks && d in db.sections && s in db.sections
    ensures BoardOrder(WithSection(db, t, d), s) == BoardOrder(db, s)
  {
  }

  /**
   * A move changes the task lists of the task's old and new section only:
   * every other section lists the same tasks in the same order.
   */
  lemma WithSectionKeepsOtherTaskLists(db: Db, t: nat, d: nat, s: nat)
    requires Integrity(db) && t in db.tasks && d in db.sections
    requires s != db.tasks[t].section && s != d
    ensures TasksOf(WithSection(db, t, d), s) == TasksOf(db, s)
  {
    ChildrenUpdate(db.tasks, TaskSection, s, db.nextTask, t, db.tasks[t].(section := d));
  }

  /** Round trip: a promotion followed by a demotion of the same task restores the store. */
  lemma PromoteThenDemote(db: Db, t: nat)
    requires Integrity(db) && t in db.tasks && NextSection(db, t).Some?
    ensures
      var s := db.tasks[t].section;
      var promoted := WithSection(db, t, NextSection(db, t).value);
      && PreviousSection(promoted, t) == Some(s)
      && WithSection(promoted, t, s) == db
  {
    var s := db.tasks[t].section;
    var d := NextSection(db, t).value;
    var promoted := WithSection(db, t, d);
    assert BoardOrder(promoted, d) == BoardOrder(db, s);
    var order := BoardOrder(db, s);
    PositionOfIndex(order, Position(order, s));
    assert promoted.tasks[t := TaskRow(db.tasks[t].text, s)] == db.tasks;
  }

  /** Round trip: a demotion followed by a promotion of the same task restores the store. */
  lemma DemoteThenPromote(db: Db, t: nat)
    requires Integrity(db) && t in db.tasks && PreviousSection(db, t).Some?
    ensures
      var s := db.tasks[t].section;
      var demoted := WithSection(db, t, PreviousSection(db, t).value);
      && NextSection(demoted, t) == Some(s)
      && WithSection(demoted, t, s) == db
  {
    var s := db.tasks[t].section;
    var d := PreviousSection(db, t).value;
    var demoted := WithSection(db, t, d);
    assert BoardOrder(demoted, d) == BoardOrder(db, s);
    var order := BoardOrder(db, s);
    PositionOfIndex(order, Position(order, s));
    assert demoted.tasks[t := TaskRow(db.tasks[t].text, s)] == db.tasks;
  }

  /** The tasks of section `s` as aggregate entries. */
  function TaskEntries(db: Db, s: nat): (r: seq<TaskEntry>)
    requires Integrity(db)
    ensures |r| == |TasksOf(db, s)|
    ensures forall j :: 0 <= j < |r| ==>
      r[j].id == TasksOf(db, s)[j] && r[j].id in db.tasks && r[j].text == db.tasks[r[j].id].text
  {
    TasksOfFacts(db, s);
    var ts := TasksOf(db, s);
    seq(|ts|, j requires 0 <= j < |ts| => TaskEntry(ts[j], db.tasks[ts[j]].text))
  }

  /**
   * `create_board_aggregate`: one entry per section of the board and one per
   * task of each section, in id order, with ids, names and texts copied.
   */
  function Aggregate(db: Db, b: nat): (r: BoardEntry)
    requires Integrity(db) && b in db.boards
    ensures r.id == b && r.name == db.boards[b].name
    ensures |r.sections| == |SectionsOf(db, b)|
    ensures forall i :: 0 <= i < |r.sections| ==>
      && r.sections[i].id == SectionsOf(db, b)[i]
      && r.sections[i].id in db.sections
      && r.sections[i].name == db.sections[r.sections[i].id].name
      && |r.sections[i].tasks| == |TasksOf(db, r.sections[i].id)|
    ensures forall i, j :: 0 <= i < |r.sections| && 0 <= j < |r.sections[i].tasks| ==>
      && r.sections[i].tasks[j].id == TasksOf(db, r.sections[i].id)[j]
      && r.sections[i].tasks[j].id in db.tasks
      && r.sections[i].tasks[j].text == db.tasks[r.sections[i].tasks[j].id].text
  {
    SectionsOfFacts(db, b);
    var order := SectionsOf(db, b);
    BoardEntry(b, db.boards[b].name,
      seq(|order|, i requires 0 <= i < |order| =>
        SectionEntry(order[i], db.sections[order[i]].name, TaskEntries(db, order[i]))))
  }

  /** The aggregate lists a task exactly when the task is on the board. */
  lemma AggregateListsBoardTasks(db: Db, b: nat, t: nat)
    requires Integrity(db) && b in db.boards && t in db.tasks
    ensures
      var agg := Aggregate(db, b);
      (db.sections[db.tasks[t].section].board == b <==>
        exists i, j :: 0 <= i < |agg.sections| && 0 <= j < |agg.sections[i].tasks|
                       && agg.sections[i].tasks[j].id == t)
  {
    var agg := Aggregate(db, b);
    var order := SectionsOf(db, b);
    SectionsOfFacts(db, b);
    var s := db.tasks[t].section;
    if db.sections[s].board == b {
      var i := Position(order, s);
      TasksOfFacts(db, s);
      var j := Position(TasksOf(db, s), t);
      assert agg.sections[i].tasks[j].id == t;
    } else {
      forall i, j | 0 <= i < |agg.sections| && 0 <= j < |agg.sections[i].tasks|
        ensures agg.sections[i].tasks[j].id != t
      {
        TasksOfFacts(db, order[i]);
      }
    }
  }

  /** A task the aggregate lists appears at exactly one place. */
  lemma AggregateListsTaskOnce(db: Db, b: nat, t: nat)
    requires Integrity(db) && b in db.boards
    ensures
      var agg := Aggregate(db, b);
      forall i, j, i', j' ::
        && 0 <= i < |agg.sections| && 0 <= j < |agg.sections[i].tasks|
        && 0 <= i' < |agg.sections| && 0 <= j' < |agg.sections[i'].tasks|
        && agg.sections[i].tasks[j].id == t && agg.sections[i'].tasks[j'].id == t
        ==> i == i' && j == j'
  {
    var agg := Aggregate(db, b);
    var order := SectionsOf(db, b);
    SectionsOfFacts(db, b);
    forall i | 0 <= i < |order| {
      TasksOfFacts(db, order[i]);
    }
  }

  /** A new board named `name` for user `u`, then one new section per entry of `names`. */
  function WithBoardAndSections(db: Db, u: UserId, name: string, names: seq<string>): (r: Db)
    requires Integrity(db) && |name| <= NAME_MAXLENGTH
    requires forall k :: 0 <= k < |names| ==> |names[k]| <= NAME_MAXLENGTH
    ensures Integrity(r)
  {
    WithNewSections(WithNewBoard(db, name, u), db.nextBoard, names)
  }

  /** The database after `create_default_board` for user `u`. */
  function DefaultBoard(db: Db, u: UserId): (r: Db)
    requires Integrity(db)
    ensures Integrity(r)
  {
    WithBoardAndSections(db, u, DEFAULT_BOARD_NAME, DEFAULT_SECTION_NAMES)
  }

  /** The new board's sections are, in order, the new sections named after `names`. */
  lemma NewBoardSections(db: Db, u: UserId, name: string, names: seq<string>)
    requires Integrity(db) && |name| <= NAME_MAXLENGTH
    requires forall k :: 0 <= k < |names| ==> |names[k]| <= NAME_MAXLENGTH
    ensures var r := WithBoardAndSections(db, u, name, names);
      && db.nextBoard in r.boards
      && SectionsOf(r, db.nextBoard) == Range(db.nextSection, |names|)
      && (forall k :: 0 <= k < |names| ==>
            db.nextSection + k in r.sections && r.sections[db.nextSection + k] == SectionRow(names[k], db.nextBoard))
  {
    var mid := WithNewBoard(db, name, u);
    assert mid.nextSection == db.nextSection && SectionsOf(mid, db.nextBoard) == [];
    WithNewSectionsFacts(mid, db.nextBoard, names);
    var r := WithNewSections(mid, db.nextBoard, names);
    assert r == WithBoardAndSections(db, u, name, names);
    forall k | 0 <= k < |names|
      ensures db.nextSection + k in r.sections && r.sections[db.nextSection + k] == SectionRow(names[k], db.nextBoard)
    {
      assert r.sections[mid.nextSection + k] == SectionRow(names[k], db.nextBoard);
    }
  }

  /**
   * Creating a board with its sections adds one board to the user's list,
   * changes no existing board, section or task, and every new section belongs
   * to the new board and has no task.
   */
  lemma NewBoardKeepsRows(db: Db, u: UserId, name: string, names: seq<string>)
    requires Integrity(db) && |name| <= NAME_MAXLENGTH
    requires forall k :: 0 <= k < |names| ==> |names[k]| <= NAME_MAXLENGTH
    ensures var r := WithBoardAndSections(db, u, name, names);
      && db.nextBoard !in db.boards
      && r.boards == db.boards[db.nextBoard := BoardRow(name, u)]
      && BoardsOf(r, u) == BoardsOf(db, u) + [db.nextBoard]
      && (forall s :: s in db.sections ==> s in r.sections && r.sections[s] == db.sections[s])
      && (forall s :: s in r.sections && s !in db.sections ==>
            r.sections[s].board == db.nextBoard && TasksOf(r, s) == [])
      && r.tasks == db.tasks
  {
    var mid := WithNewBoard(db, name, u);
    WithNewSectionsFacts(mid, db.nextBoard, names);
    var r := WithBoardAndSections(db, u, name, names);
    forall s | s in r.sections && s !in db.sections
      ensures TasksOf(r, s) == []
    {
      NoChildren(r.tasks, TaskSection, s, r.nextTask);
    }
  }

  /**
   * The aggregate of a freshly created board: its name, and one entry per
   * name of `names`, in order, with the section's new id and no tasks.
   */
  lemma NewBoardAggregate(db: Db, u: UserId, name: string, names: seq<string>)
    requires Integrity(db) && |name| <= NAME_MAXLENGTH
    requires forall k :: 0 <= k < |names| ==> |names[k]| <= NAME_MAXLENGTH
    ensures var r := WithBoardAndSections(db, u, name, names);
      && db.nextBoard in r.boards
      && var agg := Aggregate(r, db.nextBoard);
      && agg.id == db.nextBoard && agg.name == name
      && |agg.sections| == |names|
      && forall i :: 0 <= i < |names| ==> agg.sections[i] == SectionEntry(db.nextSection + i, names[i], [])
  {
    NewBoardSections(db, u, name, names);
    NewBoardKeepsRows(db, u, name, names);
  }

  /** The whole database, as the views see it. */
  class Store {
    var db: Db

    constructor ()
      ensures db == EMPTY_DB && Integrity(db)
    {
      db := EMPTY_DB;
    }

    /**
     * `move_task_to_next_section`: scans the board's sections with a flag
     * that is raised on the task's own section; the section after it becomes
     * the task's section.  From the last section the scan ends with no move.
     */
    method MoveTaskToNextSection(t: nat)
      requires Integrity(db) && t in db.tasks
      modifies this
      ensures Integrity(db)
      ensures db == match NextSection(old(db), t)
                    case Some(d) => WithSection(old(db), t, d)
                    case None => old(db)
    {
      var source := db.tasks[t].section;
      var order := BoardOrder(db, source);
      ghost var k := Position(order, source);
      PositionOfIndex(order, k);
      var isDestinationSection := false;
      var i := 0;
      while i < |order|
        invariant 0 <= i <= |order| && i <= k + 1
        invariant db == old(db)
        invariant isDestinationSection <==> i > k
      {
        var section := order[i];
        if isDestinationSection {
          db := WithSection(db, t, section);
          return;
        }
        if section == source {
          isDestinationSection := true;
        }
        i := i + 1;
      }
    }

    /**
     * `move_task_to_previous_section`: scans the board's sections remembering
     * the last one seen; on reaching the task's own section, that one becomes
     * the task's section.  From the first section the source would assign
     * `None`, which the non-null column rejects; the view never calls it there.
     */
    method MoveTaskToPreviousSection(t: nat)
      requires Integrity(db) && t in db.tasks
      requires !IsFirstSection(db, db.tasks[t].section)
      modifies this
      ensures Integrity(db)
      ensures PreviousSection(old(db), t).Some?
      ensures db == WithSection(old(db), t, PreviousSection(old(db), t).value)
    {
      var source := db.tasks[t].section;
      var order := BoardOrder(db, source);
      ghost var k := Position(order, source);
      PositionOfIndex(order, k);
      var lastSection: Option<nat> := None;
      var i := 0;
      while i < |order|
        invariant 0 <= i <= k
        invariant db == old(db)
        invariant lastSection == if i == 0 then None else Some(order[i - 1])
      {
        var section := order[i];
        if section == source {
          db := WithSection(db, t, lastSection.value);
          return;
        }
        lastSection := Some(section);
        i := i + 1;
      }
    }

    /** `promote_task`: moves the task one section to the right unless it is in the last one. */
    method PromoteTask(req: Request, sectionId: nat, taskId: nat) returns (resp: Response)
      requires Integrity(db)
      modifies this
      ensures Integrity(db)
      ensures req.verb != POST ==> resp == NotAllowed && db == old(db)
      ensures req.verb == POST && taskId !in old(db.tasks) ==> resp == ServerError(DOES_NOT_EXIST) && db == old(db)
      ensures req.verb == POST && taskId in old(db.tasks) && IsLastSection(old(db), old(db.tasks[taskId].section)) ==>
        resp == BadRequest(CANNOT_PROMOTE) && db == old(db)
      ensures req.verb == POST && taskId in old(db.tasks) && !IsLastSection(old(db), old(db.tasks[taskId].section)) ==>
        && resp == Plain(PROMOTED)
        && NextSection(old(db), taskId).Some?
        && db == WithSection(old(db), taskId, NextSection(old(db), taskId).value)
    {
      if req.verb != POST {
        return NotAllowed;
      }
      if taskId !in db.tasks {
        return ServerError(DOES_NOT_EXIST);
      }
      var section := db.tasks[taskId].section;
      if !IsLastSection(db, section) {
        MoveTaskToNextSection(taskId);
        resp := Plain(PROMOTED);
      } else {
        resp := BadRequest(CANNOT_PROMOTE);
      }
    }

    /** `demote_task`: moves the task one section to the left unless it is in the first one. */
    method DemoteTask(req: Request, sectionId: nat, taskId: nat) returns (resp: Response)
      requires Integrity(db)
      modifies this
      ensures Integrity(db)
      ensures req.verb != POST ==> resp == NotAllowed && db == old(db)
      ensures req.verb == POST && taskId !in old(db.tasks) ==> resp == ServerError(DOES_NOT_EXIST) && db == old(db)
      ensures req.verb == POST && taskId in old(db.tasks) && IsFirstSection(old(db), old(db.tasks[taskId].section)) ==>
        resp == BadRequest(CANNOT_DEMOTE) && db == old(db)
      ensures req.verb == POST && taskId in old(db.tasks) && !IsFirstSection(old(db), old(db.tasks[taskId].section)) ==>
        && resp == Plain(DEMOTED)
        && PreviousSection(old(db), taskId).Some?
        && db == WithSection(old(db), taskId, PreviousSection(old(db), taskId).value)
    {
      if req.verb != POST {
        return NotAllowed;
      }
      if taskId !in db.tasks {
        return ServerError(DOES_NOT_EXIST);
      }
      var section := db.tasks[taskId].section;
      if !IsFirstSection(db, section) {
        MoveTaskToPreviousSection(taskId);
        resp := Plain(DEMOTED);
      } else {
        resp := BadRequest(CANNOT_DEMOTE);
      }
    }

    /** `create_board_aggregate`: builds the section list and each task list by appending. */
    method CreateBoardAggregate(b: nat) returns (agg: BoardEntry)
      requires Integrity(db) && b in db.boards
      ensures agg == Aggregate(db, b)
    {
      ghost var spec := Aggregate(db, b);
      var order := SectionsOf(db, b);
      SectionsOfFacts(db, b);
      var sectionList: seq<SectionEntry> := [];
      var i := 0;
      while i < |order|
        invariant 0 <= i <= |order|
        invariant sectionList == spec.sections[..i]
      {
        var section := order[i];
        var ts := TasksOf(db, section);
        TasksOfFacts(db, section);
        var taskList: seq<TaskEntry> := [];
        var j := 0;
        while j < |ts|
          invariant 0 <= j <= |ts|
          invariant taskList == spec.sections[i].tasks[..j]
        {
          taskList := taskList + [TaskEntry(ts[j], db.tasks[ts[j]].text)];
          j := j + 1;
        }
        assert taskList == spec.sections[i].tasks;
        assert spec.sections[i] == SectionEntry(section, db.sections[section].name, taskList);
        sectionList := sectionList + [SectionEntry(section, db.sections[section].name, taskList)];
        i := i + 1;
      }
      agg := BoardEntry(b, db.boards[b].name, sectionList);
    }

    /**
     * `create_default_board`: saves a board named DEFAULT_BOARD_NAME for the
     * user, then one section per DEFAULT_SECTION_NAMES entry, in order.
     */
    method CreateDefaultBoard(user: UserId) returns (b: nat)
      requires Integrity(db)
      modifies this
      ensures Integrity(db)
      ensures b == old(db.nextBoard) && db == DefaultBoard(old(db), user)
    {
      b := db.nextBoard;
      db := WithNewBoard(db, DEFAULT_BOARD_NAME, user);
      SaveSections(b, DEFAULT_SECTION_NAMES);
    }

    /** The loop of `create_default_board`: one new section per name, in order. */
    method SaveSections(b: nat, names: seq<string>)
      requires Integrity(db) && b in db.boards
      requires forall k :: 0 <= k < |names| ==> |names[k]| <= NAME_MAXLENGTH
      modifies this
      ensures db == WithNewSections(old(db), b, names)
    {
      var i := 0;
      while i < |names|
        invariant 0 <= i <= |names|
        invariant db == WithNewSections(old(db), b, names[..i])
      {
        assert names[..i + 1][..i] == names[..i];
        db := WithNewSection(db, b, names[i]);
        i := i + 1;
      }
      assert names[..i] == names;
    }

    /**
     * `board`: the aggregate of the user's board; a user without one first
     * gets a default board.  A user with several boards makes the lookup raise.
     */
    method BoardView(user: UserId) returns (resp: Response)
      requires Integrity(db)
      modifies this
      ensures Integrity(db)
      ensures |old(BoardsOf(db, user))| == 1 ==>
        && db == old(db) && BoardsOf(db, user)[0] in db.boards
        && resp == BoardJson(Aggregate(db, BoardsOf(db, user)[0]))
      ensures |old(BoardsOf(db, user))| > 1 ==>
        db == old(db) && resp == ServerError(MULTIPLE_BOARDS)
      ensures |old(BoardsOf(db, user))| == 0 ==>
        && db == DefaultBoard(old(db), user)
        && BoardsOf(db, user) == [old(db.nextBoard)] && old(db.nextBoard) in db.boards
        && resp == BoardJson(Aggregate(db, old(db.nextBoard)))
        && resp.board.name == DEFAULT_BOARD_NAME
        && |resp.board.sections| == |DEFAULT_SECTION_NAMES|
        && (forall i :: 0 <= i < |DEFAULT_SECTION_NAMES| ==>
              resp.board.sections[i] == SectionEntry(old(db.nextSection) + i, DEFAULT_SECTION_NAMES[i], []))
    {
      var owned := BoardsOf(db, user);
      BoardsOfFacts(db, user);
      if |owned| == 0 {
        NewBoardKeepsRows(db, user, DEFAULT_BOARD_NAME, DEFAULT_SECTION_NAMES);
        NewBoardAggregate(db, user, DEFAULT_BOARD_NAME, DEFAULT_SECTION_NAMES);
        var b := CreateDefaultBoard(user);
        var agg := CreateBoardAggregate(b);
        resp := BoardJson(agg);
      } else if |owned| == 1 {
        var agg := CreateBoardAggregate(owned[0]);
        resp := BoardJson(agg);
      } else {
        resp := ServerError(MULTIPLE_BOARDS);
      }
    }

    /**
     * `add_task_to_section`: a POST with a "text" field saves a new task at
     * the end of the section and answers with its id and text.
     */
    method AddTaskToSection(req: Request, sectionId: nat) returns (resp: Response)
      requires Integrity(db)
      modifies this
      ensures Integrity(db)
      ensures req.verb != POST ==> resp == NotAllowed && db == old(db)
      ensures req.verb == POST && req.text.None? ==> resp == BadRequest(MISSING_TEXT) && db == old(db)
      ensures req.verb == POST && req.text.Some? && sectionId !in old(db.sections) ==>
        resp == ServerError(DOES_NOT_EXIST) && db == old(db)
      ensures req.verb == POST && req.text.Some? && sectionId in old(db.sections) && |req.text.value| > TEXT_MAXLENGTH ==>
        resp == ServerError(TEXT_TOO_LONG) && db == old(db)
      ensures req.verb == POST && req.text.Some? && sectionId in old(db.sections) && |req.text.value| <= TEXT_MAXLENGTH ==>
        && resp == TaskJson(old(db.nextTask), req.text.value)
        && db == WithNewTask(old(db), sectionId, req.text.value)
    {
      if req.verb == POST {
        if req.text.Some? {
          if sectionId !in db.sections {
            return ServerError(DOES_NOT_EXIST);
          }
          var text := req.text.value;
          if |text| <= TEXT_MAXLENGTH {
            var id := db.nextTask;
            db := WithNewTask(db, sectionId, text);
            resp := TaskJson(id, text);
          } else {
            resp := ServerError(TEXT_TOO_LONG);
          }
        } else {
          resp := BadRequest(MISSING_TEXT);
        }
      } else {
        resp := NotAllowed;
      }
    }

    /**
     * `update_task`: a PUT with a "text" field replaces the task's text and
     * answers with the task.  A PUT without it falls through every branch
     * and the view returns nothing.
     */
    method UpdateTask(req: Request, taskId: nat) returns (resp: Response)
      requires Integrity(db)
      modifies this
      ensures Integrity(db)
      ensures req.verb != PUT ==> resp == NotAllowed && db == old(db)
      ensures req.verb == PUT && req.text.None? ==> resp == NoResponse && db == old(db)
      ensures req.verb == PUT && req.text.Some? && taskId !in old(db.tasks) ==>
        resp == ServerError(DOES_NOT_EXIST) && db == old(db)
      ensures req.verb == PUT && req.text.Some? && taskId in old(db.tasks) && |req.text.value| > TEXT_MAXLENGTH ==>
        resp == ServerError(TEXT_TOO_LONG) && db == old(db)
      ensures req.verb == PUT && req.text.Some? && taskId in old(db.tasks) && |req.text.value| <= TEXT_MAXLENGTH ==>
        && resp == TaskJson(taskId, req.text.value)
        && db == WithText(old(db), taskId, req.text.value)
    {
      if req.verb == PUT {
        if req.text.Some? {
          if taskId !in db.tasks {
            return ServerError(DOES_NOT_EXIST);
          }
          var text := req.text.value;
          if |text| <= TEXT_MAXLENGTH {
            db := WithText(db, taskId, text);
            resp := TaskJson(taskId, text);
          } else {
            resp := ServerError(TEXT_TOO_LONG);
          }
        } else {
          resp := NoResponse;
        }
      } else {
        resp := NotAllowed;
      }
    }

    /** `delete_task`: a DELETE removes the one task. */
    method DeleteTask(req: Request, taskId: nat) returns (resp: Response)
      requires Integrity(db)
      modifies this
      ensures Integrity(db)
      ensures req.verb != DELETE ==> resp == NotAllowed && db == old(db)
      ensures req.verb == DELETE && taskId !in old(db.tasks) ==> resp == ServerError(DOES_NOT_EXIST) && db == old(db)
      ensures req.verb == DELETE && taskId in old(db.tasks) ==>
        resp == Plain(DELETED) && db == DeleteTaskRow(old(db), taskId)
    {
      if req.verb == DELETE {
        if taskId !in db.tasks {
          return ServerError(DOES_NOT_EXIST);
        }
        db := DeleteTaskRow(db, taskId);
        resp := Plain(DELETED);
      } else {
        resp := NotAllowed;
      }
    }

    /** `task_action_router`: PUT goes to `update_task`, DELETE to `delete_task`. */
    method TaskActionRouter(req: Request, sectionId: nat, taskId: nat) returns (resp: Response)
      requires Integrity(db)
      modifies this
      ensures Integrity(db)
      ensures req.verb != PUT && req.verb != DELETE ==> resp == NotAllowed && db == old(db)
      ensures req.verb == PUT && req.text.None? ==> resp == NoResponse && db == old(db)
      ensures (req.verb == DELETE || (req.verb == PUT && req.text.Some?)) && taskId !in old(db.tasks) ==>
        resp == ServerError(DOES_NOT_EXIST) && db == old(db)
      ensures req.verb == PUT && req.text.Some? && taskId in old(db.tasks) && |req.text.value| > TEXT_MAXLENGTH ==>
        resp == ServerError(TEXT_TOO_LONG) && db == old(db)
      ensures req.verb == PUT && req.text.Some? && taskId in old(db.tasks) && |req.text.value| <= TEXT_MAXLENGTH ==>
        && resp == TaskJson(taskId, req.text.value)
        && db == WithText(old(db), taskId, req.text.value)
      ensures req.verb == DELETE && taskId in old(db.tasks) ==>
        resp == Plain(DELETED) && db == DeleteTaskRow(old(db), taskId)
    {
      if req.verb == PUT {
        resp := UpdateTask(req, taskId);
      } else if req.verb == DELETE {
        resp := DeleteTask(req, taskId);
      } else {
        resp := NotAllowed;
      }
    }
  }
}
