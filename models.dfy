/**
 * The board schema: the Board, Section and Task records, their length limits,
 * the default board, and the ForeignKey rules (every section names one
 * existing board, every task one existing section, deletion cascades).
 *
 * The database is a value: one map per table from primary key to row, and one
 * autoincrement counter per table.  The schema gives no ordering, so the
 * order of `section_set.all()` and `task_set.all()` is not fixed by the
 * database; the model takes the ascending primary-key order that the server's
 * position helpers describe, and `Children` computes it by scanning the keys
 * below the table's counter.
 */
module Models {

  /** Maximum length of a Board or Section name. */
  const NAME_MAXLENGTH: nat := 250

  /** Maximum length of a Task text. */
  const TEXT_MAXLENGTH: nat := 250

  /** The name of a board created for a user who has none. */
  const DEFAULT_BOARD_NAME: string := "Default Board"

  /** The sections of a default board, in column order. */
  const DEFAULT_SECTION_NAMES: seq<string> := ["TODO", "DOING", "DONE"]

  /** The primary key of a user of the authentication framework. */
  type UserId = nat

  datatype BoardRow = BoardRow(name: string, user: UserId)

  datatype SectionRow = SectionRow(name: string, board: nat)

  datatype TaskRow = TaskRow(text: string, section: nat)

  datatype Db = Db(
    boards: map<nat, BoardRow>,
    sections: map<nat, SectionRow>,
    tasks: map<nat, TaskRow>,
    nextBoard: nat,
    nextSection: nat,
    nextTask: nat)

  /** The database before any row is saved; primary keys start at 1. */
  const EMPTY_DB: Db := Db(map[], map[], map[], 1, 1, 1)

  function BoardUser(r: BoardRow): nat { r.user }

  function SectionBoard(r: SectionRow): nat { r.board }

  function TaskSection(r: TaskRow): nat { r.section }

  /**
   * The schema's integrity: every key was handed out by its table's counter,
   * every ForeignKey points to an existing row, and every CharField respects
   * its max_length.
   */
  predicate Integrity(db: Db)
  {
    && (forall b :: b in db.boards ==> b < db.nextBoard && |db.boards[b].name| <= NAME_MAXLENGTH)
    && (forall s :: s in db.sections ==>
          s < db.nextSection && db.sections[s].board in db.boards
          && |db.sections[s].name| <= NAME_MAXLENGTH)
    && (forall t :: t in db.tasks ==>
          t < db.nextTask && db.tasks[t].section in db.sections
          && |db.tasks[t].text| <= TEXT_MAXLENGTH)
  }

  lemma EmptyDbIntegrity()
    ensures Integrity(EMPTY_DB)
  {
  }

  /** Strictly ascending, hence free of duplicates. */
  predicate Ascending(xs: seq<nat>)
  {
    forall i, j :: 0 <= i < j < |xs| ==> xs[i] < xs[j]
  }

  /**
   * The keys below `n` of the rows of `m` whose parent is `p`, in ascending
   * order: the order in which `p.child_set.all()` is taken to yield them.
   */
  function Children<V>(m: map<nat, V>, parent: V -> nat, p: nat, n: nat): seq<nat>
  {
    if n == 0 then []
    else
      var r0 := Children(m, parent, p, n - 1);
      if n - 1 in m && parent(m[n - 1]) == p then r0 + [n - 1] else r0
  }

  /** The scan lists only children of `p`. */
  lemma {:induction false} ChildrenSound<V>(m: map<nat, V>, parent: V -> nat, p: nat, n: nat)
    ensures forall i :: 0 <= i < |Children(m, parent, p, n)| ==>
      && Children(m, parent, p, n)[i] < n
      && Children(m, parent, p, n)[i] in m
      && parent(m[Children(m, parent, p, n)[i]]) == p
  {
    if n > 0 {
      ChildrenSound(m, parent, p, n - 1);
      var r0 := Children(m, parent, p, n - 1);
      if n - 1 in m && parent(m[n - 1]) == p {
        assert Children(m, parent, p, n) == r0 + [n - 1];
      } else {
        assert Children(m, parent, p, n) == r0;
      }
    }
  }

  /** The scan lists every child of `p` below `n`. */
  lemma {:induction false} ChildrenComplete<V>(m: map<nat, V>, parent: V -> nat, p: nat, n: nat)
    ensures forall x :: x in m && x < n && parent(m[x]) == p ==> x in Children(m, parent, p, n)
  {
    if n > 0 {
      ChildrenComplete(m, parent, p, n - 1);
    }
  }

  /** The scan lists keys in ascending order, so no key twice. */
  lemma {:induction false} ChildrenAscending<V>(m: map<nat, V>, parent: V -> nat, p: nat, n: nat)
    ensures Ascending(Children(m, parent, p, n))
  {
    if n > 0 {
      ChildrenAscending(m, parent, p, n - 1);
      ChildrenSound(m, parent, p, n - 1);
      var r0 := Children(m, parent, p, n - 1);
      if n - 1 in m && parent(m[n - 1]) == p {
        assert Children(m, parent, p, n) == r0 + [n - 1];
      } else {
        assert Children(m, parent, p, n) == r0;
      }
    }
  }

  /** A key no row points to has no children. */
  lemma {:induction false} NoChildren<V>(m: map<nat, V>, parent: V -> nat, p: nat, n: nat)
    requires forall x :: x in m ==> parent(m[x]) != p
    ensures Children(m, parent, p, n) == []
  {
    if n > 0 {
      NoChildren(m, parent, p, n - 1);
    }
  }

  /** Rows at or above `n` do not affect the scan below `n`. */
  lemma {:induction false} ChildrenBelow<V>(m: map<nat, V>, m': map<nat, V>, parent: V -> nat, p: nat, n: nat)
    requires forall x :: x < n ==> (x in m <==> x in m')
    requires forall x :: x < n && x in m ==> m[x] == m'[x]
    ensures Children(m, parent, p, n) == Children(m', parent, p, n)
  {
    if n > 0 {
      ChildrenBelow(m, m', parent, p, n - 1);
    }
  }

  /** Saving a new row under the counter appends it to its parent's children only. */
  lemma AppendChild<V>(m: map<nat, V>, parent: V -> nat, p: nat, n: nat, v: V)
    requires forall x :: x in m ==> x < n
    ensures Children(m[n := v], parent, p, n + 1)
         == Children(m, parent, p, n) + (if parent(v) == p then [n] else [])
  {
    ChildrenBelow(m, m[n := v], parent, p, n);
  }

  /** Changing a row other rows do not see: only the old and the new parent's lists change. */
  lemma {:induction false} ChildrenUpdate<V>(m: map<nat, V>, parent: V -> nat, p: nat, n: nat, k: nat, v: V)
    requires k in m && parent(m[k]) != p && parent(v) != p
    ensures Children(m[k := v], parent, p, n) == Children(m, parent, p, n)
  {
    if n > 0 {
      ChildrenUpdate(m, parent, p, n - 1, k, v);
      var m' := m[k := v];
      assert (n - 1 in m' && parent(m'[n - 1]) == p) == (n - 1 in m && parent(m[n - 1]) == p);
    }
  }

  /** Removing rows that are not children of `p` leaves `p`'s list unchanged. */
  lemma {:induction false} ChildrenRestrict<V>(m: map<nat, V>, m': map<nat, V>, parent: V -> nat, p: nat, n: nat)
    requires m'.Keys <= m.Keys
    requires forall x :: x in m' ==> m'[x] == m[x]
    requires forall x :: x in m && parent(m[x]) == p ==> x in m'
    ensures Children(m', parent, p, n) == Children(m, parent, p, n)
  {
    if n > 0 {
      ChildrenRestrict(m, m', parent, p, n - 1);
    }
  }

  /** The sections of board `b`, in ascending id order (`board.section_set.all()`). */
  function SectionsOf(db: Db, b: nat): seq<nat>
  {
    Children(db.sections, SectionBoard, b, db.nextSection)
  }

  /** The tasks of section `s`, in ascending id order (`section.task_set.all()`). */
  function TasksOf(db: Db, s: nat): seq<nat>
  {
    Children(db.tasks, TaskSection, s, db.nextTask)
  }

  /** The boards of user `u`, in ascending id order (`Board.objects.filter(user=u)`). */
  function BoardsOf(db: Db, u: UserId): seq<nat>
  {
    Children(db.boards, BoardUser, u, db.nextBoard)
  }

  /** `SectionsOf(db, b)` lists, in ascending order, exactly the sections of board `b`. */
  lemma SectionsOfFacts(db: Db, b: nat)
    requires Integrity(db)
    ensures var r := SectionsOf(db, b);
      && Ascending(r)
      && (forall i :: 0 <= i < |r| ==> r[i] in db.sections && db.sections[r[i]].board == b)
      && (forall x :: x in db.sections && db.sections[x].board == b ==> x in r)
  {
    ChildrenSound(db.sections, SectionBoard, b, db.nextSection);
    ChildrenComplete(db.sections, SectionBoard, b, db.nextSection);
    ChildrenAscending(db.sections, SectionBoard, b, db.nextSection);
    var r := SectionsOf(db, b);
    assert forall i :: 0 <= i < |r| ==> SectionBoard(db.sections[r[i]]) == b;
  }

  /** `TasksOf(db, s)` lists, in ascending order, exactly the tasks of section `s`. */
  lemma TasksOfFacts(db: Db, s: nat)
    requires Integrity(db)
    ensures var r := TasksOf(db, s);
      && Ascending(r)
      && (forall i :: 0 <= i < |r| ==> r[i] in db.tasks && db.tasks[r[i]].section == s)
      && (forall x :: x in db.tasks && db.tasks[x].section == s ==> x in r)
  {
    ChildrenSound(db.tasks, TaskSection, s, db.nextTask);
    ChildrenComplete(db.tasks, TaskSection, s, db.nextTask);
    ChildrenAscending(db.tasks, TaskSection, s, db.nextTask);
    var r := TasksOf(db, s);
    assert forall i :: 0 <= i < |r| ==> TaskSection(db.tasks[r[i]]) == s;
  }

  /** `BoardsOf(db, u)` lists exactly the boards of user `u`. */
  lemma BoardsOfFacts(db: Db, u: UserId)
    requires Integrity(db)
    ensures var r := BoardsOf(db, u);
      && (forall i :: 0 <= i < |r| ==> r[i] in db.boards && db.boards[r[i]].user == u)
      && (forall x :: x in db.boards && db.boards[x].user == u ==> x in r)
  {
    ChildrenSound(db.boards, BoardUser, u, db.nextBoard);
    ChildrenComplete(db.boards, BoardUser, u, db.nextBoard);
    var r := BoardsOf(db, u);
    assert forall i :: 0 <= i < |r| ==> BoardUser(db.boards[r[i]]) == u;
  }

  /**
   * A task is listed by exactly one section: its own.  Together with the map
   * from task id to row, this is the partition of tasks across sections.
   */
  lemma TaskListedOnlyByItsSection(db: Db, t: nat, s: nat)
    requires Integrity(db) && t in db.tasks
    ensures t in TasksOf(db, s) <==> db.tasks[t].section == s
  {
    TasksOfFacts(db, s);
  }

  /** Deleting a task (no other table refers to tasks). */
  function DeleteTaskRow(db: Db, t: nat): (r: Db)
    requires Integrity(db)
    ensures Integrity(r)
    ensures r.tasks.Keys == db.tasks.Keys - {t}
    ensures forall x :: x in r.tasks ==> r.tasks[x] == db.tasks[x]
    ensures r.boards == db.boards && r.sections == db.sections
    ensures r.nextBoard == db.nextBoard && r.nextSection == db.nextSection && r.nextTask == db.nextTask
  {
    db.(tasks := db.tasks - {t})
  }

  /** Deleting a section; on_delete=CASCADE deletes its tasks. */
  function DeleteSectionRow(db: Db, s: nat): (r: Db)
    requires Integrity(db)
    ensures Integrity(r)
    ensures r.sections.Keys == db.sections.Keys - {s}
    ensures forall x :: x in r.sections ==> r.sections[x] == db.sections[x]
    ensures forall t :: t in r.tasks <==> t in db.tasks && db.tasks[t].section != s
    ensures forall t :: t in r.tasks ==> r.tasks[t] == db.tasks[t]
    ensures r.boards == db.boards
    ensures r.nextBoard == db.nextBoard && r.nextSection == db.nextSection && r.nextTask == db.nextTask
  {
    db.(sections := db.sections - {s},
        tasks := map t | t in db.tasks && db.tasks[t].section != s :: db.tasks[t])
  }

  /** Deleting a board; on_delete=CASCADE deletes its sections and, through them, their tasks. */
  function DeleteBoardRow(db: Db, b: nat): (r: Db)
    requires Integrity(db)
    ensures Integrity(r)
    ensures r.boards.Keys == db.boards.Keys - {b}
    ensures forall x :: x in r.boards ==> r.boards[x] == db.boards[x]
    ensures forall s :: s in r.sections <==> s in db.sections && db.sections[s].board != b
    ensures forall t :: t in r.tasks <==>
      t in db.tasks && db.sections[db.tasks[t].section].board != b
    ensures forall s :: s in r.sections ==> r.sections[s] == db.sections[s]
    ensures forall t :: t in r.tasks ==> r.tasks[t] == db.tasks[t]
    ensures r.nextBoard == db.nextBoard && r.nextSection == db.nextSection && r.nextTask == db.nextTask
  {
    var sections := map s | s in db.sections && db.sections[s].board != b :: db.sections[s];
    db.(boards := db.boards - {b},
        sections := sections,
        tasks := map t | t in db.tasks && db.tasks[t].section in sections :: db.tasks[t])
  }

  /** Cascading deletes never reorder what survives: the other boards keep their section lists. */
  lemma DeleteBoardKeepsOtherBoards(db: Db, b: nat, b': nat)
    requires Integrity(db) && b' != b
    ensures SectionsOf(DeleteBoardRow(db, b), b') == SectionsOf(db, b')
  {
    var r := DeleteBoardRow(db, b);
    ChildrenRestrict(db.sections, r.sections, SectionBoard, b', db.nextSection);
  }

  /** After a section is deleted, the other sections list the same tasks as before. */
  lemma DeleteSectionKeepsOtherSections(db: Db, s: nat, s': nat)
    requires Integrity(db) && s' != s
    ensures TasksOf(DeleteSectionRow(db, s), s') == TasksOf(db, s')
  {
    var r := DeleteSectionRow(db, s);
    ChildrenRestrict(db.tasks, r.tasks, TaskSection, s', db.nextTask);
  }
}
