/**
 * How the board component's flags line up with the server's rules when the
 * component is given the server's aggregate: the section at index `i` of the
 * aggregate may promote exactly when the server does not consider it the last
 * section of its board, may demote exactly when it is not the first, and a
 * move the component offers lands the task in the neighbouring column.
 */
module Agreement {

  import opened Wrappers
  import opened Models
  import opened Payload
  import opened BoardViews
  import opened BoardWidget

  /** The i-th column of the aggregate is the i-th section of the board, in the server's order. */
  lemma ColumnPosition(db: Db, b: nat, i: nat)
    requires Integrity(db) && b in db.boards && i < |SectionsOf(db, b)|
    ensures var s := SectionsOf(db, b)[i];
      && s in db.sections
      && BoardOrder(db, s) == SectionsOf(db, b)
      && Position(BoardOrder(db, s), s) == i
  {
    SectionsOfFacts(db, b);
    var s := SectionsOf(db, b)[i];
    PositionOfIndex(SectionsOf(db, b), i);
  }

  /** The component's flags for column `i` agree with `isFirstSection` and `isLastSection`. */
  lemma FlagsAgreeWithServer(db: Db, b: nat, i: nat)
    requires Integrity(db) && b in db.boards && i < |SectionsOf(db, b)|
    ensures var agg := Aggregate(db, b);
      var w := BuildSectionsWidget(agg.sections);
      var s := agg.sections[i].id;
      && s in db.sections
      && (w[i].taskPromotable <==> !IsLastSection(db, s))
      && (w[i].taskDemotable <==> !IsFirstSection(db, s))
      && (w[i].taskEditable <==> IsFirstSection(db, s))
  {
    ColumnPosition(db, b, i);
    WidgetFlags(Aggregate(db, b).sections, i);
  }

  /**
   * Promoting the task shown at column `i`, row `j`, where the component
   * offers Promote, moves it to the section shown at column `i + 1`.
   */
  lemma PromoteLandsInNextColumn(db: Db, b: nat, i: nat, j: nat)
    requires Integrity(db) && b in db.boards && i < |SectionsOf(db, b)|
    requires j < |Aggregate(db, b).sections[i].tasks|
    requires BuildSectionsWidget(Aggregate(db, b).sections)[i].taskPromotable
    ensures var agg := Aggregate(db, b);
      var t := agg.sections[i].tasks[j].id;
      && t in db.tasks && i + 1 < |agg.sections|
      && NextSection(db, t) == Some(agg.sections[i + 1].id)
  {
    var agg := Aggregate(db, b);
    var t := agg.sections[i].tasks[j].id;
    TasksOfFacts(db, agg.sections[i].id);
    SectionsOfFacts(db, b);
    ColumnPosition(db, b, i);
    WidgetFlags(agg.sections, i);
    PositionOfIndex(SectionsOf(db, b), i + 1);
  }

  /**
   * Demoting the task shown at column `i`, row `j`, where the component
   * offers Demote, moves it to the section shown at column `i - 1`.
   */
  lemma DemoteLandsInPreviousColumn(db: Db, b: nat, i: nat, j: nat)
    requires Integrity(db) && b in db.boards && i < |SectionsOf(db, b)|
    requires j < |Aggregate(db, b).sections[i].tasks|
    requires BuildSectionsWidget(Aggregate(db, b).sections)[i].taskDemotable
    ensures var agg := Aggregate(db, b);
      var t := agg.sections[i].tasks[j].id;
      && t in db.tasks && i > 0
      && PreviousSection(db, t) == Some(agg.sections[i - 1].id)
  {
    var agg := Aggregate(db, b);
    var t := agg.sections[i].tasks[j].id;
    TasksOfFacts(db, agg.sections[i].id);
    SectionsOfFacts(db, b);
    ColumnPosition(db, b, i);
    WidgetFlags(agg.sections, i);
    PositionOfIndex(SectionsOf(db, b), i - 1);
  }
}
