/**
 * The two dialogs of adas.py as objects whose fields the event handlers
 * update. Dialog is the main window: the accumulated predicates
 * (`_query_val`), their rendering (`_query_str`), the predicate counter
 * (`_count`), the text of the query view, the checked and enabled flags of
 * the fifteen attribute checkboxes, the connection and the search results.
 * QueryDialog is the modal sub-dialog that collects one predicate for one
 * key and appends it to its parent's state. Qt widgets are plain fields.
 */
module Adas {
  import opened Wrappers
  import opened Catalog
  import opened Query
  import opened Database

  /** `sql_template`. */
  const SqlTemplate: string := "SELECT * FROM adas_events WHERE "

  /** The text the query view shows while no predicate exists. */
  const QueryPlaceholder: string := "SELECT * FROM [table_name] WHERE [queries]"

  /** `_limit`. */
  const QueryLimit: string := "1000"

  const MsgDbSuccess: string :=
    "<p>The database has been loaded succesfully. <br/>All available schemas are available to be selected and used.</p>"
  const MsgDbFail: string :=
    "<p>Loaded database does not have ADAS schemas. <br/>Provide proper database. </p>"
  const MsgNotDb: string :=
    "<p>Loaded file is not recognised as a SQL database. <br>Schema check  routine will be ignored until a proper database is loaded </p>"

  /** One flag per checkbox, all equal to b. */
  function Flags(b: bool): seq<bool>
  {
    seq(|Keys|, _ => b)
  }

  /** `submitted_sql_query` for a given `_query_str`. */
  function SubmittedSql(queryStr: string): (sql: string)
    ensures |sql| == |SqlTemplate| + |queryStr| + |" LIMIT 1000"|
    ensures sql[..|SqlTemplate|] == SqlTemplate
    ensures sql[|SqlTemplate|..|SqlTemplate| + |queryStr|] == queryStr
    ensures sql[|SqlTemplate| + |queryStr|..] == " LIMIT 1000"
  {
    SqlTemplate + queryStr + " LIMIT " + QueryLimit
  }

  /**
   * Unticking the box at position i and dropping the predicates on its
   * column keeps every column that still has a predicate ticked.
   */
  lemma EraseKeepsSynced(qs: seq<Predicate>, flags: seq<bool>, i: nat)
    requires i < |Keys| && |flags| == |Keys|
    requires forall j | 0 <= j < |Keys| && j != i :: HasColumn(qs, SchemaNames[j]) ==> flags[j]
    ensures forall j | 0 <= j < |Keys| :: HasColumn(Without(qs, SchemaNames[i]), SchemaNames[j]) ==> flags[j]
  {
    forall j | 0 <= j < |Keys| && HasColumn(Without(qs, SchemaNames[i]), SchemaNames[j])
      ensures flags[j]
    {
      HasColumnWithout(qs, SchemaNames[i], SchemaNames[j]);
    }
  }

  /**
   * Adding a predicate for `choice` and ticking the box at the position of
   * `choice` keeps every column that has a predicate ticked.
   */
  lemma AddKeepsSynced(qs: seq<Predicate>, p: Predicate, before: seq<bool>, after: seq<bool>, choice: string)
    requires choice in Keys && p.column == SchemaOf(choice)
    requires |before| == |Keys| && |after| == |Keys|
    requires forall i | 0 <= i < |Keys| :: HasColumn(qs, SchemaNames[i]) ==> before[i]
    requires forall j | 0 <= j < |Keys| :: after[j] == (Keys[j] == choice || before[j])
    ensures forall i | 0 <= i < |Keys| :: HasColumn(qs + [p], SchemaNames[i]) ==> after[i]
  {
    forall i | 0 <= i < |Keys| && HasColumn(qs + [p], SchemaNames[i])
      ensures after[i]
    {
      HasColumnAppend(qs, p, SchemaNames[i]);
      CatalogWellFormed();
      SchemaOfPosition(choice, i);
    }
  }

  /** What pressing Search leads to: the empty-query warning, a filled result list, or an uncaught exception. */
  datatype SubmitOutcome = EmptyQuery | Searched | Raised(message: string)

  class Dialog {
    var queryVal: seq<Predicate>
    var queryStr: string
    /** `_count`: predicates added since the last reset. */
    var queryCount: nat
    /** The separate attribute `count` that erase_query assigns; absent until the first erase. */
    var count: Option<nat>
    var logResults: seq<string>
    /** Text of the results view. */
    var resultText: string
    /** Text of the query view. */
    var queryText: string
    var queryTextEnabled: bool
    /** The Add Query menu and the Reset and Search buttons. */
    var frontEndEnabled: bool
    /** `cbes[i].isChecked()` for the i-th key. */
    var checked: seq<bool>
    /** `cbes[i].isEnabled()` for the i-th key. */
    var cbEnabled: seq<bool>
    var db: Option<Connection>
    var dbStatus: bool
    var dbStatusCode: Option<nat>
    var submittedSqlQuery: Option<string>

    /** Widget shapes and the derived database status. */
    ghost predicate Shaped()
      reads this`checked, this`cbEnabled, this`dbStatus, this`dbStatusCode
    {
      && |checked| == |Keys|
      && |cbEnabled| == |Keys|
      && (dbStatus <==> dbStatusCode == Some(0))
    }

    /** The query string is the rendering of the list, and the counter tracks the list. */
    ghost predicate QueryConsistent()
      reads this`queryVal, this`queryStr, this`queryText, this`queryCount
    {
      && queryStr == Render(queryVal)
      && queryText == (if queryVal == [] then QueryPlaceholder else SqlTemplate + queryStr)
      && |queryVal| <= queryCount
      && (queryCount == 0 <==> queryVal == [])
      && (forall p | p in queryVal :: p.column in SchemaNames)
    }

    /** The checkbox of every column that has a predicate is checked. */
    ghost predicate Synced()
      reads this`checked, this`queryVal
    {
      && |checked| == |Keys|
      && forall i | 0 <= i < |Keys| :: HasColumn(queryVal, SchemaNames[i]) ==> checked[i]
    }

    ghost predicate Valid()
      reads this`checked, this`cbEnabled, this`dbStatus, this`dbStatusCode
      reads this`queryVal, this`queryStr, this`queryText, this`queryCount
    {
      Shaped() && QueryConsistent() && Synced()
    }

    constructor ()
      ensures Valid()
      ensures queryVal == [] && queryStr == "" && queryCount == 0 && count == None
      ensures logResults == [] && resultText == "" && queryText == QueryPlaceholder && !queryTextEnabled
      ensures checked == Flags(false) && cbEnabled == Flags(false) && !frontEndEnabled
      ensures db == None && dbStatusCode == None && submittedSqlQuery == None
    {
      queryVal := [];
      queryStr := "";
      logResults := [];
      queryCount := 0;
      count := None;
      resultText := "";
      queryText := QueryPlaceholder;
      queryTextEnabled := false;
      frontEndEnabled := false;
      checked := Flags(false);
      cbEnabled := Flags(false);
      db := None;
      dbStatus := false;
      dbStatusCode := None;
      submittedSqlQuery := None;
    }

    /** qu_cbes_enable: enables every checkbox. */
    method QuCbesEnable()
      requires |cbEnabled| == |Keys|
      modifies this`cbEnabled
      ensures cbEnabled == Flags(true)
    {
      var i := 0;
      while i < |cbEnabled|
        invariant 0 <= i <= |cbEnabled| == |Keys|
        invariant forall j | 0 <= j < i :: cbEnabled[j]
      {
        cbEnabled := cbEnabled[i := true];
        i := i + 1;
      }
    }

    /** qu_cbes_unchecked: unchecks every checkbox. */
    method QuCbesUnchecked()
      requires |checked| == |Keys|
      modifies this`checked
      ensures checked == Flags(false)
    {
      var i := 0;
      while i < |checked|
        invariant 0 <= i <= |checked| == |Keys|
        invariant forall j | 0 <= j < i :: !checked[j]
      {
        checked := checked[i := false];
        i := i + 1;
      }
    }

    /** enable_front_end. */
    method EnableFrontEnd()
      requires Valid()
      modifies this`frontEndEnabled, this`queryTextEnabled, this`cbEnabled
      ensures Valid()
      ensures frontEndEnabled && queryTextEnabled && cbEnabled == Flags(true)
    {
      frontEndEnabled := true;
      queryTextEnabled := true;
      QuCbesEnable();
    }

    /** check_db: runs the probe and records the status and its code. */
    method CheckDb()
      requires Valid() && db.Some?
      modifies this`dbStatus, this`dbStatusCode
      ensures Valid()
      ensures dbStatusCode == Some(StatusCode(db.value(ProbeSql)))
    {
      var reply := db.value(ProbeSql);
      match reply {
        case Rows(_) =>
          dbStatus := true;
          dbStatusCode := Some(0);
        case DbError(errMessage) =>
          dbStatus := false;
          if NoSuchTable <= errMessage {
            dbStatusCode := Some(1);
          } else {
            dbStatusCode := Some(2);
          }
      }
    }

    /** open_db for a chosen file: connects, checks, and enables the front end on success. */
    method OpenDb(conn: Connection) returns (message: string)
      requires Valid()
      modifies this`db, this`dbStatus, this`dbStatusCode
      modifies this`frontEndEnabled, this`queryTextEnabled, this`cbEnabled
      ensures Valid()
      ensures db == Some(conn) && dbStatusCode == Some(StatusCode(conn(ProbeSql)))
      ensures dbStatus ==> frontEndEnabled && queryTextEnabled && cbEnabled == Flags(true)
      ensures !dbStatus ==>
        && frontEndEnabled == old(frontEndEnabled)
        && queryTextEnabled == old(queryTextEnabled)
        && cbEnabled == old(cbEnabled)
      ensures message == match StatusCode(conn(ProbeSql))
        case 0 => MsgDbSuccess
        case 1 => MsgDbFail
        case _ => MsgNotDb
    {
      db := Some(conn);
      CheckDb();
      if dbStatus {
        message := MsgDbSuccess;
        EnableFrontEnd();
      } else if dbStatusCode == Some(1) {
        message := MsgDbFail;
      } else {
        message := MsgNotDb;
      }
    }

    /** clear_query: restores the placeholder, empties the list and unchecks every box. */
    method ClearQuery()
      requires Shaped()
      modifies this`queryText, this`queryCount, this`queryVal, this`queryStr, this`checked
      ensures Valid()
      ensures queryVal == [] && queryStr == "" && queryCount == 0
      ensures queryText == QueryPlaceholder && checked == Flags(false)
    {
      queryText := QueryPlaceholder;
      queryCount := 0;
      queryVal := [];
      queryStr := "";
      QuCbesUnchecked();
    }

    /**
     * erase_query: drops every predicate on the column of the labelled key and
     * re-renders. The counter it writes is `count`, not `_count`, so `_count`
     * only changes when the list becomes empty and clear_query resets it.
     * The checkboxes are left as they are unless the reset unchecks them all.
     */
    method EraseQuery(text: string)
      requires Shaped() && QueryConsistent()
      requires text in MenuLabels
      modifies this`queryVal, this`queryStr, this`count, this`queryCount, this`queryText, this`checked
      ensures Shaped() && QueryConsistent()
      ensures forall i | 0 <= i < |MenuLabels| && MenuLabels[i] == text ::
        queryVal == Without(old(queryVal), SchemaNames[i])
      ensures count == Some(|queryVal|)
      ensures queryCount == if queryVal == [] then 0 else old(queryCount)
      ensures checked == if queryVal == [] then Flags(false) else old(checked)
    {
      var senderSchema := SchemaForLabel(text);
      queryVal := Without(queryVal, senderSchema);
      queryStr := Render(queryVal);
      count := Some(|queryVal|);
      if count.value == 0 {
        ClearQuery();
      } else {
        queryText := SqlTemplate + queryStr;
      }
    }

    /**
     * open_qu_dialog for the i-th menu action or checkbox. A click on a
     * checkbox first flips its checked flag (Qt does this before the handler
     * runs); a box that is now unchecked erases its column's predicates,
     * otherwise the key whose sub-dialog opens is returned.
     */
    method OpenQuDialog(i: nat, fromCheckbox: bool) returns (choice: Option<string>)
      requires Valid() && i < |Keys|
      modifies this`queryVal, this`queryStr, this`count, this`queryCount, this`queryText, this`checked
      ensures Valid()
      ensures fromCheckbox && old(checked[i]) ==>
        && choice == None
        && queryVal == Without(old(queryVal), SchemaNames[i])
        && count == Some(|queryVal|)
        && queryCount == (if queryVal == [] then 0 else old(queryCount))
        && checked == (if queryVal == [] then Flags(false) else old(checked)[i := false])
      ensures !(fromCheckbox && old(checked[i])) ==>
        && choice == Some(Keys[i])
        && queryVal == old(queryVal) && queryCount == old(queryCount) && count == old(count)
        && checked == (if fromCheckbox then old(checked)[i := true] else old(checked))
    {
      if fromCheckbox {
        checked := checked[i := !checked[i]];
        if !checked[i] {
          EraseKeepsSynced(queryVal, checked, i);
          EraseQuery(MenuLabels[i]);
          return None;
        }
      }
      var key := LookupKey(MenuLabels[i]);
      choice := Some(key);
    }

    /**
     * The first half of update_main_query: appends one predicate, re-renders
     * the list, shows the new query text and increments `_count`.
     */
    method AppendPredicate(p: Predicate)
      requires Shaped() && QueryConsistent() && p.column in SchemaNames
      modifies this`queryVal, this`queryStr, this`queryText, this`queryTextEnabled, this`queryCount
      ensures Shaped() && QueryConsistent()
      ensures queryVal == old(queryVal) + [p]
      ensures queryText == SqlTemplate + Render(queryVal) && queryTextEnabled
      ensures queryCount == old(queryCount) + 1
    {
      queryVal := queryVal + [p];
      queryStr := Render(queryVal);
      queryTextEnabled := true;
      queryText := SqlTemplate + queryStr;
      queryCount := queryCount + 1;
    }

    /**
     * The `idx` loop of update_main_query over the keys in menu order: the
     * checkbox at the position of `choice` is enabled and checked.
     */
    method CheckKeyBox(choice: string)
      requires |checked| == |Keys| && |cbEnabled| == |Keys|
      modifies this`checked, this`cbEnabled
      ensures |checked| == |Keys| && |cbEnabled| == |Keys|
      ensures forall j | 0 <= j < |Keys| ::
        && checked[j] == (Keys[j] == choice || old(checked[j]))
        && cbEnabled[j] == (Keys[j] == choice || old(cbEnabled[j]))
    {
      var idx := 0;
      while idx < |Keys|
        invariant 0 <= idx <= |Keys|
        invariant |checked| == |Keys| && |cbEnabled| == |Keys|
        invariant forall j | 0 <= j < |Keys| ::
          checked[j] == ((j < idx && Keys[j] == choice) || old(checked[j]))
        invariant forall j | 0 <= j < |Keys| ::
          cbEnabled[j] == ((j < idx && Keys[j] == choice) || old(cbEnabled[j]))
      {
        if choice == Keys[idx] {
          cbEnabled := cbEnabled[idx := true];
          checked := checked[idx := true];
        }
        idx := idx + 1;
      }
    }

    /** submit_query: runs the rendered query with the row limit and keeps column 1 of every row. */
    method SubmitQuery() returns (outcome: SubmitOutcome)
      requires Valid()
      requires queryCount > 0 ==> db.Some?
      modifies this`submittedSqlQuery, this`logResults, this`resultText
      ensures Valid()
      ensures old(queryCount) == 0 ==> outcome == EmptyQuery && unchanged(this)
      ensures queryCount > 0 ==>
        var res := Search(db.value(SubmittedSql(queryStr)));
        && submittedSqlQuery == Some(SubmittedSql(queryStr))
        && outcome == (if res.Success? then Searched else Raised(res.error))
        && logResults == (if res.Success? then res.value else old(logResults))
        && resultText == (if res.Success? then Join("\n", res.value) else old(resultText))
    {
      if queryCount > 0 {
        var sql := SubmittedSql(queryStr);
        submittedSqlQuery := Some(sql);
        var reply := db.value(sql);
        match reply {
          case DbError(m) =>
            outcome := Raised(m);
          case Rows(rows) =>
            var names := LogNames(rows);
            if names.None? {
              outcome := Raised(IndexErrorMessage);
            } else {
              logResults := names.value;
              resultText := Join("\n", logResults);
              outcome := Searched;
            }
        }
      } else {
        outcome := EmptyQuery;
      }
    }

    /**
     * The results Clear button: blanks the results view but keeps
     * `log_results`, so a later export still writes the previous names.
     */
    method ClearResultView()
      modifies this`resultText
      ensures resultText == "" && logResults == old(logResults)
    {
      resultText := "";
    }
  }

  class QueryDialog {
    const choice: string
    const parent: Dialog
    /** `query_tuple`, set when OK is pressed. */
    var queryTuple: Option<QueryTuple>

    constructor (choice: string, parent: Dialog)
      requires choice in Keys
      ensures this.choice == choice && this.parent == parent && queryTuple == None
    {
      this.choice := choice;
      this.parent := parent;
      queryTuple := None;
    }

    /**
     * generate_single_query: reads the operator, value and combinator; an
     * empty value is refused with a warning and nothing else changes,
     * otherwise the predicate is appended to the parent's state. The operator
     * and combinator come from combo boxes that offer only
     * OperatorChoices(choice) and QOperators.
     */
    method GenerateSingleQuery(op: string, value: string, qop: string) returns (accepted: bool)
      requires choice in Keys && parent.Valid()
      requires op in OperatorChoices(choice) && qop in QOperators
      modifies this`queryTuple
      modifies parent`queryVal, parent`queryStr, parent`queryText, parent`queryTextEnabled
      modifies parent`queryCount, parent`checked, parent`cbEnabled
      ensures parent.Valid()
      ensures queryTuple == Some(QueryTuple(op, value, qop))
      ensures accepted <==> value != ""
      ensures !accepted ==> unchanged(parent)
      ensures accepted ==>
        var p := BuiltQuery(choice, old(parent.queryCount), QueryTuple(op, value, qop));
        && parent.queryVal == old(parent.queryVal) + [p]
        && parent.queryCount == old(parent.queryCount) + 1
        && (choice in TextKeys ==> p.operator == "LIKE")
        && parent.queryTextEnabled
        && (forall j | 0 <= j < |Keys| ::
             && parent.checked[j] == (Keys[j] == choice || old(parent.checked[j]))
             && parent.cbEnabled[j] == (Keys[j] == choice || old(parent.cbEnabled[j])))
    {
      queryTuple := Some(QueryTuple(op, value, qop));
      accepted := CheckQueryVal(queryTuple.value);
      if accepted {
        UpdateMainQuery();
      }
    }

    /**
     * update_main_query: builds `[qopr, sch, opr, val]`, appends it to the
     * parent's list, re-renders, increments `_count`, and checks and enables
     * the checkbox of the dialog's key.
     */
    method UpdateMainQuery()
      requires choice in Keys && parent.Valid()
      requires queryTuple.Some? && queryTuple.value.qoperator in QOperators
      modifies parent`queryVal, parent`queryStr, parent`queryText, parent`queryTextEnabled
      modifies parent`queryCount, parent`checked, parent`cbEnabled
      ensures parent.Valid()
      ensures parent.queryVal == old(parent.queryVal) + [BuiltQuery(choice, old(parent.queryCount), queryTuple.value)]
      ensures parent.queryText == SqlTemplate + Render(parent.queryVal) && parent.queryTextEnabled
      ensures parent.queryCount == old(parent.queryCount) + 1
      ensures forall j | 0 <= j < |Keys| ::
        && parent.checked[j] == (Keys[j] == choice || old(parent.checked[j]))
        && parent.cbEnabled[j] == (Keys[j] == choice || old(parent.cbEnabled[j]))
    {
      var t := queryTuple.value;
      var qopr := if parent.queryCount == 0 then "" else t.qoperator;
      var opr := t.operator;
      var sch := SchemaOf(choice);
      var val := StoredValue(choice, t.value);
      var builtQuery := Predicate(qopr, sch, opr, val);
      assert builtQuery == BuiltQuery(choice, parent.queryCount, t);

      ghost var oldVal, oldChecked := parent.queryVal, parent.checked;
      parent.AppendPredicate(builtQuery);
      parent.CheckKeyBox(choice);
      AddKeepsSynced(oldVal, builtQuery, oldChecked, parent.checked, choice);
    }
  }

  /** The predicate the worked example adds first: Vehicle Number LIKE JPP297 on an empty query. */
  lemma ExampleVehiclePredicate()
    ensures BuiltQuery("lvn", 0, QueryTuple("LIKE", "JPP297", "OR"))
         == Predicate("", "vehicle", "LIKE", "'%JPP297%'")
  {
    ExampleVehicleParts();
  }

  /** Proof step for ExampleVehiclePredicate: the column and stored value of `lvn`. */
  lemma ExampleVehicleParts()
    ensures SchemaOf("lvn") == "vehicle"
    ensures StoredValue("lvn", "JPP297") == "'%JPP297%'"
  {
    ExampleCatalogRows();
    KeyIndexOfPosition(2);
    ExampleWrap();
  }

  /**
   * Proof step for the examples: the catalog rows they use, kept in a lemma
   * of its own so that the literal sequences stay out of larger proofs.
   */
  lemma ExampleCatalogRows()
    ensures Keys[2] == "lvn" && SchemaNames[2] == "vehicle"
    ensures Keys[5] == "llc" && SchemaNames[5] == "lane_change"
  {
  }

  /** Proof step for the examples: the key memberships and the wrapping of JPP297, as literal facts. */
  lemma ExampleWrap()
    ensures "lvn" in TextKeys && "llc" !in TextKeys
    ensures "'%" + "JPP297" + "%'" == "'%JPP297%'"
  {
  }

  /** The predicate it adds second: Lane Change > 2 with AND, once one predicate was added. */
  lemma ExampleLaneChangePredicate()
    ensures BuiltQuery("llc", 1, QueryTuple(">", "2", "AND"))
         == Predicate("AND", "lane_change", ">", "2")
  {
    ExampleLaneChangeParts();
  }

  /** Proof step for ExampleLaneChangePredicate: the column and stored value of `llc`. */
  lemma ExampleLaneChangeParts()
    ensures SchemaOf("llc") == "lane_change"
    ensures StoredValue("llc", "2") == "2"
  {
    ExampleCatalogRows();
    KeyIndexOfPosition(5);
    ExampleWrap();
  }

  /** The vehicle predicate reads `" vehicle LIKE '%JPP297%'"`: its empty combinator leaves a leading space. */
  lemma ExampleVehicleRender()
    ensures Render([Predicate("", "vehicle", "LIKE", "'%JPP297%'")]) == " vehicle LIKE '%JPP297%'"
  {
    var vehicle := Predicate("", "vehicle", "LIKE", "'%JPP297%'");
    RenderSingle(vehicle);
    ClauseSpelledOut(vehicle);
    ExampleVehicleWords();
  }

  /** Proof step: the literal concatenation behind ExampleVehicleRender. */
  lemma ExampleVehicleWords()
    ensures "" + " " + "vehicle" + " " + "LIKE" + " " + "'%JPP297%'" == " vehicle LIKE '%JPP297%'"
  {
  }

  /** The lane-change predicate reads `"AND lane_change > 2"`. */
  lemma ExampleLaneChangeRender()
    ensures ClauseText(Predicate("AND", "lane_change", ">", "2")) == "AND lane_change > 2"
    ensures Render([Predicate("AND", "lane_change", ">", "2")]) == "AND lane_change > 2"
  {
    var laneChange := Predicate("AND", "lane_change", ">", "2");
    RenderSingle(laneChange);
    ClauseSpelledOut(laneChange);
    ExampleLaneChangeWords();
  }

  /** Proof step: the literal concatenation behind ExampleLaneChangeRender. */
  lemma ExampleLaneChangeWords()
    ensures "AND" + " " + "lane_change" + " " + ">" + " " + "2" == "AND lane_change > 2"
  {
  }

  /** The first query text, with its double space after WHERE. */
  lemma ExampleVehicleText()
    ensures SqlTemplate + Render([Predicate("", "vehicle", "LIKE", "'%JPP297%'")])
         == "SELECT * FROM adas_events WHERE  vehicle LIKE '%JPP297%'"
  {
    ExampleVehicleRender();
    ExampleVehicleQuery();
  }

  /** Proof step: the literal concatenation behind ExampleVehicleText. */
  lemma ExampleVehicleQuery()
    ensures SqlTemplate + " vehicle LIKE '%JPP297%'" == "SELECT * FROM adas_events WHERE  vehicle LIKE '%JPP297%'"
  {
  }

  /** The query text once the lane-change predicate is appended with AND. */
  lemma ExampleBothText()
    ensures SqlTemplate + Render([Predicate("", "vehicle", "LIKE", "'%JPP297%'"),
                                  Predicate("AND", "lane_change", ">", "2")])
         == "SELECT * FROM adas_events WHERE  vehicle LIKE '%JPP297%' AND lane_change > 2"
  {
    var vehicle := Predicate("", "vehicle", "LIKE", "'%JPP297%'");
    var laneChange := Predicate("AND", "lane_change", ">", "2");
    ExampleVehicleText();
    ExampleLaneChangeRender();
    RenderAppend([vehicle], laneChange);
    assert [vehicle] + [laneChange] == [vehicle, laneChange];
    Regroup(SqlTemplate, Render([vehicle]), " ", ClauseText(laneChange));
    ExampleTextsJoin();
  }

  /** Proof step: regrouping a concatenation, used by ExampleBothText. */
  lemma Regroup(a: string, b: string, c: string, d: string)
    ensures a + (b + c + d) == a + b + c + d
  {
  }

  /** Proof step: the literal concatenation behind ExampleBothText. */
  lemma ExampleTextsJoin()
    ensures "SELECT * FROM adas_events WHERE  vehicle LIKE '%JPP297%'" + " " + "AND lane_change > 2"
         == "SELECT * FROM adas_events WHERE  vehicle LIKE '%JPP297%' AND lane_change > 2"
  {
  }

  /** Unticking Vehicle Number leaves the lane-change predicate alone, AND included. */
  lemma ExampleEraseList()
    ensures Without([Predicate("", "vehicle", "LIKE", "'%JPP297%'"),
                     Predicate("AND", "lane_change", ">", "2")], "vehicle")
         == [Predicate("AND", "lane_change", ">", "2")]
  {
    var vehicle := Predicate("", "vehicle", "LIKE", "'%JPP297%'");
    var laneChange := Predicate("AND", "lane_change", ">", "2");
    WithoutAppend([vehicle], [laneChange], "vehicle");
    WithoutSingle(vehicle, "vehicle");
    WithoutSingle(laneChange, "vehicle");
    assert [vehicle] + [laneChange] == [vehicle, laneChange];
  }

  /** The query text after that erase begins its WHERE clause with a dangling AND. */
  lemma ExampleEraseText()
    ensures SqlTemplate + Render([Predicate("AND", "lane_change", ">", "2")])
         == "SELECT * FROM adas_events WHERE AND lane_change > 2"
  {
    ExampleLaneChangeRender();
    ExampleLaneChangeQuery();
  }

  /** Proof step: the literal concatenation behind ExampleEraseText. */
  lemma ExampleLaneChangeQuery()
    ensures SqlTemplate + "AND lane_change > 2" == "SELECT * FROM adas_events WHERE AND lane_change > 2"
  {
  }
}
