# ADAS DB Finder: the query-predicate accumulator

ADAS DB Finder (`adas.py`) is a PyQt5 front end to an SQLite database of
driver-assistance log events. The user ticks one of fifteen attribute
checkboxes, or picks the same attribute from the Add Query menu. A modal
sub-dialog then asks for an operator, a value and a combinator (`AND`/`OR`).
Each accepted answer becomes a four-string predicate `[qopr, column, opr, val]`
and is appended to the main window's list `_query_val`. The list is rendered
into `_query_str` by space-joining each predicate and then space-joining the
results. The query view shows `sql_template + _query_str`. Unticking a box
drops every predicate on that box's column. The Reset button empties the
query and unticks every box. Search runs the query with `LIMIT 1000` and lists column 1 of
every row.

This project models that accumulator in Dafny:

- `catalog.dfy` holds the three attribute dictionaries. They are parallel
  sequences in key order, because the i-th checkbox is built from the i-th
  menu label. It also holds the loop that maps a label back to its key.
- `query.dfy` is the pure part: predicates, the join-of-joins rendering,
  removal by column, the operator offer per key, the `'%v%'` wrapping of
  text values and the construction of one predicate.
- `database.dfy` models the SQLite side through its outcomes only: rows, or
  an error message. It covers the status classification of the probe query
  and the projection of column 1.
- `adas.dfy` holds the two dialogs as classes whose fields the handlers
  update. It also proves the invariants those handlers keep:
  - the rendered string and the displayed text follow the list;
  - `len(_query_val) <= _count`, and `_count == 0` iff the list is empty;
  - every column that has a predicate has its box ticked.

  It ends with the worked example: adding `Vehicle Number LIKE JPP297`, then
  `Lane Change > 2` with `AND`, and unticking Vehicle Number.

Three behaviours of the code differ from what a reader might expect, and the
model keeps them as written:

- Removing a predicate does not blank the combinator of the entry that
  becomes first. Unticking Vehicle Number in the example therefore leaves
  `SELECT * FROM adas_events WHERE AND lane_change > 2`
  (`Adas.ExampleEraseText`).
- `erase_query` assigns `self.count`, not `self._count`. So `_count` changes
  only when the list becomes empty and `clear_query` resets it. The stray
  attribute is the field `count`, which is `None` until the first erase.
- Non-text columns are offered `d_operator[0:4]`, which is `==, >, >=, <`.
  `<=` is never offered.

## Model

| member | source | states |
|---|---|---|
| Catalog.CatalogWellFormed | adas.py:13-59 | the three dictionaries and the key list have 15 entries each; keys, menu labels and column names are free of repetitions; no key is empty |
| Catalog.IndexOf | adas.py:29-43 | a position is found exactly when the string occurs, and the string sits at the position found |
| Catalog.KeyIndex | adas.py:212 | a known key has a checkbox position, and the key sits there |
| Catalog.SchemaOf | adas.py:45-59 | `events_schema[key]` is one of the table's column names |
| Catalog.KeyIndexOfPosition | adas.py:212 | the key at position i maps back to position i, and its column is the i-th column name |
| Catalog.SchemaOfPosition | adas.py:616 | a key's column is the j-th column name exactly when the key is the j-th key |
| Catalog.LookupKey | adas.py:295-298 | the loop yields '' exactly for a label that is not in the menu, and otherwise the key at that label's position |
| Catalog.SchemaForLabel | adas.py:323-330 | a menu label is mapped to the column name at its own position |
| Query.JoinAppend | adas.py:629 | joining one more part appends the separator and that part |
| Query.JoinStartsWithFirst | adas.py:629 | a join of a non-empty list starts with its first part |
| Query.ClauseSpelledOut | adas.py:629 | one predicate renders as its four words separated by single spaces, so never as the empty string |
| Query.RenderAppend | adas.py:627-629 | re-rendering after an append is the old rendering, a space and the new clause (just the clause for an empty list) |
| Query.RenderSingle | adas.py:629 | a one-predicate list renders as that predicate's clause |
| Query.Render | adas.py:334 | `_query_str` is empty exactly when the list is empty; RenderAppend, RenderSingle and ClauseSpelledOut pin its text |
| Query.Without | adas.py:333 | filtering never lengthens the list, and keeps exactly the predicates whose column differs from the erased one |
| Query.WithoutAppend | adas.py:333 | filtering works piecewise, so survivors keep their relative order |
| Query.WithoutSingle | adas.py:333 | a single predicate is dropped exactly when its column is the erased one |
| Query.WithoutNothingToRemove | adas.py:333 | a list without the column is returned unchanged, stored combinators included |
| Query.HasColumnAppend | adas.py:627 | after an append, a column is present iff it was present or is the new predicate's |
| Query.HasColumnWithout | adas.py:333 | after filtering, a column is present iff it is another column that was present |
| Query.OperatorChoices | adas.py:528-531 | a non-empty offer that never contains `<=`, and contains LIKE exactly for the text keys |
| Query.OperatorChoicesOffered | adas.py:525-531 | `lname`, `ldate`, `lvn` are offered only LIKE; every other key is offered `==, >, >=, <` |
| Query.StoredValue | adas.py:618-621 | for a text key the stored value is `'%`, the typed value and `%'`, four characters longer; any other key stores the typed value unchanged |
| Query.StoredValueRoundTrip | adas.py:618-621 | the typed value can be read back from the stored one |
| Query.CheckQueryVal | adas.py:599-603 | a tuple is accepted exactly when its value string is non-empty |
| Query.BuiltQuery | adas.py:609-623 | the combinator is '' exactly when `_count` is 0, otherwise the chosen AND/OR; the column is `events_schema[choice]`; the operator is kept; a text key's value is stored as `'%` + v + `%'`, any other as v |
| Database.StatusCode | adas.py:418-435 | `db_status_code` is 0, 1 or 2, and 0 exactly when the probe returns rows |
| Database.StatusCodeClassifies | adas.py:425-435 | status 1 exactly for an error message starting with `no such table`, 2 for every other error |
| Database.StatusCodeExamples | adas.py:432-435 | a missing table gives 1, a non-database file gives 2, a successful probe gives 0 |
| Database.LogNames | adas.py:458 | `[x[1] for x in rows]` succeeds exactly when every row has a second cell, and then yields those cells in row order |
| Database.Search | adas.py:454-458 | the search yields column 1 of every row in order; a driver error or a one-column row yields the exception's message |
| Adas.SubmittedSql | adas.py:451 | the submitted statement is the template, then the query string, then ` LIMIT 1000` |
| Adas.EraseKeepsSynced | adas.py:279-286 | unticking box i and erasing its column leaves every column that still has a predicate ticked |
| Adas.AddKeepsSynced | adas.py:627-640 | appending a predicate for `choice` and ticking the box at `choice`'s position leaves every column with a predicate ticked |
| Adas.Dialog.constructor | adas.py:84-92 | the list, query string, results and `_count` start empty or zero; the view shows the placeholder and is disabled; every box is unticked and disabled; all invariants hold |
| Adas.Dialog.QuCbesEnable | adas.py:264-267 | every checkbox is enabled |
| Adas.Dialog.QuCbesUnchecked | adas.py:274-277 | every checkbox is unticked |
| Adas.Dialog.EnableFrontEnd | adas.py:347-352 | the menu, buttons and query view are enabled, and so is every checkbox |
| Adas.Dialog.CheckDb | adas.py:418-435 | the recorded status code is the classification of the probe's outcome |
| Adas.Dialog.OpenDb | adas.py:390-416 | the chosen connection is kept and checked; the front end is enabled only on status 0; the message shown is the one for the status code |
| Adas.Dialog.ClearQuery | adas.py:439-446 | the list and string are emptied, `_count` is 0, the placeholder is shown and every box is unticked |
| Adas.Dialog.EraseQuery | adas.py:321-340 | the list loses exactly the predicates on the label's column; `count` is the new length; `_count` and the boxes are kept unless the list became empty, when everything is reset |
| Adas.Dialog.OpenQuDialog | adas.py:279-319 | a click that unticks a box erases that box's column and sets `count` to the new length; any other click or menu pick leaves the query alone and opens the sub-dialog for the i-th key |
| Adas.Dialog.AppendPredicate | adas.py:627-632 | the predicate is appended at the end, the view shows the template followed by the new rendering, and `_count` grows by one |
| Adas.Dialog.CheckKeyBox | adas.py:633-640 | exactly the box at `choice`'s position is ticked and enabled; every other box keeps its flags |
| Adas.Dialog.SubmitQuery | adas.py:448-461 | with `_count` 0 nothing changes; otherwise the template, the query string and `LIMIT 1000` are run, and the result list and view become the search's column-1 values; a raise changes neither |
| Adas.Dialog.ClearResultView | adas.py:256 | the results view is blanked and the result list is kept |
| Adas.QueryDialog.constructor | adas.py:487-490 | the dialog remembers its key and parent, and holds no tuple yet |
| Adas.QueryDialog.GenerateSingleQuery | adas.py:581-603 | an empty value is refused and leaves the parent unchanged; otherwise exactly one built predicate is appended, the query view is enabled, `_count` grows by one, and only `choice`'s box is ticked and enabled |
| Adas.QueryDialog.UpdateMainQuery | adas.py:605-642 | the predicate `[qopr, events_schema[choice], opr, val]` is appended; the view shows the template plus the new rendering; `_count` grows by one; only `choice`'s box changes; all invariants are kept |
| Adas.ExampleVehiclePredicate | adas.py:609-623 | Vehicle Number LIKE JPP297 on an empty query builds `['', 'vehicle', 'LIKE', "'%JPP297%'"]` |
| Adas.ExampleLaneChangePredicate | adas.py:609-623 | Lane Change > 2 with AND after one add builds `['AND', 'lane_change', '>', '2']` |
| Adas.ExampleVehicleRender | adas.py:629 | the empty combinator leaves a leading space in the rendering |
| Adas.ExampleLaneChangeRender | adas.py:629 | the lane-change predicate renders as `AND lane_change > 2` |
| Adas.ExampleVehicleText | adas.py:631 | the first query text has a double space after WHERE |
| Adas.ExampleBothText | adas.py:631 | the second predicate is appended after one space |
| Adas.ExampleEraseList | adas.py:333 | unticking Vehicle Number leaves only the lane-change predicate, its AND kept |
| Adas.ExampleEraseText | adas.py:340 | the query text after that erase is `SELECT * FROM adas_events WHERE AND lane_change > 2` |

## Left out

- Qt layout, geometry, icons, window titles, menus and the message boxes themselves are not modelled. The geometry uses float arithmetic. Each message box is a field value or a returned message.
- The file picker in `open_db` is not modelled. `OpenDb` receives the chosen connection, and a cancelled picker is not modelled.
- SQLite access is not modelled. A connection is a function from SQL text to rows or an error message. The cursor, fetching and the file format are not modelled.
- `submit_query` with `_count > 0` assumes a connection exists. In the program the query box cannot be used before a database is opened.
- Debug `print` calls are left out.
- Result cells are modelled as strings. A NULL or numeric column 1 would make `"\n".join` raise after `log_results` was already reassigned. The model does not capture that half-done update.
- `export_to_csv` and `export_to_mat` write files through numpy and scipy, so they are left out. The `[:1]` slice assignment of the MAT export, which does not copy the whole result list, is left out with them.
- `QueryDialog.closeEvent` is left out. It is window-event wiring, and it compares column names with menu labels, so it never matches.
- `warning_box` and `erase_result_box` are left out. `warning_box` sets the text of `questionLabel`, an attribute the dialog never creates. `erase_result_box` calls `setText` on a group box.
- `qu_cbes_disable` is never called and is not modelled.
- The unknown-label path of `open_qu_dialog` and `erase_query` is not modelled. There `events_schema['']` raises or `QueryDialog(None)` fails. Labels come from the menu itself, so `OpenQuDialog` takes a position and `EraseQuery` requires a known label.
- A sub-dialog closed without pressing OK leaves its box ticked with no predicate. So the box invariant holds one way only: a column with a predicate has its box ticked.
- Adas.QueryDialog.GenerateSingleQuery: the combo boxes are modelled by a precondition. The operator must be one `OperatorChoices` offers and the combinator one of `QOperators`; Qt offers nothing else.
- Adas.Dialog.SubmitQuery: a driver error during the search is reported as an outcome. In the program it is an uncaught exception that propagates out of the Qt slot.
