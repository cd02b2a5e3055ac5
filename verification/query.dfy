/**
 * The predicate accumulator's pure parts: the four-element predicate lists,
 * their rendering by nested space-joins, removal by column, the operator
 * offer of the query sub-dialog, the `%...%` wrapping of text values and the
 * non-empty-value check.
 */
module Query {
  import opened Catalog

  /** One WHERE-clause fragment, the list `[qopr, sch, opr, val]`. */
  datatype Predicate = Predicate(combinator: string, column: string, operator: string, value: string)

  /** What the sub-dialog reads from its widgets: `(operator, value, qoperator)`. */
  datatype QueryTuple = QueryTuple(operator: string, value: string, qoperator: string)

  /** The predicate as the list of its four strings. */
  function Words(p: Predicate): seq<string>
  {
    [p.combinator, p.column, p.operator, p.value]
  }

  /** Python's `sep.join(parts)`. */
  function Join(sep: string, parts: seq<string>): string
  {
    if |parts| == 0 then ""
    else if |parts| == 1 then parts[0]
    else parts[0] + sep + Join(sep, parts[1..])
  }

  /** Joining one more part adds the separator and the part at the end. */
  lemma {:induction false} JoinAppend(sep: string, parts: seq<string>, last: string)
    ensures Join(sep, parts + [last]) == if parts == [] then last else Join(sep, parts) + sep + last
  {
    if |parts| == 0 {
      assert parts + [last] == [last];
    } else if |parts| == 1 {
      assert (parts + [last])[1..] == [last];
    } else {
      assert (parts + [last])[1..] == parts[1..] + [last];
      JoinAppend(sep, parts[1..], last);
    }
  }

  /** A join of a non-empty list begins with its first part. */
  lemma {:induction false} JoinStartsWithFirst(sep: string, parts: seq<string>)
    requires |parts| > 0
    ensures |Join(sep, parts)| >= |parts[0]|
    ensures Join(sep, parts)[..|parts[0]|] == parts[0]
  {
    if |parts| > 1 {
      var rest := sep + Join(sep, parts[1..]);
      assert Join(sep, parts) == parts[0] + rest;
      assert (parts[0] + rest)[..|parts[0]|] == parts[0];
    }
  }

  /** `' '.join(x)` for one predicate. */
  function ClauseText(p: Predicate): string
  {
    Join(" ", Words(p))
  }

  /** The clause reads as its four words separated by single spaces. */
  lemma ClauseSpelledOut(p: Predicate)
    ensures ClauseText(p) == p.combinator + " " + p.column + " " + p.operator + " " + p.value
    ensures |ClauseText(p)| >= 3
  {
    var w := Words(p);
    assert w[1..][1..][1..] == [p.value];
    assert Join(" ", w[1..][1..]) == p.operator + " " + p.value;
    assert Join(" ", w[1..]) == p.column + " " + (p.operator + " " + p.value);
    assert Join(" ", w) == p.combinator + " " + (p.column + " " + (p.operator + " " + p.value));
  }

  /** `list(map(lambda x: ' '.join(x), qs))`. */
  function Clauses(qs: seq<Predicate>): seq<string>
  {
    seq(|qs|, i requires 0 <= i < |qs| => ClauseText(qs[i]))
  }

  /**
   * `_query_str`: the space-join of the space-joined predicates. Every clause
   * has at least its three separating spaces, so the rendering is empty
   * exactly when the list is.
   */
  function Render(qs: seq<Predicate>): (r: string)
    ensures r == "" <==> qs == []
  {
    if qs == [] then ""
    else
      ClauseSpelledOut(qs[0]);
      JoinStartsWithFirst(" ", Clauses(qs));
      Join(" ", Clauses(qs))
  }

  /** Re-rendering after an append extends the old rendering by one clause. */
  lemma RenderAppend(qs: seq<Predicate>, p: Predicate)
    ensures Render(qs + [p]) == if qs == [] then ClauseText(p) else Render(qs) + " " + ClauseText(p)
  {
    assert Clauses(qs + [p]) == Clauses(qs) + [ClauseText(p)];
    JoinAppend(" ", Clauses(qs), ClauseText(p));
  }

  /** A single predicate renders as its own clause. */
  lemma RenderSingle(p: Predicate)
    ensures Render([p]) == ClauseText(p)
  {
    assert Clauses([p]) == [ClauseText(p)];
  }

  /** Whether some predicate constrains the given column. */
  predicate HasColumn(qs: seq<Predicate>, column: string)
  {
    exists p | p in qs :: p.column == column
  }

  /** `[x for x in qs if x[1] != column]`. */
  function Without(qs: seq<Predicate>, column: string): (r: seq<Predicate>)
    ensures |r| <= |qs|
    ensures forall p :: p in r <==> p in qs && p.column != column
  {
    if qs == [] then []
    else (if qs[0].column != column then [qs[0]] else []) + Without(qs[1..], column)
  }

  /** Removal works piecewise, so the survivors keep their relative order. */
  lemma {:induction false} WithoutAppend(a: seq<Predicate>, b: seq<Predicate>, column: string)
    ensures Without(a + b, column) == Without(a, column) + Without(b, column)
  {
    if a == [] {
      assert a + b == b;
    } else {
      assert (a + b)[0] == a[0];
      assert (a + b)[1..] == a[1..] + b;
      WithoutAppend(a[1..], b, column);
    }
  }

  /** On one predicate, removal keeps it unchanged or drops it. */
  lemma WithoutSingle(p: Predicate, column: string)
    ensures Without([p], column) == if p.column == column then [] else [p]
  {
    assert [p][1..] == [];
  }

  /** Nothing is removed, and no combinator is changed, when no predicate has the column. */
  lemma {:induction false} WithoutNothingToRemove(qs: seq<Predicate>, column: string)
    requires !HasColumn(qs, column)
    ensures Without(qs, column) == qs
  {
    if qs != [] {
      assert qs[0] in qs;
      assert !HasColumn(qs[1..], column) by {
        forall p | p in qs[1..] ensures p.column != column { assert p in qs; }
      }
      WithoutNothingToRemove(qs[1..], column);
      assert [qs[0]] + qs[1..] == qs;
    }
  }

  /** After appending a predicate, a column is present iff it was present or is the new predicate's. */
  lemma HasColumnAppend(qs: seq<Predicate>, p: Predicate, column: string)
    ensures HasColumn(qs + [p], column) <==> HasColumn(qs, column) || p.column == column
  {
    if HasColumn(qs, column) {
      var q :| q in qs && q.column == column;
      assert q in qs + [p];
    }
    if p.column == column {
      assert p in qs + [p];
    }
  }

  /** After removing a column, a column is present iff it is another one that was present. */
  lemma HasColumnWithout(qs: seq<Predicate>, column: string, other: string)
    ensures HasColumn(Without(qs, column), other) <==> other != column && HasColumn(qs, other)
  {
    if other != column && HasColumn(qs, other) {
      var p :| p in qs && p.column == other;
      assert p in Without(qs, column);
    }
  }

  /** `d_operator`: every operator the sub-dialog knows. */
  const DOperators: seq<string> := ["==", ">", ">=", "<", "<=", "LIKE"]

  /** `q_operator`: the combinators offered. */
  const QOperators: seq<string> := ["OR", "AND"]

  /** The keys whose column holds text. */
  const TextKeys: seq<string> := ["lname", "ldate", "lvn"]

  /** The operator list offered for a key: `[d_operator[5]]` or `d_operator[0:4]`. */
  function OperatorChoices(choice: string): (ops: seq<string>)
    ensures |ops| > 0 && "<=" !in ops
    ensures "LIKE" in ops <==> choice in TextKeys
  {
    if choice in TextKeys then [DOperators[5]] else DOperators[0..4]
  }

  /** Text keys get LIKE only; every other key gets the four comparisons and never `<=`. */
  lemma OperatorChoicesOffered(choice: string)
    ensures choice in TextKeys ==> OperatorChoices(choice) == ["LIKE"]
    ensures choice !in TextKeys ==> OperatorChoices(choice) == ["==", ">", ">=", "<"]
  {
  }

  /** The value stored for a key: text keys wrap it as `'%v%'`, others keep it. */
  function StoredValue(choice: string, v: string): (s: string)
    ensures choice in TextKeys ==>
      && |s| == |v| + 4
      && s[..2] == "'%" && s[2..|s| - 2] == v && s[|s| - 2..] == "%'"
    ensures choice !in TextKeys ==> s == v
  {
    if choice in TextKeys then "'%" + v + "%'" else v
  }

  /** Reads the typed value back out of a stored one. */
  function Unwrap(choice: string, stored: string): string
  {
    if choice in TextKeys && |stored| >= 4 then stored[2..|stored| - 2] else stored
  }

  /** Storing then unwrapping gives the typed value back. */
  lemma StoredValueRoundTrip(choice: string, v: string)
    ensures Unwrap(choice, StoredValue(choice, v)) == v
  {
  }

  /** `check_query_val`: a tuple is acceptable when its value is not the empty string. */
  function CheckQueryVal(t: QueryTuple): (ok: bool)
    ensures ok <==> |t.value| > 0
  {
    t.value != ""
  }

  /** `built_query` of update_main_query, for a dialog opened on `choice` when `_count` is `count`. */
  function BuiltQuery(choice: string, count: nat, t: QueryTuple): (p: Predicate)
    requires choice in Keys
    requires t.qoperator in QOperators
    ensures p.combinator == "" <==> count == 0
    ensures count != 0 ==> p.combinator == t.qoperator
    ensures p.column == SchemaOf(choice) && p.operator == t.operator
    ensures choice in TextKeys ==> p.value == "'%" + t.value + "%'"
    ensures choice !in TextKeys ==> p.value == t.value
    ensures Unwrap(choice, p.value) == t.value
  {
    var qopr := if count == 0 then "" else t.qoperator;
    var val := StoredValue(choice, t.value);
    assert Unwrap(choice, val) == t.value by { StoredValueRoundTrip(choice, t.value); }
    Predicate(qopr, SchemaOf(choice), t.operator, val)
  }
}
