/** The column-visibility rules of the hooks table: which columns a context
    selects through their `displayOption`, and which column indices start out
    hidden. */
module TableColumns {
  import opened Js
  import opened TableCore

  /** `xs.find(x => x === v)` is truthy: `v` is present and is not `""`
      (`find` returns the element itself). */
  predicate Finds(xs: seq<string>, v: string) {
    v in xs && v != ""
  }

  /** The rule of `getRemovedColumns` for one column. */
  predicate Removed(c: Column, filterColumns: seq<string>, selectedColumns: Option<seq<string>>) {
    if c.displayOption.Some? then
      c.display == Bool(false) || |filterColumns| == 0 || !Finds(filterColumns, c.column)
    else if selectedColumns.Some? && |selectedColumns.value| > 0 then
      !Finds(selectedColumns.value, c.caption)
    else c.display == Bool(false)
  }

  predicate StrictlyIncreasing(s: seq<nat>) {
    forall i, j :: 0 <= i < j < |s| ==> s[i] < s[j]
  }

  /** The indices of the removed columns, in column order. */
  function RemovedIndices(columns: seq<Column>, filterColumns: seq<string>,
                          selectedColumns: Option<seq<string>>): (r: seq<nat>)
    ensures StrictlyIncreasing(r)
    ensures forall k :: k in r <==> 0 <= k < |columns| && Removed(columns[k], filterColumns, selectedColumns)
  {
    if |columns| == 0 then []
    else
      var init := columns[..|columns| - 1];
      var prev := RemovedIndices(init, filterColumns, selectedColumns);
      assert forall k :: 0 <= k < |init| ==> init[k] == columns[k];
      assert forall i :: 0 <= i < |prev| ==> prev[i] < |init| by {
        forall i | 0 <= i < |prev|
          ensures prev[i] < |init|
        {
          assert prev[i] in prev;
        }
      }
      if Removed(columns[|columns| - 1], filterColumns, selectedColumns) then prev + [|columns| - 1]
      else prev
  }

  /** `getRemovedColumns` */
  method GetRemovedColumns(columns: seq<Column>, filterColumns: seq<string>,
                           selectedColumns: Option<seq<string>>) returns (removed: seq<nat>)
    ensures removed == RemovedIndices(columns, filterColumns, selectedColumns)
  {
    removed := [];
    var index := 0;
    while index < |columns|
      invariant 0 <= index <= |columns|
      invariant removed == RemovedIndices(columns[..index], filterColumns, selectedColumns)
    {
      assert columns[..index + 1][..index] == columns[..index];
      var d := columns[index];
      if d.displayOption.Some? {
        if d.display == Bool(false) || |filterColumns| == 0 || !Finds(filterColumns, d.column) {
          removed := removed + [index];
        }
      } else if selectedColumns.Some? && |selectedColumns.value| > 0 {
        if !Finds(selectedColumns.value, d.caption) {
          removed := removed + [index];
        }
      } else if d.display == Bool(false) {
        removed := removed + [index];
      }
      index := index + 1;
    }
    assert columns[..|columns|] == columns;
  }

  /** A `displayOption` entry selects its column in `context`: the key is
      present and the option equals the context value (a string) or contains
      it (an array). */
  predicate RuleMatches(rule: DisplayRule, context: map<string, Value>) {
    rule.key in context &&
    match rule.value
    case Text(s) => context[rule.key] == Str(s)
    case Values(vs) => context[rule.key] in vs
    case OtherRule => false
  }

  /** One `column` entry per matching rule. */
  function RuleHits(column: string, rules: seq<DisplayRule>, context: map<string, Value>): seq<string> {
    if |rules| == 0 then []
    else RuleHits(column, rules[..|rules| - 1], context) +
         (if RuleMatches(rules[|rules| - 1], context) then [column] else [])
  }

  /** The rules of a column; a column without `displayOption` has none. */
  function RulesOf(c: Column): seq<DisplayRule> {
    if c.displayOption.Some? then c.displayOption.value else []
  }

  /** The `filterColumns` of `getColumnByContext`. */
  function ContextFilter(columns: seq<Column>, context: map<string, Value>): seq<string> {
    if |columns| == 0 then []
    else
      var c := columns[|columns| - 1];
      ContextFilter(columns[..|columns| - 1], context) + RuleHits(c.column, RulesOf(c), context)
  }

  /** The context value of the last rule key present in `context`, else `initial`. */
  function LastKey(rules: seq<DisplayRule>, context: map<string, Value>, initial: Value): Value {
    if |rules| == 0 then initial
    else if rules[|rules| - 1].key in context then context[rules[|rules| - 1].key]
    else LastKey(rules[..|rules| - 1], context, initial)
  }

  /** The `removedColumnsKey` of `getColumnByContext`, starting from `''`. */
  function ContextKey(columns: seq<Column>, context: map<string, Value>): Value {
    if |columns| == 0 then Str("")
    else
      var c := columns[|columns| - 1];
      LastKey(RulesOf(c), context, ContextKey(columns[..|columns| - 1], context))
  }

  lemma {:induction false} RuleHitsMembership(column: string, rules: seq<DisplayRule>, context: map<string, Value>, x: string)
    ensures x in RuleHits(column, rules, context) <==>
              x == column && exists j :: 0 <= j < |rules| && RuleMatches(rules[j], context)
  {
    if |rules| > 0 {
      var init := rules[..|rules| - 1];
      RuleHitsMembership(column, init, context, x);
      assert forall j :: 0 <= j < |init| ==> init[j] == rules[j];
      if x == column && !(exists j :: 0 <= j < |init| && RuleMatches(init[j], context)) &&
         (exists j :: 0 <= j < |rules| && RuleMatches(rules[j], context)) {
        var j :| 0 <= j < |rules| && RuleMatches(rules[j], context);
        assert j == |rules| - 1;
      }
    }
  }

  /** A column name enters `filterColumns` exactly when one of that column's
      `displayOption` entries matches the context. */
  lemma {:induction false} ContextFilterMembership(columns: seq<Column>, context: map<string, Value>, x: string)
    ensures x in ContextFilter(columns, context) <==>
              exists k, j :: 0 <= k < |columns| && columns[k].column == x &&
                0 <= j < |RulesOf(columns[k])| && RuleMatches(RulesOf(columns[k])[j], context)
  {
    if |columns| > 0 {
      var init, c := columns[..|columns| - 1], columns[|columns| - 1];
      ContextFilterMembership(init, context, x);
      RuleHitsMembership(c.column, RulesOf(c), context, x);
      assert forall k :: 0 <= k < |init| ==> init[k] == columns[k];
      if x in ContextFilter(columns, context) && x !in ContextFilter(init, context) {
        var j :| 0 <= j < |RulesOf(c)| && RuleMatches(RulesOf(c)[j], context);
        assert columns[|columns| - 1] == c;
      }
      if (exists k, j :: 0 <= k < |columns| && columns[k].column == x &&
            0 <= j < |RulesOf(columns[k])| && RuleMatches(RulesOf(columns[k])[j], context)) &&
         x !in ContextFilter(init, context) {
        var k, j :| 0 <= k < |columns| && columns[k].column == x &&
            0 <= j < |RulesOf(columns[k])| && RuleMatches(RulesOf(columns[k])[j], context);
        assert k == |columns| - 1;
      }
    }
  }

  /** The context values of the rule keys present in `context`, in rule order. */
  function KeyValues(rules: seq<DisplayRule>, context: map<string, Value>): seq<Value> {
    if |rules| == 0 then []
    else KeyValues(rules[..|rules| - 1], context) +
         (if rules[|rules| - 1].key in context then [context[rules[|rules| - 1].key]] else [])
  }

  /** Every context value the rules of `columns` look up, in visiting order. */
  function PresentValues(columns: seq<Column>, context: map<string, Value>): seq<Value> {
    if |columns| == 0 then []
    else PresentValues(columns[..|columns| - 1], context) + KeyValues(RulesOf(columns[|columns| - 1]), context)
  }

  function LastOr(s: seq<Value>, fallback: Value): Value {
    if |s| == 0 then fallback else s[|s| - 1]
  }

  lemma {:induction false} LastKeyIsLastPresent(rules: seq<DisplayRule>, context: map<string, Value>, initial: Value)
    ensures LastKey(rules, context, initial) == LastOr(KeyValues(rules, context), initial)
  {
    if |rules| > 0 {
      LastKeyIsLastPresent(rules[..|rules| - 1], context, initial);
    }
  }

  /** `removedColumnsKey` ends as the context value of the last rule key, over
      all columns, that the context has; `''` when it has none of them. */
  lemma {:induction false} ContextKeyIsLastPresent(columns: seq<Column>, context: map<string, Value>)
    ensures ContextKey(columns, context) == LastOr(PresentValues(columns, context), Str(""))
  {
    if |columns| > 0 {
      var init := columns[..|columns| - 1];
      var rules := RulesOf(columns[|columns| - 1]);
      ContextKeyIsLastPresent(init, context);
      LastKeyIsLastPresent(rules, context, ContextKey(init, context));
    }
  }

  /** `getColumnByContext`: one pass over the columns and their rules. */
  method GetColumnByContext(columns: seq<Column>, context: map<string, Value>)
    returns (filterColumns: seq<string>, removedColumnsKey: Value)
    ensures filterColumns == ContextFilter(columns, context)
    ensures removedColumnsKey == ContextKey(columns, context)
  {
    filterColumns, removedColumnsKey := [], Str("");
    var i := 0;
    while i < |columns|
      invariant 0 <= i <= |columns|
      invariant filterColumns == ContextFilter(columns[..i], context)
      invariant removedColumnsKey == ContextKey(columns[..i], context)
    {
      assert columns[..i + 1][..i] == columns[..i];
      filterColumns, removedColumnsKey := ApplyRules(columns[i], context, filterColumns, removedColumnsKey);
      i := i + 1;
    }
    assert columns[..|columns|] == columns;
  }

  /** The inner loop of `getColumnByContext`: the rules of one column. */
  method ApplyRules(d: Column, context: map<string, Value>, before: seq<string>, keyBefore: Value)
    returns (filterColumns: seq<string>, removedColumnsKey: Value)
    ensures filterColumns == before + RuleHits(d.column, RulesOf(d), context)
    ensures removedColumnsKey == LastKey(RulesOf(d), context, keyBefore)
  {
    var rules := RulesOf(d);
    filterColumns, removedColumnsKey := before, keyBefore;
    var j := 0;
    while j < |rules|
      invariant 0 <= j <= |rules|
      invariant filterColumns == before + RuleHits(d.column, rules[..j], context)
      invariant removedColumnsKey == LastKey(rules[..j], context, keyBefore)
    {
      assert rules[..j + 1][..j] == rules[..j];
      var rule := rules[j];
      if rule.key in context {
        removedColumnsKey := context[rule.key];
        var hit := match rule.value
          case Text(s) => context[rule.key] == Str(s)
          case Values(vs) => context[rule.key] in vs
          case OtherRule => false;
        if hit {
          filterColumns := filterColumns + [d.column];
        }
      }
      j := j + 1;
    }
    assert rules[..|rules|] == rules;
  }
}
