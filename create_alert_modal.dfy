/** The dialog that creates a smart alert rule
 *  (frontend/src/pages/WorkSpaceDetail/CreateAlertModal.tsx): which columns of the newest
 *  upload may be watched, the form's defaults, and the rule it posts. */
module CreateAlertModal {
  import opened Common

  const DEFAULT_METRIC := "mean"
  const DEFAULT_CONDITION := "greater_than"
  const DEFAULT_VALUE: real := 0.0

  /** The choices the two drop-downs offer. */
  const METRICS: seq<string> := ["mean", "min", "max", "count"]
  const CONDITIONS: seq<string> := ["greater_than", "less_than"]

  /** An upload's `schema_info` as `Object.entries` lists it: column name and type name
   *  (the backend stores `str(dtype)`, such as `int64` or `object`). */
  type Schema = seq<(string, string)>

  /** An upload as the list endpoint returns it; `None` is a null `schema_info`. */
  datatype Upload = Upload(id: string, schemaInfo: Option<Schema>)

  /** A type the form treats as numeric: its name contains `int` or `float`. */
  predicate IsNumericType(t: string)
  {
    Contains(t, "int") || Contains(t, "float")
  }

  /** The numeric columns of a schema, in schema order. */
  function NumericColumns(schema: Schema): (r: seq<string>)
    ensures |r| <= |schema|
    ensures forall c :: c in r <==> exists k :: 0 <= k < |schema| && schema[k].0 == c && IsNumericType(schema[k].1)
  {
    if schema == [] then []
    else
      var init := schema[..|schema| - 1];
      var last := schema[|schema| - 1];
      assert forall k :: 0 <= k < |init| ==> init[k] == schema[k];
      NumericColumns(init) + (if IsNumericType(last.1) then [last.0] else [])
  }

  /** Filtering a schema in two parts is filtering each part: the columns keep their
   *  order. */
  lemma {:induction false} NumericColumnsAppend(a: Schema, b: Schema)
    ensures NumericColumns(a + b) == NumericColumns(a) + NumericColumns(b)
    decreases |b|
  {
    if b != [] {
      var init := b[..|b| - 1];
      assert (a + b)[..|a + b| - 1] == a + init;
      assert (a + b)[|a + b| - 1] == b[|b| - 1];
      NumericColumnsAppend(a, init);
    } else {
      assert a + b == a;
    }
  }

  /** A schema whose first numeric column is `c`: `c` heads the list. */
  lemma FirstNumericHeads(skipped: Schema, c: string, t: string, rest: Schema)
    requires IsNumericType(t)
    requires forall k :: 0 <= k < |skipped| ==> !IsNumericType(skipped[k].1)
    ensures NumericColumns(skipped + [(c, t)] + rest) == [c] + NumericColumns(rest)
  {
    NumericColumnsAppend(skipped + [(c, t)], rest);
    NumericColumnsAppend(skipped, [(c, t)]);
    assert [(c, t)][..0] == [];
    NoNumericNoColumns(skipped);
  }

  /** The `reduce` over the schema entries, pushing each numeric column. */
  method CollectNumeric(schema: Schema) returns (acc: seq<string>)
    ensures acc == NumericColumns(schema)
  {
    acc := [];
    var i := 0;
    while i < |schema|
      invariant 0 <= i <= |schema|
      invariant acc == NumericColumns(schema[..i])
    {
      var col, t := schema[i].0, schema[i].1;
      assert schema[..i + 1][..i] == schema[..i];
      if Contains(t, "int") || Contains(t, "float") {
        acc := acc + [col];
      }
      i := i + 1;
    }
    assert schema[..i] == schema;
  }

  /** The body of the request that creates the rule. */
  datatype RulePayload = RulePayload(workspaceId: string, columnName: string, metric: string,
                                     condition: string, value: real)

  class AlertForm {
    var columnName: string
    var metric: string
    var condition: string
    var value: real
    var isSaving: bool
    var availableColumns: seq<string>
    var isLoadingColumns: bool

    /** A dialog that has just appeared. */
    constructor ()
      ensures columnName == [] && metric == DEFAULT_METRIC && condition == DEFAULT_CONDITION
      ensures value == DEFAULT_VALUE && !isSaving && availableColumns == [] && !isLoadingColumns
    {
      columnName := [];
      metric := DEFAULT_METRIC;
      condition := DEFAULT_CONDITION;
      value := DEFAULT_VALUE;
      isSaving := false;
      availableColumns := [];
      isLoadingColumns := false;
    }

    /** The Create button is enabled only when nothing is saving or loading and there is a
     *  column to watch. */
    predicate CanCreate()
      reads this
    {
      !isSaving && !isLoadingColumns && |availableColumns| > 0
    }

    /** The rule the form would post for the workspace. */
    function Payload(workspaceId: string): (p: RulePayload)
      reads this
      ensures p.workspaceId == workspaceId && p.columnName == columnName && p.metric == metric
      ensures p.condition == condition && p.value == value
    {
      RulePayload(workspaceId, columnName, metric, condition, value)
    }

    /** The effect run when the dialog opens: the uploads list (`None` when the request
     *  fails) decides the columns. Only a newest upload with a schema changes them, and the
     *  first numeric column is then selected if there is one; in every other case the
     *  columns and the selection stay as they were. */
    method LoadColumns(isOpen: bool, uploads: Option<seq<Upload>>)
      modifies this
      ensures var schema := if isOpen && uploads.Some? && |uploads.value| > 0 then uploads.value[0].schemaInfo else None;
        && (schema.Some? ==> availableColumns == NumericColumns(schema.value))
        && (schema.None? ==> availableColumns == old(availableColumns))
        && (if schema.Some? && |availableColumns| > 0 then columnName == availableColumns[0] else columnName == old(columnName))
      ensures isOpen ==> !isLoadingColumns
      ensures !isOpen ==> isLoadingColumns == old(isLoadingColumns)
      ensures metric == old(metric) && condition == old(condition) && value == old(value) && isSaving == old(isSaving)
    {
      if !isOpen {
        return;
      }
      isLoadingColumns := true;
      if uploads.Some? && |uploads.value| > 0 && uploads.value[0].schemaInfo.Some? {
        var numericCols := CollectNumeric(uploads.value[0].schemaInfo.value);
        availableColumns := numericCols;
        if |numericCols| > 0 {
          columnName := numericCols[0];
        }
      }
      isLoadingColumns := false;
    }

    /** `handleCreateRule`: posts the payload; `created` is whether the request succeeded.
     *  Success closes the dialog and refreshes the rules; either way saving ends. */
    method CreateRule(workspaceId: string, created: bool) returns (sent: RulePayload, closed: bool, refreshed: bool)
      modifies this
      ensures sent == old(Payload(workspaceId))
      ensures closed <==> created
      ensures refreshed <==> created
      ensures !isSaving
      ensures columnName == old(columnName) && metric == old(metric) && condition == old(condition)
      ensures value == old(value) && availableColumns == old(availableColumns) && isLoadingColumns == old(isLoadingColumns)
    {
      isSaving := true;
      sent := RulePayload(workspaceId, columnName, metric, condition, value);
      closed, refreshed := created, created;
      isSaving := false;
    }
  }

  /** A schema with no numeric type leaves nothing to watch, so Create stays disabled. */
  lemma {:induction false} NoNumericNoColumns(schema: Schema)
    requires forall k :: 0 <= k < |schema| ==> !IsNumericType(schema[k].1)
    ensures NumericColumns(schema) == []
    decreases |schema|
  {
    if schema != [] {
      var init := schema[..|schema| - 1];
      NoNumericNoColumns(init);
    }
  }
}
