/**
 * The SummarizeImages plan node: executes its child once and maps
 * `summarize_all_images` over the resulting dataset, document by document.
 */
module Transforms {
  import opened Wrappers
  import opened Values
  import opened Elements
  import opened Documents
  import opened ImageSummaries

  /** One row of a dataset: a document's element records, in order. */
  type Row = seq<Rec>

  /** Every element record of every row carries `properties`. */
  predicate WellFormed(rows: seq<Row>)
  {
    forall d | d in rows :: forall r | r in d :: "properties" in r.data
  }

  /** The mapped rows, the model calls made, and the exception that failed the map, if any. */
  datatype DatasetOutcome = DatasetOutcome(rows: seq<Row>, calls: seq<seq<Message>>, failure: Option<Error>)

  /**
   * `dataset.map(summarize_all_images)` over the rows from index `i` on, in
   * row order; an exception in any row fails the whole map.
   */
  function MapDocuments(c: Collaborators, rows: seq<Row>, i: nat): (o: DatasetOutcome)
    requires i <= |rows|
    ensures o.failure.None? ==> |o.rows| == |rows| - i
    decreases |rows| - i
  {
    if i == |rows| then DatasetOutcome([], [], None)
    else
      var d := RunFrom(c, rows[i], 0);
      if d.failure.Some? then DatasetOutcome([], d.calls, d.failure)
      else
        var rest := MapDocuments(c, rows, i + 1);
        DatasetOutcome([d.elems] + rest.rows, d.calls + rest.calls, rest.failure)
  }

  /** The upstream plan node, counting how often it is executed. */
  class ChildNode {
    const output: seq<Row>
    var executions: nat

    constructor (output: seq<Row>)
      ensures this.output == output && executions == 0
    {
      this.output := output;
      executions := 0;
    }

    /** `execute()`: produces the upstream dataset. */
    method Execute() returns (rows: seq<Row>)
      modifies this
      ensures executions == old(executions) + 1 && rows == output
    {
      executions := executions + 1;
      rows := output;
    }
  }

  /** `SummarizeImages(child, summarizer)`. */
  class SummarizeImages {
    const child: ChildNode
    const summarizer: ImageSummarizer

    constructor (child: ChildNode, summarizer: ImageSummarizer)
      ensures this.child == child && this.summarizer == summarizer
    {
      this.child := child;
      this.summarizer := summarizer;
    }

    /**
     * The function `generate_map_function` wraps around `summarize_all_images`:
     * a row becomes a Document of fresh element objects, which is summarised
     * and turned back into a row.
     */
    method SummarizeRow(row: Row) returns (r: Result<Row, Error>)
      requires forall e | e in row :: "properties" in e.data
      modifies summarizer.client
      ensures var d := RunFrom(summarizer.Collab(), row, 0);
        summarizer.client.calls == old(summarizer.client.calls) + d.calls
        && r == (if d.failure.None? then Ok(d.elems) else Err(d.failure.value))
    {
      var doc := new Document.FromRecords(row);
      var result := summarizer.SummarizeAllImages(doc);
      if result.Err? {
        return Err(result.error);
      }
      r := Ok(Records(doc.elements));
    }

    /** `execute()`: runs the child exactly once, then maps the summariser over its rows. */
    method Execute() returns (r: Result<seq<Row>, Error>)
      requires WellFormed(child.output)
      modifies child, summarizer.client
      ensures child.executions == old(child.executions) + 1
      ensures var o := MapDocuments(summarizer.Collab(), child.output, 0);
        summarizer.client.calls == old(summarizer.client.calls) + o.calls
        && r == (if o.failure.None? then Ok(o.rows) else Err(o.failure.value))
    {
      ghost var c := summarizer.Collab();
      ghost var calls0 := summarizer.client.calls;
      var input := child.Execute();
      ghost var total := MapDocuments(c, input, 0);
      ghost var done: seq<seq<Message>> := [];
      var out: seq<Row> := [];
      var i := 0;
      while i < |input|
        invariant 0 <= i <= |input| && input == child.output
        invariant child.executions == old(child.executions) + 1
        invariant summarizer.client.calls == calls0 + done
        invariant var rest := MapDocuments(c, input, i);
          total.failure == rest.failure && total.calls == done + rest.calls
          && (total.failure.None? ==> total.rows == out + rest.rows)
      {
        assert input[i] in input;
        var result := SummarizeRow(input[i]);
        ghost var d := RunFrom(c, input[i], 0);
        ConcatAssoc(calls0, done, d.calls);
        if result.Err? {
          return Err(result.error);
        }
        ghost var rest := MapDocuments(c, input, i + 1);
        ConcatAssoc(done, d.calls, rest.calls);
        ConcatAssoc(out, [result.value], rest.rows);
        done := done + d.calls;
        out := out + [result.value];
        i := i + 1;
      }
      assert out + [] == out && done + [] == done;
      r := Ok(out);
    }
  }
}
