/** The lifecycle queue consumer: an SQS-triggered handler that walks a batch
    of records in arrival order, shape-checks each, sends one Glue
    `DeleteSchemaCommand` per record that passes, turns every per-record
    failure into an entry of `failedRecords` instead of aborting, and logs that
    list once after the batch.

    Glue is an oracle `glue(position, command)`: the outcome of the delete sent
    while processing the record at `position`. The logger is an output. */
module QueueConsumer {
  import opened Outcomes
  import opened Zod
  import Sqs

  /** `MessageBodySchema`: `{ schemaName: string, versionId: string, versionNumber: number }`. */
  const MessageBodyShape: Shape :=
    [("schemaName", StringField), ("versionId", StringField), ("versionNumber", NumberField)]

  datatype MessageBody = MessageBody(schemaName: string, versionId: string, versionNumber: int)

  /** `MessageBodySchema.safeParse(v)`: succeeds exactly when `v` has the
      shape, and then carries the three fields; fails with the schema's issues. */
  function ParseMessageBody(v: JsValue): (r: Result<MessageBody, seq<Issue>>)
    ensures r.Success? <==> Conforms(MessageBodyShape, v)
    ensures r.Failure? ==> r.reason == ObjectIssues(MessageBodyShape, v) && r.reason != []
    ensures r.Success? ==>
      v.JsObject? &&
      Property(v.props, "schemaName") == JsString(r.data.schemaName) &&
      Property(v.props, "versionId") == JsString(r.data.versionId) &&
      Property(v.props, "versionNumber") == JsNumber(r.data.versionNumber)
  {
    var issues := ObjectIssues(MessageBodyShape, v);
    if issues != [] then Failure(issues)
    else
      assert Accepts(MessageBodyShape[0].1, Property(v.props, MessageBodyShape[0].0));
      assert Accepts(MessageBodyShape[1].1, Property(v.props, MessageBodyShape[1].0));
      assert Accepts(MessageBodyShape[2].1, Property(v.props, MessageBodyShape[2].0));
      Success(MessageBody(Property(v.props, "schemaName").s, Property(v.props, "versionId").s,
                          Property(v.props, "versionNumber").n))
  }

  /** `JSON.stringify` of a string: the string in double quotes (escaping is not modelled). */
  function StringifyString(s: string): string
  {
    "\"" + s + "\""
  }

  /** An SQS record; its `body` is a string. */
  datatype SqsRecord = SqsRecord(messageId: string, receiptHandle: string, body: string)

  datatype SqsEvent = SqsEvent(records: seq<SqsRecord>)

  datatype SchemaId = SchemaId(registryName: string, schemaName: string)

  datatype DeleteSchemaCommand = DeleteSchemaCommand(schemaId: SchemaId)

  /** The response of a delete; the consumer reads none of its fields. */
  datatype DeleteSchemaResponse =
    DeleteSchemaResponse(schemaArn: Option<string>, schemaName: Option<string>, status: Option<string>)

  /** The outcome of the delete sent while processing the record at a position. */
  type Glue = (nat, DeleteSchemaCommand) -> Call<DeleteSchemaResponse>

  datatype FailureReason = ValidationError(errors: seq<Issue>) | UnknownError(error: Fault)

  /** An entry of `failedRecords`: the original record and why it failed. */
  datatype FailedRecord = FailedRecord(record: SqsRecord, reason: FailureReason)

  /** The one `logger.error({ failedRecords }, message)` call. */
  datatype LogRecord = LogRecord(failedRecords: seq<FailedRecord>, message: string)

  const FailureLogMessage := "Some records failed to be processed"

  /** The value the shape check is applied to: the stringified body, itself a string. */
  function CheckedValue(record: SqsRecord): JsValue
  {
    JsString(StringifyString(record.body))
  }

  /** The value checked is a string that holds the body between two quotes,
      never the object the body encodes. */
  lemma CheckedValueQuotesBody(record: SqsRecord)
    ensures var v := CheckedValue(record);
      v.JsString? && !v.JsObject? && |v.s| == |record.body| + 2 &&
      v.s[0] == '"' && v.s[|v.s| - 1] == '"' && v.s[1..|v.s| - 1] == record.body
  {
    var t := StringifyString(record.body);
    assert t[1..|t| - 1] == record.body;
  }

  /** The delete command for a parsed body: the configured `QUEUE_URL` as
      registry name, and the body's schema name; the version fields are unused. */
  function DeleteCommandFor(queueUrl: string, body: MessageBody): (c: DeleteSchemaCommand)
    ensures c.schemaId.registryName == queueUrl && c.schemaId.schemaName == body.schemaName
  {
    DeleteSchemaCommand(SchemaId(queueUrl, body.schemaName))
  }

  /** What processing one record contributes: its entries of `failedRecords` and the deletes it sent. */
  datatype Step = Step(failures: seq<FailedRecord>, deletes: seq<DeleteSchemaCommand>)

  /** One iteration, given the parse result of the record at `position`:
      an invalid body yields one VALIDATION_ERROR entry and sends nothing; a
      valid body sends exactly one delete, which adds nothing when it
      resolves and one UNKNOWN_ERROR entry when it throws. */
  function RecordStep(position: nat, record: SqsRecord, parsed: Result<MessageBody, seq<Issue>>,
                      queueUrl: string, glue: Glue): (s: Step)
    ensures |s.failures| <= 1 && |s.deletes| <= 1
    ensures forall j :: 0 <= j < |s.failures| ==> s.failures[j].record == record
    ensures parsed.Failure? ==>
      s.deletes == [] && s.failures == [FailedRecord(record, ValidationError(parsed.reason))]
    ensures parsed.Success? ==> s.deletes == [DeleteCommandFor(queueUrl, parsed.data)]
    ensures parsed.Success? ==>
      (s.failures == [] <==> glue(position, DeleteCommandFor(queueUrl, parsed.data)).Returned?)
    ensures parsed.Success? && glue(position, DeleteCommandFor(queueUrl, parsed.data)).Threw? ==>
      s.failures == [FailedRecord(record, UnknownError(glue(position, DeleteCommandFor(queueUrl, parsed.data)).error))]
  {
    match parsed
    case Failure(errors) => Step([FailedRecord(record, ValidationError(errors))], [])
    case Success(body) =>
      var command := DeleteCommandFor(queueUrl, body);
      match glue(position, command)
      case Returned(_) => Step([], [command])
      case Threw(e) => Step([FailedRecord(record, UnknownError(e))], [command])
  }

  /** The iteration for the record at `position`, with the parse the handler performs. */
  function StepAt(position: nat, record: SqsRecord, queueUrl: string, glue: Glue): Step
  {
    RecordStep(position, record, ParseMessageBody(CheckedValue(record)), queueUrl, glue)
  }

  /** `failedRecords` after processing the batch `rs`: each record adds at most one entry. */
  function FailedRecords(rs: seq<SqsRecord>, queueUrl: string, glue: Glue): (f: seq<FailedRecord>)
    ensures |f| <= |rs|
    decreases |rs|
  {
    if rs == [] then []
    else
      var n := |rs| - 1;
      FailedRecords(rs[..n], queueUrl, glue) + StepAt(n, rs[n], queueUrl, glue).failures
  }

  /** The deletes sent while processing `rs`, in order: at most one per record. */
  function DeletesSent(rs: seq<SqsRecord>, queueUrl: string, glue: Glue): (d: seq<DeleteSchemaCommand>)
    ensures |d| <= |rs|
    decreases |rs|
  {
    if rs == [] then []
    else
      var n := |rs| - 1;
      DeletesSent(rs[..n], queueUrl, glue) + StepAt(n, rs[n], queueUrl, glue).deletes
  }

  /** The body of the `try` for one record, given the parse result of its
      stringified body: what it appends to `failedRecords` and the deletes it sends. */
  method ProcessRecord(position: nat, record: SqsRecord, parsed: Result<MessageBody, seq<Issue>>,
                       queueUrl: string, glue: Glue)
    returns (failures: seq<FailedRecord>, deletes: seq<DeleteSchemaCommand>)
    ensures Step(failures, deletes) == RecordStep(position, record, parsed, queueUrl, glue)
  {
    failures, deletes := [], [];
    if parsed.Failure? {
      // the shape check failed: record it, and `continue` with the next record
      failures := failures + [FailedRecord(record, ValidationError(parsed.reason))];
      return;
    }
    var command := DeleteSchemaCommand(SchemaId(queueUrl, parsed.data.schemaName));
    deletes := deletes + [command];
    var outcome := glue(position, command);
    if outcome.Threw? {
      // the `catch` block: the thrown value becomes this record's entry
      failures := failures + [FailedRecord(record, UnknownError(outcome.error))];
    }
  }

  /** `main`: the batch loop. Every record is processed, whatever happened to
      the ones before it; the logger is called exactly once, with the whole
      list, even when it is empty. */
  method ConsumeBatch(event: SqsEvent, queueUrl: string, glue: Glue)
    returns (failedRecords: seq<FailedRecord>, deletes: seq<DeleteSchemaCommand>, log: seq<LogRecord>)
    ensures failedRecords == FailedRecords(event.records, queueUrl, glue)
    ensures deletes == DeletesSent(event.records, queueUrl, glue)
    ensures log == [LogRecord(failedRecords, FailureLogMessage)]
  {
    var records := event.records;
    failedRecords := [];
    deletes := [];
    for i := 0 to |records|
      invariant failedRecords == FailedRecords(records[..i], queueUrl, glue)
      invariant deletes == DeletesSent(records[..i], queueUrl, glue)
    {
      assert records[..i + 1][..i] == records[..i];
      var record := records[i];
      var parsed := ParseMessageBody(JsString(StringifyString(record.body)));
      var newFailures, newDeletes := ProcessRecord(i, record, parsed, queueUrl, glue);
      failedRecords := failedRecords + newFailures;
      deletes := deletes + newDeletes;
    }
    assert records[..|records|] == records;
    log := [LogRecord(failedRecords, FailureLogMessage)];
  }

  /** The positions, in increasing order, of the records that add an entry to `failedRecords`. */
  function FailingPositions(rs: seq<SqsRecord>, queueUrl: string, glue: Glue): (p: seq<nat>)
    ensures forall j :: 0 <= j < |p| ==> p[j] < |rs|
    ensures forall j, k :: 0 <= j < k < |p| ==> p[j] < p[k]
    decreases |rs|
  {
    if rs == [] then []
    else
      var n := |rs| - 1;
      FailingPositions(rs[..n], queueUrl, glue) + (if StepAt(n, rs[n], queueUrl, glue).failures != [] then [n] else [])
  }

  /** A position is failing exactly when its iteration added an entry. */
  lemma {:induction false} FailingPositionsExact(rs: seq<SqsRecord>, queueUrl: string, glue: Glue)
    ensures var p := FailingPositions(rs, queueUrl, glue);
      forall i :: 0 <= i < |rs| ==> (i in p <==> StepAt(i, rs[i], queueUrl, glue).failures != [])
    decreases |rs|
  {
    if rs != [] {
      var n := |rs| - 1;
      var pre := rs[..n];
      FailingPositionsExact(pre, queueUrl, glue);
      var p0 := FailingPositions(pre, queueUrl, glue);
      var p := FailingPositions(rs, queueUrl, glue);
      var last := StepAt(n, rs[n], queueUrl, glue).failures != [];
      assert p == p0 + (if last then [n] else []);
      assert n !in p0;
      forall i | 0 <= i < |rs| ensures (i in p <==> StepAt(i, rs[i], queueUrl, glue).failures != []) {
        if i < n {
          assert pre[i] == rs[i];
          assert i in p <==> i in p0;
        }
      }
    }
  }

  /** Entry `j` of `failedRecords` is the entry produced at the `j`-th failing position. */
  lemma {:induction false} FailuresAtPositions(rs: seq<SqsRecord>, queueUrl: string, glue: Glue)
    ensures var f, p := FailedRecords(rs, queueUrl, glue), FailingPositions(rs, queueUrl, glue);
      |f| == |p| &&
      forall j :: 0 <= j < |p| ==> p[j] < |rs| && [f[j]] == StepAt(p[j], rs[p[j]], queueUrl, glue).failures
    decreases |rs|
  {
    if rs != [] {
      var n := |rs| - 1;
      var pre := rs[..n];
      FailuresAtPositions(pre, queueUrl, glue);
      var f0, p0 := FailedRecords(pre, queueUrl, glue), FailingPositions(pre, queueUrl, glue);
      var s := StepAt(n, rs[n], queueUrl, glue);
      var f, p := FailedRecords(rs, queueUrl, glue), FailingPositions(rs, queueUrl, glue);
      assert f == f0 + s.failures;
      assert p == p0 + (if s.failures != [] then [n] else []);
      forall j | 0 <= j < |p| ensures p[j] < |rs| && [f[j]] == StepAt(p[j], rs[p[j]], queueUrl, glue).failures {
        if j < |p0| {
          assert p[j] == p0[j] && f[j] == f0[j];
          assert pre[p0[j]] == rs[p0[j]];
        }
      }
    }
  }

  /** `failedRecords` lists exactly the failing records, in arrival order, one
      entry each, paired with its original record and the reason its own
      iteration produced. */
  lemma FailuresFollowRecords(rs: seq<SqsRecord>, queueUrl: string, glue: Glue)
    ensures var f, p := FailedRecords(rs, queueUrl, glue), FailingPositions(rs, queueUrl, glue);
      |f| == |p| &&
      (forall j :: 0 <= j < |p| ==>
        p[j] < |rs| && f[j].record == rs[p[j]] && [f[j]] == StepAt(p[j], rs[p[j]], queueUrl, glue).failures) &&
      (forall j, k :: 0 <= j < k < |p| ==> p[j] < p[k]) &&
      (forall i :: 0 <= i < |rs| ==> (i in p <==> StepAt(i, rs[i], queueUrl, glue).failures != []))
  {
    FailingPositionsExact(rs, queueUrl, glue);
    FailuresAtPositions(rs, queueUrl, glue);
  }

  /** The positions, in increasing order, of the records for which a delete is sent. */
  function DeletingPositions(rs: seq<SqsRecord>, queueUrl: string, glue: Glue): seq<nat>
    decreases |rs|
  {
    if rs == [] then []
    else
      var n := |rs| - 1;
      DeletingPositions(rs[..n], queueUrl, glue) + (if ParseMessageBody(CheckedValue(rs[n])).Success? then [n] else [])
  }

  /** A delete is sent for exactly the records whose body passes the shape
      check, in arrival order, one each, naming the configured registry and the
      body's schema name. */
  lemma {:induction false} DeletesFollowValidRecords(rs: seq<SqsRecord>, queueUrl: string, glue: Glue)
    ensures var d, p := DeletesSent(rs, queueUrl, glue), DeletingPositions(rs, queueUrl, glue);
      |d| == |p| &&
      (forall j :: 0 <= j < |p| ==>
        p[j] < |rs| && ParseMessageBody(CheckedValue(rs[p[j]])).Success? &&
        d[j] == DeleteCommandFor(queueUrl, ParseMessageBody(CheckedValue(rs[p[j]])).data)) &&
      (forall j, k :: 0 <= j < k < |p| ==> p[j] < p[k]) &&
      (forall i :: 0 <= i < |rs| ==> (i in p <==> ParseMessageBody(CheckedValue(rs[i])).Success?))
    decreases |rs|
  {
    if rs != [] {
      var n := |rs| - 1;
      var pre := rs[..n];
      DeletesFollowValidRecords(pre, queueUrl, glue);
      var d0, p0 := DeletesSent(pre, queueUrl, glue), DeletingPositions(pre, queueUrl, glue);
      var s := StepAt(n, rs[n], queueUrl, glue);
      assert DeletesSent(rs, queueUrl, glue) == d0 + s.deletes;
      assert forall i :: 0 <= i < n ==> pre[i] == rs[i];
      assert n !in p0;
    }
  }

  /** The oracle seen by a suffix of the batch that starts at position `k`. */
  function Shifted(glue: Glue, k: nat): Glue
  {
    (i: nat, c: DeleteSchemaCommand) => glue(i + k, c)
  }

  /** An iteration depends on its position only through the oracle. */
  lemma RecordStepShifted(k: nat, n: nat, r: SqsRecord, parsed: Result<MessageBody, seq<Issue>>,
                          queueUrl: string, glue: Glue)
    ensures RecordStep(k + n, r, parsed, queueUrl, glue) == RecordStep(n, r, parsed, queueUrl, Shifted(glue, k))
  {
    if parsed.Success? {
      var c := DeleteCommandFor(queueUrl, parsed.data);
      assert Shifted(glue, k)(n, c) == glue(k + n, c);
    }
  }

  lemma StepShifted(k: nat, n: nat, r: SqsRecord, queueUrl: string, glue: Glue)
    ensures StepAt(k + n, r, queueUrl, glue) == StepAt(n, r, queueUrl, Shifted(glue, k))
  {
    RecordStepShifted(k, n, r, ParseMessageBody(CheckedValue(r)), queueUrl, glue);
  }

  /** The entries of a batch split into those of its two halves. */
  lemma {:induction false} FailuresSplit(a: seq<SqsRecord>, b: seq<SqsRecord>, queueUrl: string, glue: Glue)
    ensures FailedRecords(a + b, queueUrl, glue)
            == FailedRecords(a, queueUrl, glue) + FailedRecords(b, queueUrl, Shifted(glue, |a|))
    decreases |b|
  {
    if b == [] {
      assert a + b == a;
    } else {
      var n := |b| - 1;
      var ab := a + b;
      FailuresSplit(a, b[..n], queueUrl, glue);
      assert ab[..|ab| - 1] == a + b[..n];
      assert ab[|ab| - 1] == b[n];
      StepShifted(|a|, n, b[n], queueUrl, glue);
      var s := StepAt(n, b[n], queueUrl, Shifted(glue, |a|));
      assert FailedRecords(ab, queueUrl, glue) == FailedRecords(a + b[..n], queueUrl, glue) + s.failures;
      assert FailedRecords(b, queueUrl, Shifted(glue, |a|)) == FailedRecords(b[..n], queueUrl, Shifted(glue, |a|)) + s.failures;
    }
  }

  /** The deletes of a batch split into those of its two halves. */
  lemma {:induction false} DeletesSplit(a: seq<SqsRecord>, b: seq<SqsRecord>, queueUrl: string, glue: Glue)
    ensures DeletesSent(a + b, queueUrl, glue)
            == DeletesSent(a, queueUrl, glue) + DeletesSent(b, queueUrl, Shifted(glue, |a|))
    decreases |b|
  {
    if b == [] {
      assert a + b == a;
    } else {
      var n := |b| - 1;
      var ab := a + b;
      DeletesSplit(a, b[..n], queueUrl, glue);
      assert ab[..|ab| - 1] == a + b[..n];
      assert ab[|ab| - 1] == b[n];
      StepShifted(|a|, n, b[n], queueUrl, glue);
      var s := StepAt(n, b[n], queueUrl, Shifted(glue, |a|));
      assert DeletesSent(ab, queueUrl, glue) == DeletesSent(a + b[..n], queueUrl, glue) + s.deletes;
      assert DeletesSent(b, queueUrl, Shifted(glue, |a|)) == DeletesSent(b[..n], queueUrl, Shifted(glue, |a|)) + s.deletes;
    }
  }

  /** Failure isolation: a batch's entries and deletes are those of its two
      halves processed on their own; nothing in one half affects the other. */
  lemma BatchSplits(a: seq<SqsRecord>, b: seq<SqsRecord>, queueUrl: string, glue: Glue)
    ensures FailedRecords(a + b, queueUrl, glue)
            == FailedRecords(a, queueUrl, glue) + FailedRecords(b, queueUrl, Shifted(glue, |a|))
    ensures DeletesSent(a + b, queueUrl, glue)
            == DeletesSent(a, queueUrl, glue) + DeletesSent(b, queueUrl, Shifted(glue, |a|))
  {
    FailuresSplit(a, b, queueUrl, glue);
    DeletesSplit(a, b, queueUrl, glue);
  }

  /** The one issue a string gets from an object schema. */
  const RootStringIssue := Issue([], InvalidType(TObject, TString))

  /** As written, any record's iteration yields one VALIDATION_ERROR entry and sends nothing. */
  lemma StepRejectsAsWritten(position: nat, record: SqsRecord, queueUrl: string, glue: Glue)
    ensures StepAt(position, record, queueUrl, glue) == Step([FailedRecord(record, ValidationError([RootStringIssue]))], [])
  {
    StringNeverConforms(MessageBodyShape, StringifyString(record.body));
  }

  /** As written, the shape check is applied to a string, so every record of
      every batch becomes a VALIDATION_ERROR entry whose only issue is the
      root's "expected object, received string", and no delete is ever sent. */
  lemma {:induction false} EveryRecordRejectedAsWritten(rs: seq<SqsRecord>, queueUrl: string, glue: Glue)
    ensures DeletesSent(rs, queueUrl, glue) == []
    ensures |FailedRecords(rs, queueUrl, glue)| == |rs|
    ensures forall j :: 0 <= j < |rs| ==>
      FailedRecords(rs, queueUrl, glue)[j] == FailedRecord(rs[j], ValidationError([RootStringIssue]))
    decreases |rs|
  {
    if rs != [] {
      var n := |rs| - 1;
      var pre := rs[..n];
      EveryRecordRejectedAsWritten(pre, queueUrl, glue);
      StepRejectsAsWritten(n, rs[n], queueUrl, glue);
      var f0 := FailedRecords(pre, queueUrl, glue);
      var f := FailedRecords(rs, queueUrl, glue);
      assert f == f0 + [FailedRecord(rs[n], ValidationError([RootStringIssue]))];
      forall j | 0 <= j < |rs| ensures f[j] == FailedRecord(rs[j], ValidationError([RootStringIssue])) {
        if j < n {
          assert f[j] == f0[j];
          assert pre[j] == rs[j];
        }
      }
    }
  }

  /** The notifier's message payload has exactly the shape the consumer expects,
      with the same schema name, version id and version number. */
  lemma NotifierPayloadHasMessageShape(args: Sqs.SendRegisteredSchemaArgs)
    ensures ParseMessageBody(Sqs.Payload(args))
            == Success(MessageBody(args.schemaName, args.versionId, args.versionNumber))
  {
    var v := Sqs.Payload(args);
    assert Conforms(MessageBodyShape, v) by {
      forall k | 0 <= k < |MessageBodyShape|
        ensures Accepts(MessageBodyShape[k].1, Property(v.props, MessageBodyShape[k].0))
      {
      }
    }
  }
}
