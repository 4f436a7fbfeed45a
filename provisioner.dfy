/**
 * The provisioner's main loop: every row of the hosts file, in order, is
 * validated, turned into a `host.create` request and sent; every row ends in
 * exactly one outcome and no outcome stops the rows after it.  The counter
 * `i` that drives the progress bar moves on for every row that passed both
 * validation checks and for no other.
 */
module Provisioner {
  import opened Wrappers
  import opened JsonValue
  import opened HostRequest
  import opened ApiReply

  /**
   * The server behind the authenticated client: its answer to a request may
   * depend on every request sent before it (a host name already taken, say).
   */
  type Api = (seq<CreateHostRequest>, CreateHostRequest) -> CallResult

  /** The single outcome of one row. */
  datatype RowOutcome =
    | Skipped(reason: SkipReason)         // no request built, counter unchanged
    | HostCreated                         // reply without an `error` member
    | ApiError(message: Value, data: Value)
    | Failed(fault: RowFault)             // row-local exception, caught and reported

  /** What one row does: its outcome, and the request it sent, if it got that far. */
  datatype Step = Step(outcome: RowOutcome, request: Option<CreateHostRequest>)

  /** The outcome of a row whose request was sent. */
  function CallOutcome(call: CallResult): (o: RowOutcome)
    ensures !o.Skipped?
    ensures o == HostCreated <==> call.Returned? && Classify(call.reply).Succeeded?
    ensures o.ApiError? <==> call.Returned? && Classify(call.reply).Reported?
    ensures o.ApiError? ==> o == ApiError(Classify(call.reply).message, Classify(call.reply).data)
    ensures call.Raised? ==> o == Failed(CallRaised(call.message))
    ensures call.Returned? && Classify(call.reply).Unreadable? ==> o == Failed(MalformedErrorReply)
  {
    match call
    case Raised(message) => Failed(CallRaised(message))
    case Returned(reply) =>
      match Classify(reply)
      case Succeeded => HostCreated
      case Reported(message, data) => ApiError(message, data)
      case Unreadable => Failed(MalformedErrorReply)
  }

  /** The whole handling of one row, given the requests already sent. */
  function ProcessRow(row: Row, sent: seq<CreateHostRequest>, api: Api): (st: Step)
    ensures st.outcome.Skipped? <==> Validate(row).Failure?
    ensures st.outcome.Skipped? ==> st.outcome.reason == Validate(row).error
    ensures st.request.Some? <==> Validate(row).Success? && BuildRequest(Validate(row).value).Success?
    ensures st.request.Some? ==> st.request.value == BuildRequest(Validate(row).value).value
    ensures st.request.Some? ==> st.outcome == CallOutcome(api(sent, st.request.value))
    ensures st.request == RequestFor(row)
    ensures Validate(row).Success? && st.request.None? ==>
              st.outcome == Failed(BadInterfaceType(row[5]))
  {
    match Validate(row)
    case Failure(reason) => Step(Skipped(reason), None)
    case Success(rec) =>
      match BuildRequest(rec)
      case Failure(fault) => Step(Failed(fault), None)
      case Success(req) => Step(CallOutcome(api(sent, req)), Some(req))
  }

  /** Whether a row passes both validation checks. */
  predicate Passes(row: Row) {
    Validate(row).Success?
  }

  /** The number of rows that pass both validation checks. */
  function CountPassing(rows: seq<Row>): (n: nat)
    ensures n <= |rows|
  {
    if rows == [] then 0
    else CountPassing(rows[..|rows| - 1]) + (if Passes(rows[|rows| - 1]) then 1 else 0)
  }

  /** The number of outcomes that are not skips. */
  function CountNotSkipped(outcomes: seq<RowOutcome>): (n: nat)
    ensures n <= |outcomes|
  {
    if outcomes == [] then 0
    else CountNotSkipped(outcomes[..|outcomes| - 1]) + (if outcomes[|outcomes| - 1].Skipped? then 0 else 1)
  }

  /** The request a row leads to, independently of the server; `ProcessRow` sends exactly this one. */
  function RequestFor(row: Row): Option<CreateHostRequest> {
    match Validate(row)
    case Failure(_) => None
    case Success(rec) =>
      match BuildRequest(rec)
      case Failure(_) => None
      case Success(req) => Some(req)
  }

  /** The requests the rows lead to, in row order. */
  function RequestsOf(rows: seq<Row>): (reqs: seq<CreateHostRequest>)
    ensures |reqs| <= CountPassing(rows)
  {
    if rows == [] then []
    else
      var last := RequestFor(rows[|rows| - 1]);
      RequestsOf(rows[..|rows| - 1]) + (if last.Some? then [last.value] else [])
  }

  /** The state of the loop after some rows: one outcome per row, the requests sent, and `i`. */
  datatype Trace = Trace(outcomes: seq<RowOutcome>, sent: seq<CreateHostRequest>, counter: nat)

  /** The loop as a left fold over the rows. */
  function Run(rows: seq<Row>, api: Api): (t: Trace)
    ensures |t.outcomes| == |rows|
    ensures t.counter == CountPassing(rows)
  {
    if rows == [] then Trace([], [], 0)
    else
      var before := Run(rows[..|rows| - 1], api);
      var st := ProcessRow(rows[|rows| - 1], before.sent, api);
      Trace(before.outcomes + [st.outcome],
            before.sent + (if st.request.Some? then [st.request.value] else []),
            if st.outcome.Skipped? then before.counter else before.counter + 1)
  }

  /**
   * The rows of the hosts file in order, as the script's loop visits them.
   * Each row is validated; a row that fails a check is skipped and does not
   * move the counter (`continue` jumps past `i += 1`); any other row builds
   * and sends its request (unless `int(inttype)` fails), has its reply
   * classified, and moves the counter by one whatever happened.
   */
  method ProvisionHosts(rows: seq<Row>, api: Api)
    returns (outcomes: seq<RowOutcome>, sent: seq<CreateHostRequest>, i: nat)
    ensures Trace(outcomes, sent, i) == Run(rows, api)
    ensures |outcomes| == |rows|
    ensures i == CountPassing(rows)
  {
    outcomes, sent, i := [], [], 0;
    for k := 0 to |rows|
      invariant Trace(outcomes, sent, i) == Run(rows[..k], api)
    {
      var row := rows[k];
      RunExtend(rows, api, k);
      var checked := Validate(row);
      if checked.Failure? {
        outcomes := outcomes + [Skipped(checked.error)];
        continue;
      }
      var rec := checked.value;
      var outcome: RowOutcome;
      match BuildRequest(rec) {
        case Failure(fault) =>
          outcome := Failed(fault);
        case Success(req) =>
          var call := api(sent, req);
          sent := sent + [req];
          outcome := CallOutcome(call);
      }
      outcomes := outcomes + [outcome];
      i := i + 1;
    }
    assert rows[..|rows|] == rows;
  }

  /** One more row extends the fold by that row's step. */
  lemma RunExtend(rows: seq<Row>, api: Api, k: nat)
    requires k < |rows|
    ensures
      var before := Run(rows[..k], api);
      var st := ProcessRow(rows[k], before.sent, api);
      Run(rows[..k + 1], api) == Trace(
        before.outcomes + [st.outcome],
        before.sent + (if st.request.Some? then [st.request.value] else []),
        if st.outcome.Skipped? then before.counter else before.counter + 1)
  {
    assert rows[..k + 1][..k] == rows[..k];
  }

  /** The requests sent are exactly those of the rows that pass and parse, in row order, whatever the server answers. */
  lemma {:induction false} RunSent(rows: seq<Row>, api: Api)
    ensures Run(rows, api).sent == RequestsOf(rows)
    decreases |rows|
  {
    if rows != [] {
      RunSent(rows[..|rows| - 1], api);
    }
  }

  /** The counter counts exactly the rows whose outcome is not a skip. */
  lemma {:induction false} CounterCountsNotSkipped(rows: seq<Row>, api: Api)
    ensures Run(rows, api).counter == CountNotSkipped(Run(rows, api).outcomes)
    decreases |rows|
  {
    if rows != [] {
      var t := Run(rows, api);
      CounterCountsNotSkipped(rows[..|rows| - 1], api);
      assert t.outcomes[..|t.outcomes| - 1] == Run(rows[..|rows| - 1], api).outcomes;
    }
  }

  /** Running a prefix of the rows gives a prefix of the outcomes. */
  lemma {:induction false} RunPrefix(rows: seq<Row>, api: Api, k: nat)
    requires k <= |rows|
    ensures Run(rows[..k], api).outcomes == Run(rows, api).outcomes[..k]
    decreases |rows|
  {
    if k < |rows| {
      var shorter := rows[..|rows| - 1];
      assert shorter[..k] == rows[..k];
      RunPrefix(shorter, api, k);
    } else {
      assert rows[..k] == rows;
    }
  }

  /**
   * Rows are processed in order and none is kept from running by the rows
   * before it: the outcome of row `k` is what the row itself does, given
   * only the requests the earlier rows sent.
   */
  lemma OutcomeOfRow(rows: seq<Row>, api: Api, k: nat)
    requires k < |rows|
    ensures Run(rows, api).outcomes[k] == ProcessRow(rows[k], RequestsOf(rows[..k]), api).outcome
  {
    var upTo := rows[..k + 1];
    RunPrefix(rows, api, k + 1);
    assert upTo[..|upTo| - 1] == rows[..k] && upTo[|upTo| - 1] == rows[k];
    var before := Run(rows[..k], api);
    assert Run(upTo, api).outcomes == before.outcomes + [ProcessRow(rows[k], before.sent, api).outcome];
    assert Run(rows, api).outcomes[k] == Run(upTo, api).outcomes[k];
    RunSent(rows[..k], api);
  }

  /** A row is skipped, with that reason, exactly when it fails a check, whatever the other rows and the server do. */
  lemma SkippedExactlyWhenInvalid(rows: seq<Row>, api: Api, k: nat)
    requires k < |rows|
    ensures Run(rows, api).outcomes[k] == Skipped(WrongFieldCount) <==> |rows[k]| != FieldCount
    ensures Run(rows, api).outcomes[k] == Skipped(MissingRequiredField) <==>
              |rows[k]| == FieldCount &&
              (rows[k][0] == "" || rows[k][1] == "" || rows[k][3] == "" || rows[k][4] == "")
  {
    OutcomeOfRow(rows, api, k);
  }

  /** The hosts file of three rows: a good one, one of six fields, one without an ip. */
  lemma ThreeRowScenario(api: Api)
    ensures
      var rows := [["h1", "10.0.0.5", "h1.example.com", "5", "10001", "1", "10050"],
                   ["h2", "10.0.0.6", "", "5", "10001", "1"],
                   ["h3", "", "", "5", "10001", "1", "10050"]];
      var t := Run(rows, api);
      && |t.sent| == 1 && t.sent[0].host == "h1"
      && !t.outcomes[0].Skipped?
      && t.outcomes[1] == Skipped(WrongFieldCount)
      && t.outcomes[2] == Skipped(MissingRequiredField)
      && t.counter == 1
  {
    var rows := [["h1", "10.0.0.5", "h1.example.com", "5", "10001", "1", "10050"],
                 ["h2", "10.0.0.6", "", "5", "10001", "1"],
                 ["h3", "", "", "5", "10001", "1", "10050"]];
    assert rows[..2][..1] == rows[..1];
    assert rows[..2] == rows[..|rows| - 1];
    assert rows[..1] == rows[..2][..|rows[..2]| - 1];
    assert rows[..1][..0] == [];
    var rec := HostRecord("h1", "10.0.0.5", "h1.example.com", "5", "10001", "1", "10050");
    assert Validate(rows[0]) == Success(rec);
    assert IntLiteral.DigitsValue("1") == 1 by { assert "1"[..0] == ""; }
    assert BuildRequest(rec).Success?;
    assert Run(rows[..1], api).sent == [BuildRequest(rec).value];
  }
}
