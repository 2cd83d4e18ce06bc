/**
 * The Contracts Data API client: which request each operation sends, and how
 * a failed send becomes one of the client's typed exceptions.
 *
 * Translation happens in two stages. The base API client hands every
 * transport failure (an ApiGeneralException carrying the HTTP status) to the
 * service's FailureAction, which turns 400 and 404 into BadRequest and
 * NotFound and rethrows anything else. Create, ManualApprove, ConfirmApproval
 * and Withdraw then catch what is still an ApiGeneralException and give 412
 * and 409 their endpoint-specific meaning. Exceptions that are not an
 * ApiGeneralException (an open circuit breaker, a network failure) are caught
 * by neither stage and reach the caller unchanged.
 */
module ContractsDataService {
  import opened Text
  import Policies = PolicyBuilderExtension
  import Pipeline = HttpClientBuilderExtension

  // HTTP status codes the client gives a meaning to.
  const StatusBadRequest: int := 400
  const StatusNotFound: int := 404
  const StatusConflict: int := 409
  const StatusPreconditionFailed: int := 412

  /** The base client's transport failure: a non-success response. */
  datatype ApiGeneralException = ApiGeneralException(responseStatusCode: int)

  /** What an operation can throw; one constructor per exception class. */
  datatype ClientException =
    | ApiGeneral(ex: ApiGeneralException)
    | ContractBadRequest(message: string, inner: ApiGeneralException)
    | ContractNotFound(message: string, inner: ApiGeneralException)
    | ContractStatus(message: string, inner: ApiGeneralException)
    | ContractUpdateConcurrency(message: string, contractNumber: string, contractVersion: int, inner: ApiGeneralException)
    | DuplicateContract(message: string, inner: ApiGeneralException)
    | ContractWithHigherVersionAlreadyExists(message: string, inner: ApiGeneralException)

  /** The transport failure an exception wraps (or is). */
  function Inner(e: ClientException): ApiGeneralException {
    if e.ApiGeneral? then e.ex else e.inner
  }

  /** Exceptions from below the base client that no catch block of the client handles. */
  datatype Abort = BrokenCircuitException | HttpRequestException

  /** What an operation gives its caller: a value, a client exception, or an unhandled exception. */
  datatype Result<T> = Ok(value: T) | Err(error: ClientException) | Thrown(cause: Abort)

  /** What the base client's send produced: the decoded body, a failure status, or an exception from the pipeline. */
  datatype Transport<T> = Delivered(body: T) | Failed(ex: ApiGeneralException) | Aborted(cause: Abort)

  // ---------------------------------------------------------------------------
  // Data transfer shapes (only the properties the client reads or sends)

  datatype Contract = Contract(id: int, contractNumber: string, contractVersion: int)

  datatype ContractIdentifier = ContractIdentifier(id: int, contractNumber: string, contractVersion: int)

  /** A reminder row; `otherProperties` stands for the rest of the row's data. */
  datatype ContractReminderItem =
    ContractReminderItem(id: int, contractNumber: string, contractVersion: int, otherProperties: map<string, string>)

  /** A new contract; `otherProperties` stands for the rest of its payload. */
  datatype CreateRequest = CreateRequest(contractNumber: string, contractVersion: int, otherProperties: map<string, string>)

  datatype ApprovalRequest = ApprovalRequest(id: int, contractNumber: string, contractVersion: int, fileName: string)

  datatype WithdrawalRequest =
    WithdrawalRequest(id: int, contractNumber: string, contractVersion: int, fileName: string, withdrawalType: int)

  datatype ContractSortOptions = LastUpdatedAt

  datatype SortDirection = Asc | Desc

  type UInt32 = x: int | 0 <= x < 0x1_0000_0000

  datatype ReminderQuery =
    ReminderQuery(reminderInterval: UInt32, page: UInt32, count: UInt32, sort: ContractSortOptions, order: SortDirection)

  /** The arguments GetContractRemindersAsync takes when the caller gives none. */
  const DefaultReminderQuery: ReminderQuery := ReminderQuery(14, 1, 10, LastUpdatedAt, Asc)

  /** How an enum value renders inside an interpolated string: its member name. */
  function SortName(s: ContractSortOptions): string {
    match s
    case LastUpdatedAt => "LastUpdatedAt"
  }

  function DirectionName(d: SortDirection): string {
    match d
    case Asc => "Asc"
    case Desc => "Desc"
  }

  /** The client's public operations, with their arguments. */
  datatype Operation =
    | GetContractById(id: int)
    | GetContract(contractNumber: string, version: int)
    | GetContractReminders(query: ReminderQuery)
    | UpdateContractReminder(item: ContractReminderItem)
    | CreateContract(create: CreateRequest)
    | ManualApprove(approval: ApprovalRequest)
    | ConfirmApproval(confirmation: ApprovalRequest)
    | Withdraw(withdrawal: WithdrawalRequest)

  // ---------------------------------------------------------------------------
  // Requests

  datatype Verb = Get | Post | Patch

  datatype Body =
    | NoBody
    | IdentifierBody(identifier: ContractIdentifier)
    | CreateBody(create: CreateRequest)
    | ApprovalBody(approval: ApprovalRequest)
    | WithdrawalBody(withdrawal: WithdrawalRequest)

  datatype Request = Request(verb: Verb, target: string, body: Body)

  const ContractByIdPrefix: string := "/api/contract/"

  /** The identifier UpdateContractReminderAsync sends for a reminder item. */
  function IdentifierOf(item: ContractReminderItem): ContractIdentifier {
    ContractIdentifier(item.id, item.contractNumber, item.contractVersion)
  }

  /** The request each operation hands to the base client. */
  function RequestFor(op: Operation): Request {
    match op
    case GetContractById(id) =>
      Request(Get, ContractByIdPrefix + IntToDecimal(id), NoBody)
    case GetContract(n, v) =>
      Request(Get, "/api/contract?contractNumber=" + n + "&versionNumber=" + IntToDecimal(v), NoBody)
    case GetContractReminders(q) =>
      Request(Get, "/api/contractReminders?reminderInterval=" + NatToDecimal(q.reminderInterval)
                   + "&page=" + NatToDecimal(q.page) + "&count=" + NatToDecimal(q.count)
                   + "&sort=" + SortName(q.sort) + "&order=" + DirectionName(q.order), NoBody)
    case UpdateContractReminder(item) =>
      Request(Patch, "/api/contractReminder", IdentifierBody(IdentifierOf(item)))
    case CreateContract(c) =>
      Request(Post, "/api/contract", CreateBody(c))
    case ManualApprove(a) =>
      Request(Patch, "/api/contract/manualApprove", ApprovalBody(a))
    case ConfirmApproval(a) =>
      Request(Patch, "/api/contract/confirmApproval", ApprovalBody(a))
    case Withdraw(w) =>
      Request(Patch, "/api/contract/withdraw", WithdrawalBody(w))
  }

  lemma ContractByIdTarget(id: int)
    ensures var t := RequestFor(GetContractById(id)).target;
      SplitTarget(t) == (t, [])
      && t[..|ContractByIdPrefix|] == ContractByIdPrefix
      && ParseInt(t[|ContractByIdPrefix|..]) == Some(id)
  {
    var t := RequestFor(GetContractById(id)).target;
    var digits := IntToDecimal(id);
    DecimalHasNoDelimiters(id);
    assert '?' !in ContractByIdPrefix;
    assert t[..|ContractByIdPrefix|] == ContractByIdPrefix;
    assert t[|ContractByIdPrefix|..] == digits;
    IntRoundTrip(id);
  }

  lemma ContractByNumberText(contractNumber: string, version: int)
    ensures RequestFor(GetContract(contractNumber, version)).target
         == "/api/contract" + "?" + QueryString([Parameter("contractNumber", contractNumber), Parameter("versionNumber", IntToDecimal(version))])
  {
    var v := IntToDecimal(version);
    var p1, p2 := Parameter("contractNumber", contractNumber), Parameter("versionNumber", v);
    assert "/api/contract?" == "/api/contract" + "?";
    StartQuery("/api/contract?contractNumber=", "/api/contract?", "contractNumber", contractNumber);
    AppendParameter("/api/contract?", [p1], "&versionNumber=", "versionNumber", v);
    assert [p1] + [p2] == [p1, p2];
  }

  lemma ContractByNumberTarget(contractNumber: string, version: int)
    requires '&' !in contractNumber
    ensures SplitTarget(RequestFor(GetContract(contractNumber, version)).target)
         == ("/api/contract", [Parameter("contractNumber", contractNumber), Parameter("versionNumber", IntToDecimal(version))])
  {
    ContractByNumberText(contractNumber, version);
    DecimalHasNoDelimiters(version);
    TargetRoundTrip("/api/contract", [Parameter("contractNumber", contractNumber), Parameter("versionNumber", IntToDecimal(version))]);
  }

  /**
   * The number is interpolated as it stands, so a `&` inside it reads back
   * as a parameter boundary: `head&tail` yields three parameters, not two.
   */
  lemma AmpersandInNumberSplitsQuery(head: string, tail: string, version: int)
    requires '&' !in head && '&' !in tail && '=' !in tail
    ensures SplitTarget(RequestFor(GetContract(head + "&" + tail, version)).target)
         == ("/api/contract",
             [Parameter("contractNumber", head), Parameter(tail, ""), Parameter("versionNumber", IntToDecimal(version))])
  {
    var p1 := Parameter("contractNumber", head + "&" + tail);
    var p2 := Parameter("versionNumber", IntToDecimal(version));
    ContractByNumberText(head + "&" + tail, version);
    DecimalHasNoDelimiters(version);
    AmpersandInValue(p1, head, tail, p2);
    SplitTargetAtPath("/api/contract", QueryString([p1, p2]));
  }

  /** The five reminder parameters, in the order the request names them. */
  function ReminderParameters(q: ReminderQuery): seq<Parameter> {
    [ Parameter("reminderInterval", NatToDecimal(q.reminderInterval)),
      Parameter("page", NatToDecimal(q.page)),
      Parameter("count", NatToDecimal(q.count)),
      Parameter("sort", SortName(q.sort)),
      Parameter("order", DirectionName(q.order)) ]
  }

  lemma RemindersText(q: ReminderQuery)
    ensures RequestFor(GetContractReminders(q)).target
         == "/api/contractReminders" + "?" + QueryString(ReminderParameters(q))
  {
    var pre := "/api/contractReminders?";
    var ps := ReminderParameters(q);
    var p1, p2, p3, p4, p5 := ps[0], ps[1], ps[2], ps[3], ps[4];
    assert pre == "/api/contractReminders" + "?";
    StartQuery("/api/contractReminders?reminderInterval=", pre, "reminderInterval", p1.value);
    AppendParameter(pre, [p1], "&page=", "page", p2.value);
    assert [p1] + [p2] == [p1, p2];
    AppendParameter(pre, [p1, p2], "&count=", "count", p3.value);
    assert [p1, p2] + [p3] == [p1, p2, p3];
    AppendParameter(pre, [p1, p2, p3], "&sort=", "sort", p4.value);
    assert [p1, p2, p3] + [p4] == [p1, p2, p3, p4];
    AppendParameter(pre, [p1, p2, p3, p4], "&order=", "order", p5.value);
    assert [p1, p2, p3, p4] + [p5] == ps;
  }

  lemma ReminderParametersPlain(q: ReminderQuery)
    ensures forall i :: 0 <= i < 5 ==> Plain(ReminderParameters(q)[i])
  {
    var ps := ReminderParameters(q);
    assert Plain(ps[0]) by { DecimalHasNoDelimiters(q.reminderInterval); }
    assert Plain(ps[1]) by { DecimalHasNoDelimiters(q.page); }
    assert Plain(ps[2]) by { DecimalHasNoDelimiters(q.count); }
    assert Plain(ps[3]) && Plain(ps[4]);
  }

  lemma RemindersTarget(q: ReminderQuery)
    ensures SplitTarget(RequestFor(GetContractReminders(q)).target) == ("/api/contractReminders", ReminderParameters(q))
  {
    RemindersText(q);
    ReminderParametersPlain(q);
    TargetRoundTrip("/api/contractReminders", ReminderParameters(q));
  }

  lemma DefaultRemindersTarget()
    ensures SplitTarget(RequestFor(GetContractReminders(DefaultReminderQuery)).target)
         == ("/api/contractReminders",
             [ Parameter("reminderInterval", "14"), Parameter("page", "1"), Parameter("count", "10"),
               Parameter("sort", "LastUpdatedAt"), Parameter("order", "Asc") ])
  {
    RemindersTarget(DefaultReminderQuery);
    assert NatToDecimal(14) == "14";
    assert NatToDecimal(10) == "10";
  }

  lemma ReminderIdentifier(item: ContractReminderItem, other: ContractReminderItem)
    ensures var r := RequestFor(UpdateContractReminder(item));
      r.verb == Patch && r.body.IdentifierBody?
      && r.body.identifier.id == item.id
      && r.body.identifier.contractNumber == item.contractNumber
      && r.body.identifier.contractVersion == item.contractVersion
    ensures item.id == other.id && item.contractNumber == other.contractNumber
            && item.contractVersion == other.contractVersion
        <==> RequestFor(UpdateContractReminder(item)) == RequestFor(UpdateContractReminder(other))
  {
  }

  // ---------------------------------------------------------------------------
  // Exception messages

  const BadRequestMessage: string := "Input validation failed, check log for details."
  const NotFoundMessage: string := "A contract cannot be found with the given details."
  const StatusMessage: string := "Contract not in correct status for manual approval."

  const ConcurrencyPrefix: string := "Contract may have been modified or deleted since Contract were loaded - Contract Number: "
  const DuplicatePrefix: string := "A contract with ContractNumber ["
  const DuplicateMiddle: string := "] and ContractVersion ["
  const DuplicateSuffix: string := "] already exists."
  const HigherVersionMiddle: string := "] and with a higher ContractVersion ["
  const HigherVersionSuffix: string :=
    "] already exists. We don't accept contracts with a lower version than one that already exists."

  function ConcurrencyMessage(contractNumber: string, contractVersion: int): string {
    ConcurrencyPrefix + contractNumber + ", ContractVersion: " + IntToDecimal(contractVersion) + "."
  }

  function DuplicateMessage(contractNumber: string, contractVersion: int): string {
    DuplicatePrefix + contractNumber + DuplicateMiddle + IntToDecimal(contractVersion) + DuplicateSuffix
  }

  function HigherVersionMessage(contractNumber: string, contractVersion: int): string {
    DuplicatePrefix + contractNumber + HigherVersionMiddle + IntToDecimal(contractVersion) + HigherVersionSuffix
  }

  /** Number and version survive in the message text at fixed offsets. */
  lemma DuplicateMessageCarries(contractNumber: string, contractVersion: int)
    ensures var m := DuplicateMessage(contractNumber, contractVersion);
      var start := |DuplicatePrefix| + |contractNumber| + |DuplicateMiddle|;
      |m| >= start + |DuplicateSuffix|
      && m[|DuplicatePrefix|..|DuplicatePrefix| + |contractNumber|] == contractNumber
      && ParseInt(m[start..|m| - |DuplicateSuffix|]) == Some(contractVersion)
  {
    var m := DuplicateMessage(contractNumber, contractVersion);
    var v := IntToDecimal(contractVersion);
    var start := |DuplicatePrefix| + |contractNumber| + |DuplicateMiddle|;
    assert m[|DuplicatePrefix|..|DuplicatePrefix| + |contractNumber|] == contractNumber;
    assert m[start..|m| - |DuplicateSuffix|] == v;
    IntRoundTrip(contractVersion);
  }

  lemma HigherVersionMessageCarries(contractNumber: string, contractVersion: int)
    ensures var m := HigherVersionMessage(contractNumber, contractVersion);
      var start := |DuplicatePrefix| + |contractNumber| + |HigherVersionMiddle|;
      |m| >= start + |HigherVersionSuffix|
      && m[|DuplicatePrefix|..|DuplicatePrefix| + |contractNumber|] == contractNumber
      && ParseInt(m[start..|m| - |HigherVersionSuffix|]) == Some(contractVersion)
  {
    var m := HigherVersionMessage(contractNumber, contractVersion);
    var v := IntToDecimal(contractVersion);
    var start := |DuplicatePrefix| + |contractNumber| + |HigherVersionMiddle|;
    assert m[|DuplicatePrefix|..|DuplicatePrefix| + |contractNumber|] == contractNumber;
    assert m[start..|m| - |HigherVersionSuffix|] == v;
    IntRoundTrip(contractVersion);
  }

  // ---------------------------------------------------------------------------
  // Failure translation

  /** First stage: every transport failure of every operation passes through here. */
  function FailureAction(ex: ApiGeneralException): (r: ClientException)
    ensures Inner(r) == ex
    ensures r.ContractBadRequest? <==> ex.responseStatusCode == StatusBadRequest
    ensures r.ContractNotFound? <==> ex.responseStatusCode == StatusNotFound
    ensures r.ApiGeneral? <==> ex.responseStatusCode !in {StatusBadRequest, StatusNotFound}
  {
    if ex.responseStatusCode == StatusBadRequest then ContractBadRequest(BadRequestMessage, ex)
    else if ex.responseStatusCode == StatusNotFound then ContractNotFound(NotFoundMessage, ex)
    else ApiGeneral(ex)
  }

  /** The base client: a delivered body is returned, a failure goes to FailureAction. */
  function Send<T>(t: Transport<T>): Result<T> {
    match t
    case Delivered(b) => Ok(b)
    case Failed(ex) => Err(FailureAction(ex))
    case Aborted(cause) => Thrown(cause)
  }

  /** Second stage of CreateContractAsync: only a still-generic failure is re-read. */
  function CreateContractCatch(create: CreateRequest, e: ClientException): (r: ClientException)
    ensures !e.ApiGeneral? ==> r == e
    ensures Inner(r) == Inner(e)
  {
    match e
    case ApiGeneral(ex) =>
      if ex.responseStatusCode == StatusPreconditionFailed then
        ContractWithHigherVersionAlreadyExists(HigherVersionMessage(create.contractNumber, create.contractVersion), ex)
      else if ex.responseStatusCode == StatusConflict then
        DuplicateContract(DuplicateMessage(create.contractNumber, create.contractVersion), ex)
      else e
    case _ => e
  }

  /** Second stage shared by ManualApprove, ConfirmApproval and Withdraw. */
  function StatusChangeCatch(contractNumber: string, contractVersion: int, e: ClientException): (r: ClientException)
    ensures !e.ApiGeneral? ==> r == e
    ensures Inner(r) == Inner(e)
  {
    match e
    case ApiGeneral(ex) =>
      if ex.responseStatusCode == StatusPreconditionFailed then ContractStatus(StatusMessage, ex)
      else if ex.responseStatusCode == StatusConflict then
        ContractUpdateConcurrency(ConcurrencyMessage(contractNumber, contractVersion), contractNumber, contractVersion, ex)
      else e
    case _ => e
  }

  /** The catch block (if any) around each operation's send. */
  function SecondStage(op: Operation, e: ClientException): ClientException {
    match op
    case CreateContract(c) => CreateContractCatch(c, e)
    case ManualApprove(a) => StatusChangeCatch(a.contractNumber, a.contractVersion, e)
    case ConfirmApproval(a) => StatusChangeCatch(a.contractNumber, a.contractVersion, e)
    case Withdraw(w) => StatusChangeCatch(w.contractNumber, w.contractVersion, e)
    case _ => e
  }

  /** One call of an operation whose send produced `t`. */
  function Invoke<T>(op: Operation, t: Transport<T>): (r: Result<T>)
    ensures t.Delivered? <==> r.Ok?
    ensures t.Delivered? ==> r.value == t.body
    ensures t.Failed? <==> r.Err?
    ensures t.Failed? ==> Inner(r.error) == t.ex
    ensures t.Aborted? ==> r == Thrown(t.cause)
  {
    match Send(t)
    case Ok(b) => Ok(b)
    case Err(e) => Err(SecondStage(op, e))
    case Thrown(cause) => Thrown(cause)
  }

  /** GetContractAsync, with a NotFound turned into an absent contract. */
  function TryGetContract(contractNumber: string, version: int, t: Transport<Contract>): (r: Result<Option<Contract>>)
    ensures var g := Invoke(GetContract(contractNumber, version), t);
      && (r == Ok(None) <==> g.Err? && g.error.ContractNotFound?)
      && (g.Ok? <==> r.Ok? && r.value.Some?)
      && (g.Ok? ==> r.value.value == g.value)
      && (r.Err? <==> g.Err? && !g.error.ContractNotFound?)
      && (r.Err? ==> r.error == g.error)
      && (r.Thrown? <==> g.Thrown?)
      && (r.Thrown? ==> r.cause == g.cause)
  {
    match Invoke(GetContract(contractNumber, version), t)
    case Ok(c) => Ok(Some(c))
    case Err(e) => if e.ContractNotFound? then Ok(None) else Err(e)
    case Thrown(cause) => Thrown(cause)
  }

  // ---------------------------------------------------------------------------
  // The translation table, stated per (operation, status)

  datatype ExceptionKind =
    | GeneralKind | BadRequestKind | NotFoundKind | StatusKind
    | ConcurrencyKind | DuplicateKind | HigherVersionKind

  function KindOf(e: ClientException): ExceptionKind {
    match e
    case ApiGeneral(_) => GeneralKind
    case ContractBadRequest(_, _) => BadRequestKind
    case ContractNotFound(_, _) => NotFoundKind
    case ContractStatus(_, _) => StatusKind
    case ContractUpdateConcurrency(_, _, _, _) => ConcurrencyKind
    case DuplicateContract(_, _) => DuplicateKind
    case ContractWithHigherVersionAlreadyExists(_, _) => HigherVersionKind
  }

  /** Which exception each operation raises for each failure status. */
  function ExpectedKind(op: Operation, status: int): ExceptionKind {
    if status == 400 then BadRequestKind
    else if status == 404 then NotFoundKind
    else if op.CreateContract? && status == 412 then HigherVersionKind
    else if op.CreateContract? && status == 409 then DuplicateKind
    else if (op.ManualApprove? || op.ConfirmApproval? || op.Withdraw?) && status == 412 then StatusKind
    else if (op.ManualApprove? || op.ConfirmApproval? || op.Withdraw?) && status == 409 then ConcurrencyKind
    else GeneralKind
  }

  lemma TranslationTable<T>(op: Operation, ex: ApiGeneralException)
    ensures var r := Invoke<T>(op, Failed(ex));
      r.Err? && KindOf(r.error) == ExpectedKind(op, ex.responseStatusCode) && Inner(r.error) == ex
  {
  }

  /** 400 and 404 are translated before any catch block sees them. */
  lemma FirstStageWins<T>(op: Operation, ex: ApiGeneralException)
    requires ex.responseStatusCode in {StatusBadRequest, StatusNotFound}
    ensures Invoke<T>(op, Failed(ex)) == Err(FailureAction(ex))
  {
  }

  /** Create names the request's number and version in its two message texts. */
  lemma CreateConflicts(create: CreateRequest, ex: ApiGeneralException)
    ensures ex.responseStatusCode == StatusPreconditionFailed ==>
      Invoke<()>(CreateContract(create), Failed(ex))
        == Err(ContractWithHigherVersionAlreadyExists(HigherVersionMessage(create.contractNumber, create.contractVersion), ex))
    ensures ex.responseStatusCode == StatusConflict ==>
      Invoke<()>(CreateContract(create), Failed(ex))
        == Err(DuplicateContract(DuplicateMessage(create.contractNumber, create.contractVersion), ex))
    ensures ex.responseStatusCode !in {StatusBadRequest, StatusNotFound, StatusPreconditionFailed, StatusConflict} ==>
      Invoke<()>(CreateContract(create), Failed(ex)) == Err(ApiGeneral(ex))
  {
  }

  /** The status-changing operations keep number and version as exception fields. */
  lemma StatusChangeConflicts(op: Operation, ex: ApiGeneralException)
    requires op.ManualApprove? || op.ConfirmApproval? || op.Withdraw?
    ensures var (n, v) := if op.Withdraw? then (op.withdrawal.contractNumber, op.withdrawal.contractVersion)
                          else if op.ManualApprove? then (op.approval.contractNumber, op.approval.contractVersion)
                          else (op.confirmation.contractNumber, op.confirmation.contractVersion);
      var r := Invoke<()>(op, Failed(ex));
      && (ex.responseStatusCode == StatusPreconditionFailed ==> r == Err(ContractStatus(StatusMessage, ex)))
      && (ex.responseStatusCode == StatusConflict ==>
            r.Err? && r.error.ContractUpdateConcurrency?
            && r.error.contractNumber == n && r.error.contractVersion == v && r.error.inner == ex)
      && (ex.responseStatusCode !in {StatusBadRequest, StatusNotFound, StatusPreconditionFailed, StatusConflict} ==>
            r == Err(ApiGeneral(ex)))
  {
  }

  /** The try-get variant: absent on 404, the contract on success, every other failure passed on. */
  lemma TryGetScenarios(contractNumber: string, version: int, c: Contract, status: int)
    ensures TryGetContract(contractNumber, version, Delivered(c)) == Ok(Some(c))
    ensures status == StatusNotFound ==>
      TryGetContract(contractNumber, version, Failed(ApiGeneralException(status))) == Ok(None)
      && Invoke<Contract>(GetContract(contractNumber, version), Failed(ApiGeneralException(status))).Err?
    ensures status == StatusBadRequest ==>
      TryGetContract(contractNumber, version, Failed(ApiGeneralException(status)))
        == Err(ContractBadRequest(BadRequestMessage, ApiGeneralException(status)))
  {
  }

  // ---------------------------------------------------------------------------
  // The operations on top of the resilience pipeline

  /** A 2xx status is a success. */
  predicate IsSuccessStatus(status: int) {
    200 <= status <= 299
  }

  /**
   * How the outcome of one pipeline call reaches the base client: a success
   * status delivers the body, any other status becomes an
   * ApiGeneralException, and the breaker's rejection or a network failure
   * surfaces as the exception itself.
   */
  function FromPipeline<T>(r: Pipeline.CallResult, body: T): (t: Transport<T>)
    ensures r.BrokenCircuit? <==> t == Aborted(BrokenCircuitException)
    ensures r == Pipeline.Delivered(Pipeline.HttpRequestError) <==> t == Aborted(HttpRequestException)
    ensures t.Failed? <==> r.Delivered? && r.reply.Response? && !IsSuccessStatus(r.reply.statusCode)
    ensures t.Failed? ==> t.ex.responseStatusCode == r.reply.statusCode
  {
    match r
    case BrokenCircuit => Aborted(BrokenCircuitException)
    case Delivered(Response(status)) => if IsSuccessStatus(status) then Delivered(body) else Failed(ApiGeneralException(status))
    case Delivered(HttpRequestError) => Aborted(HttpRequestException)
  }

  /** An exception from the pipeline passes through every operation, try-get included, unchanged. */
  lemma AbortsPassThrough<T>(op: Operation, cause: Abort, contractNumber: string, version: int)
    ensures Invoke<T>(op, Aborted(cause)) == Thrown(cause)
    ensures TryGetContract(contractNumber, version, Aborted(cause)) == Thrown(cause)
  {
  }

  /**
   * While the breaker is open, every operation, try-get included, fails with
   * the breaker's own exception and nothing is sent.
   */
  lemma OpenBreakerReachesCaller<T>(op: Operation, contractNumber: string, version: int,
                                    retriesLeft: nat, tolerance: nat, st: Policies.BreakerState, sends: nat,
                                    transport: nat -> Pipeline.Reply, body: T, contract: Contract)
    requires st.isOpen
    ensures var run := Pipeline.RetryOverBreaker(retriesLeft, tolerance, st, sends, transport);
      && run.sends == sends
      && Invoke(op, FromPipeline(run.result, body)) == Thrown(BrokenCircuitException)
      && TryGetContract(contractNumber, version, FromPipeline(run.result, contract)) == Thrown(BrokenCircuitException)
  {
    Pipeline.RetryOverBreakerBounds(retriesLeft, tolerance, st, sends, transport);
  }
}
