/** gateway.py: typed tool commands, each accepted at most once per approval. */
module ToolGateway {
  import opened Common
  import opened Domain
  import opened ControlPlane
  import opened Execution
  import Outbox

  datatype Tool = PublishOffer | UpdateStock | UpdatePrice | CreatePurchaseOrder | ClaimAction | DispatchShipment
                | Reconcile | PauseScope | ResumeScope

  datatype TargetType = OfferTarget | OrderTarget | SupplierTarget | ChannelTarget | TenantTarget | ProductTarget | ShipmentTarget

  function TypeName(t: TargetType): string {
    match t
    case OfferTarget => "offer"
    case OrderTarget => "order"
    case SupplierTarget => "supplier"
    case ChannelTarget => "channel"
    case TenantTarget => "tenant"
    case ProductTarget => "product"
    case ShipmentTarget => "shipment"
  }

  predicate Mutating(t: Tool) { t != Reconcile }

  function ApprovalKinds(t: Tool): set<ApprovalKind> {
    match t
    case PublishOffer => {Product}
    case UpdateStock => {Product}
    case UpdatePrice => {Product}
    case CreatePurchaseOrder => {Purchase}
    case DispatchShipment => {Purchase}
    case ClaimAction => {Refund}
    case PauseScope => {Pause}
    case ResumeScope => {Pause}
    case Reconcile => {}
  }

  datatype ToolState = Accepted | Blocked | ApprovalNeeded

  /** What the caller asked for. */
  datatype Request = Request(actor: string, tool: Tool, targetType: TargetType, targetId: string, input: Payload,
                             key: string, policyVersion: int, approval: Option<nat>)

  /** A stored command: `request.approval` is kept only when the approval was validated. */
  datatype ToolCommand = ToolCommand(request: Request, state: ToolState, approvalCommand: Option<nat>, digest: Option<Material>)

  /** The service database together with tool commands and their outbox events. */
  datatype Store = Store(repo: Repo, tools: seq<ToolCommand>, events: seq<Outbox.Event>)

  predicate UsedElsewhere(tools: seq<ToolCommand>, approval: nat, key: string) {
    exists i | 0 <= i < |tools| ::
      tools[i].request.approval == Some(approval) && tools[i].state == Accepted && tools[i].request.key != key
  }

  /** `_validated_tool_approval`; the value is the digest, or None when the preparation does not carry it. */
  function ValidateApproval(p: Plane, tools: seq<ToolCommand>, ctx: Context, q: Request, now: int): Tx<Plane, Option<Material>> {
    var known := q.approval.Some? && q.approval.value < |p.approvals|;
    :- Need(known, NotFound);
    var c := q.approval.value;
    :- Need(c < |p.commands|, NotFound);
    :- Need(c in p.intents && p.commands[c].kind in ApprovalKinds(q.tool)
            && p.commands[c].targetRef == TypeName(q.targetType) + ":" + q.targetId
            && p.commands[c].payload == q.input && p.intents[c].policyVersion == q.policyVersion, Conflict);
    :- Need(!UsedElsewhere(tools, c, q.key), Conflict);
    var (plane, prepared) :- PrepareExecution(p, ctx, c, q.policyVersion, p.intents[c].targetVersion, now);
    Commit(plane, if prepared.digest == p.intents[c].digest then Some(prepared.digest) else None)
  }

  function KeyRow(tools: seq<ToolCommand>, key: string, from: nat): (found: Option<nat>)
    requires from <= |tools|
    ensures found.Some? ==> from <= found.value < |tools| && tools[found.value].request.key == key
    ensures found.None? ==> forall i | from <= i < |tools| :: tools[i].request.key != key
    decreases |tools| - from
  {
    if from == |tools| then None else if tools[from].request.key == key then Some(from) else KeyRow(tools, key, from + 1)
  }

  /** The decision taken inside the transaction: the plane afterwards and the command to be saved. */
  function Judge(p: Plane, tools: seq<ToolCommand>, ctx: Context, q: Request, now: int): (Plane, ToolCommand) {
    var refused := q.(approval := None);
    if StopActive(p, if q.targetType == ChannelTarget then Some(q.targetId) else None) then
      (p, ToolCommand(refused, Blocked, None, None))
    else if !Mutating(q.tool) then (p, ToolCommand(refused, Accepted, None, None))
    else if q.approval.None? then (p, ToolCommand(refused, ApprovalNeeded, None, None))
    else
      match ValidateApproval(p, tools, ctx, q, now)
      case Commit(plane, Some(digest)) => (plane, ToolCommand(q, Accepted, q.approval, Some(digest)))
      case Commit(plane, None) => (plane, ToolCommand(refused, Blocked, None, None))
      case Abort(_) => (p, ToolCommand(refused, Blocked, None, None))
  }

  function SubmitTool(s: Store, ctx: Context, q: Request, now: int): Tx<Store, nat> {
    var admin := Require(s.repo.plane, ctx, TenantAdmin);
    :- admin;
    :- Need(q.policyVersion >= 1, Conflict);
    var (plane, value) := Judge(s.repo.plane, s.tools, ctx, q, now);
    SaveTool(s, plane, value, now)
  }

  /** `save_tool_command`: a key names one command for ever; only a new accepted,
      approved command is handed to the outbox. */
  function SaveTool(s: Store, plane: Plane, value: ToolCommand, now: int): Tx<Store, nat> {
    var prior := KeyRow(s.tools, value.request.key, 0);
    if prior.Some? then
      :- Need(s.tools[prior.value].request == value.request, Conflict);
      Commit(s.(repo := s.repo.(plane := plane)), prior.value)
    else
      var id := |s.tools|;
      if value.state == Accepted && value.approvalCommand.Some? then
        :- Need(ToolAccepted(id) !in plane.outbox, Conflict);
        var emitted := plane.(outbox := plane.outbox + {ToolAccepted(id)});
        Commit(Store(s.repo.(plane := emitted), s.tools + [value], s.events + [Outbox.NewEvent(id, now)]), id)
      else
        Commit(Store(s.repo.(plane := plane), s.tools + [value], s.events), id)
  }

  // ----------------------------------------------------------- tool_worker.py

  const PROVIDER := "synthetic"
  const CONNECTION := "demo"
  const ADAPTER_VERSION := "synthetic-v1"

  /** `_drive` up to the attempt: the event must still be bound to an accepted
      command whose approved intent is unchanged. The value is the attempt's row. */
  function PrepareForEvent(s: Store, ctx: Context, e: nat, now: int): Tx<Repo, nat> {
    var known := e < |s.events| && s.events[e].aggregate < |s.tools|;
    :- Need(known, NotFound);
    var t := s.tools[s.events[e].aggregate];
    :- Need(t.state == Accepted && t.approvalCommand.Some? && t.digest.Some?, Conflict);
    var c := t.approvalCommand.value;
    var p := s.repo.plane;
    :- Need(c in p.intents && p.intents[c].digest == t.digest.value, Conflict);
    var (repo, prepared) :- PrepareAttempt(s.repo, ctx, c, t.request.policyVersion, p.intents[c].targetVersion,
                                           ADAPTER_VERSION, PROVIDER, CONNECTION, now);
    Commit(repo, prepared.0)
  }
}
