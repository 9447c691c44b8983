/** The tenant-owned entities of the control plane. Identifiers drawn from
    uuid4 are row numbers; a digest is the hashed value itself. */
module Domain {
  import opened Common

  datatype Role = Master | Funds | CatalogCs | Auditor

  datatype Capability =
    | TenantAdmin | FundsOps | Catalog | Cs
    | ApprovePurchase | ApproveRefund | ApproveProduct | ApproveCs
    | ReadAudit | Recovery

  function RoleCapabilities(r: Role): set<Capability> {
    match r
    case Master => {TenantAdmin, FundsOps, Catalog, Cs, ApprovePurchase, ApproveRefund,
                    ApproveProduct, ApproveCs, ReadAudit, Recovery}
    case Funds => {FundsOps, ApprovePurchase, ApproveRefund}
    case CatalogCs => {Catalog, Cs, ApproveProduct, ApproveCs}
    case Auditor => {ReadAudit}
  }

  function CapabilitiesOf(roles: set<Role>): set<Capability> {
    set r, c | r in roles && c in RoleCapabilities(r) :: c
  }

  datatype ApprovalKind = Purchase | Product | SupplierReplacement | Refund | CsReply | Pause

  function ApprovalCapability(k: ApprovalKind): Capability {
    match k
    case Purchase => ApprovePurchase
    case Product => ApproveProduct
    case SupplierReplacement => ApproveProduct
    case Refund => ApproveRefund
    case CsReply => ApproveCs
    case Pause => Recovery
  }

  /** `CommandState` and `ApprovalState`: a command awaiting approval is `Pending`. */
  datatype DecisionState = Pending | Approved | Rejected | Expired | Superseded

  datatype PoLine = PoLine(line: nat, quantity: int, unitCost: int)

  /** Command payloads: canonical JSON equality is equality of these values. */
  datatype Payload =
    | Text(text: string)
    | PurchasePayload(order: nat, supplier: string, lines: seq<PoLine>)

  /** Command idempotency keys: free text, or one of the two forms purchase orders use. */
  datatype CommandKey =
    | Named(name: string)
    | PurchaseApproval(order: nat, supplier: string)
    | PurchaseRenewal(order: nat, supplier: string, version: int)

  datatype Command = Command(kind: ApprovalKind, targetRef: string, payload: Payload, key: CommandKey, state: DecisionState)

  datatype Approval = Approval(state: DecisionState, expiresAt: int, evidence: string, decidedBy: Option<string>)

  /** The material hashed by `_intent_digest`, standing for its digest. */
  datatype Material = Material(kind: ApprovalKind, targetRef: string, payload: Payload, evidence: string,
                               expiresAt: int, policyVersion: int, targetVersion: int)

  datatype Intent = Intent(digest: Material, policyVersion: int, targetVersion: int)

  datatype Preparation = Preparation(digest: Material, preparedBy: string, preparedAt: int)

  datatype Membership = Membership(roles: set<Role>, active: bool, version: int)

  /** A session: the user and the membership version it was issued for. */
  datatype Context = Context(user: string, version: int)

  datatype Control = Control(policyVersion: int, targetVersion: int, stopped: bool)

  datatype StopScope = GlobalScope | TenantScope(ref: string) | ConnectionScope(connection: string)

  datatype AdapterCapability = DemoExecute | DemoLookup | OtherAdapterCapability

  datatype Manifest = Manifest(adapterVersion: string, capabilities: set<AdapterCapability>)

  /** Outbox idempotency keys. Each source key is a formatted string over these parts. */
  datatype OutKey =
    | ApprovalRequested(command: nat)
    | ApprovalDecided(command: nat)
    | ApprovalExpired(command: nat)
    | ExecutionPrepared(command: nat)
    | AttemptEvent(topic: string, attempt: nat, version: int)
    | ToolAccepted(tool: nat)
    | PoDecided(po: nat, approved: bool)
    | PoRegenerated(po: nat, version: int)
    | PoSubmitted(po: nat)
    | PoResponse(po: nat, digest: string)
    | PoCancelRequested(po: nat)
    | CancelledOrder(order: nat)
}
