/** The rows of the one transactional store. A row's id is its position in its table. */
module Tables {
  import opened Kernel
  import opened Accounts
  import opened Ledger

  type TransferId = nat

  datatype Kind =
    | RequestSettlement
    | SignupGrant
    | UndoHold
    | UndoSettle
    | UndoRefund
    | EscrowHold
    | EscrowRelease
    | EscrowRefund
    | OverdraftDraw
    | OverdraftRepay
    | OverdraftFund

  datatype TransferStatus = Succeeded | PendingUndo | Held | Refunded

  datatype Transfer = Transfer(
    sender: AccountId,
    receiver: AccountId,
    amount: int,
    kind: Kind,
    status: TransferStatus,
    initiatedBy: UserId,
    parent: Option<TransferId>,
    intended: Option<AccountId>,
    createdAt: Time)

  datatype Pool = Pool(sponsor: UserId, account: AccountId)

  datatype Grant = Grant(pool: nat, beneficiary: UserId, maxDraw: int, createdAt: Time)

  datatype LoanStatus = Outstanding | Repaid

  datatype Loan = Loan(
    pool: nat,
    borrower: UserId,
    draw: TransferId,
    principal: int,
    outstanding: int,
    status: LoanStatus,
    createdAt: Time)

  datatype Repayment = Repayment(loan: nat, transfer: TransferId, amount: int, trigger: TransferId)

  datatype EscrowStatus = AwaitingShipment | Shipped | Delivered | Disputed | Released | EscrowRefunded

  datatype Escrow = Escrow(
    hold: TransferId,
    settlement: Option<TransferId>,
    buyer: UserId,
    seller: UserId,
    amount: int,
    status: EscrowStatus,
    codeAttempts: nat,
    codeLockedUntil: Option<Time>)

  datatype RequestStatus = Pending | Accepted | Rejected | Cancelled | Expired

  datatype MoneyRequest = MoneyRequest(
    requester: AccountId,
    payer: AccountId,
    amount: int,
    status: RequestStatus,
    transfer: Option<TransferId>,
    expiresAt: Time)

  datatype TaskType = UndoSettleTask | AutoReleaseTask | RequestExpiryTask

  datatype TaskKey = TaskKey(taskType: TaskType, resource: nat)

  datatype TaskStatus = TaskPending | TaskDone | TaskCancelled | TaskFailed

  datatype Task = Task(status: TaskStatus, attempts: nat, dueAt: Time)

  // -- idempotency records --------------------------------------------------

  datatype Endpoint =
    | Transfers
    | UndoOf(transfer: TransferId)
    | PoolsEndpoint
    | FundOf(pool: nat)
    | GrantsEndpoint
    | SafePayEndpoint
    | ShipOf(escrow: nat)
    | CodeOf(escrow: nat)
    | ConfirmOf(escrow: nat)
    | DisputeOf(escrow: nat)
    | CourierEvent(courier: nat)
    | ResolveOf(escrow: nat)
    | InternalFund
    | InternalDraw
    | InternalLien
    | InternalUndoHold
    | InternalSafePayHold
    | InternalSettle(kind: Kind)

  datatype Key =
    | ClientKey(key: nat)
    | SignupKey(user: UserId)
    | PoolFundKey(pool: nat)
    | DrawKey(key: nat)
    | UndoHoldKey(key: nat)
    | SafePayHoldKey(escrow: nat)
    | SettleKey(hold: TransferId, outcome: TransferStatus)
    | LienKey(incoming: TransferId, loan: nat)

  datatype IdemKey = IdemKey(actor: nat, endpoint: Endpoint, key: Key)

  /** What a fingerprint is taken over; the hash is treated as injective, so it is the payload itself. */
  datatype Payload =
    | GrantPayload(user: UserId, amount: int)
    | SendPayload(sender: AccountId, receiver: AccountId, amount: int, note: nat)
    | HoldPayload(payer: AccountId, holding: AccountId, amount: int, kind: Kind)
    | DrawPayload(pool: nat, borrower: UserId, amount: int)
    | LienPayload(incoming: TransferId, loan: nat, amount: int)
    | OutcomePayload(hold: TransferId, outcome: TransferStatus)
    | UndoPayload(transfer: TransferId)
    | RequestPayload(request: nat, amount: int)
    | PoolPayload(amount: int)
    | FundPayload(pool: nat, amount: int)
    | AccessPayload(beneficiary: UserId, maxDraw: int)
    | SafePayPayload(seller: UserId, amount: int, description: nat)
    | ShipPayload(courier: nat, tracking: nat)
    | CodePayload(code: nat)
    | ConfirmPayload(escrow: nat)
    | DisputePayload(reason: nat)
    | CourierPayload(tracking: nat, releaseNow: bool)
    | ResolvePayload(release: bool, note: nat, banBuyer: bool)

  datatype DrawInfo = DrawInfo(loan: nat, pool: nat, transfer: TransferId, amount: int)

  /** Stored response bodies. */
  datatype Body =
    | TransferBody(transferId: TransferId, status: TransferStatus, amount: int, fee: int,
                   senderBalance: int, completedAt: Time)
    | SendBody(hold: Body, undoExpiresAt: Time, draw: Option<DrawInfo>)
    | UndoBody(transferId: TransferId, refund: TransferId, amount: int, senderBalance: int)
    | PoolBody(pool: nat, account: AccountId, balance: int, funding: TransferId)
    | AccessBody(grant: nat, pool: nat, beneficiary: UserId, maxDraw: int)
    | EscrowCreatedBody(escrow: nat, holdTransfer: TransferId, amount: int)
    | EscrowStatusBody(escrow: nat, escrowStatus: EscrowStatus)
    | CodeRejectedBody(escrow: nat, escrowStatus: EscrowStatus, locked: bool, attemptsRemaining: Option<int>)
    | SettledBody(escrow: nat, escrowStatus: EscrowStatus, settlement: TransferId, buyerBanned: bool)
    | DeliveredBody(escrow: nat, autoReleaseAt: Time)

  datatype IdemRecord =
    | Processing(fingerprint: Payload)
    | Completed(fingerprint: Payload, body: Body)

  datatype State = State(
    accounts: seq<Account>,
    transfers: seq<Transfer>,
    postings: seq<Posting>,
    idem: map<IdemKey, IdemRecord>,
    pools: seq<Pool>,
    grants: seq<Grant>,
    loans: seq<Loan>,
    repayments: seq<Repayment>,
    escrows: seq<Escrow>,
    requests: seq<MoneyRequest>,
    tasks: map<TaskKey, Task>)

  /** The migrated, empty database: the three system accounts and nothing else. */
  const INITIAL: State := State(
    [Account(None, SystemIssuance, 0, Active, 0),
     Account(None, EscrowAccount, 0, Active, 0),
     Account(None, PendingSettlement, 0, Active, 0)],
    [], [], map[], [], [], [], [], [], [], map[])
}

/** application/idempotency.py and the idempotency repository. */
module Idempotency {
  import opened Kernel
  import opened Tables

  datatype Decision = Proceed | Replay(body: Body) | InProgress | PayloadMismatch

  function Reserve(idem: map<IdemKey, IdemRecord>, key: IdemKey, fingerprint: Payload): Decision {
    if key !in idem then Proceed
    else if idem[key].fingerprint != fingerprint then PayloadMismatch
    else if idem[key].Completed? then Replay(idem[key].body)
    else InProgress
  }

  /** `replay_body_or_raise`. */
  function ReplayBodyOrRaise(decision: Decision): Result<Option<Body>> {
    match decision
    case Proceed => Ok(None)
    case PayloadMismatch => Err(IdempotencyKeyReuse)
    case InProgress => Err(RequestInProgress)
    case Replay(body) => Ok(Some(body))
  }

  function Begin(s: State, key: IdemKey, fingerprint: Payload): State {
    s.(idem := s.idem[key := Processing(fingerprint)])
  }

  /** `complete`: the reservation keeps its fingerprint and gains the response. */
  function Complete(s: State, key: IdemKey, fingerprint: Payload, body: Body): State {
    s.(idem := s.idem[key := Completed(fingerprint, body)])
  }
}
