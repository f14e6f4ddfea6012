/** The whole system as one state machine: a command, its transaction, and runs of commands. */
module Bank {
  import opened Kernel
  import opened Accounts
  import opened Policies
  import opened Tables
  import opened Scheduling
  import Holds
  import SpotMe
  import SafePay
  import MoneyRequests
  import Worker

  datatype Command =
    | OpenAccount(user: UserId, opening: int)
    | CreatePool(sponsor: UserId, amount: int, key: nat)
    | FundPool(sponsor: UserId, amount: int, key: nat)
    | GrantAccess(sponsor: UserId, beneficiary: UserId, maxDraw: int, key: nat)
    | Send(user: UserId, recipient: UserId, amount: int, key: nat, note: nat)
    | Undo(transfer: TransferId, actor: UserId, key: nat)
    | CreateEscrow(buyer: UserId, seller: UserId, amount: int, description: nat, key: nat)
    | OrderEscrow(order: SafePay.Order, key: nat)
    | RequestMoney(requester: UserId, payer: UserId, amount: int)
    | AcceptRequest(request: nat, user: UserId, key: nat)
    | TerminateRequest(request: nat, user: UserId, byPayer: bool)
    | RunTasks(claimed: seq<TaskKey>)

  datatype Answer = Answer(state: State, body: Option<Body>, replayed: bool)

  function Replied(reply: Holds.Reply): Answer { Answer(reply.state, Some(reply.body), reply.replayed) }

  function Quiet(s: State): Answer { Answer(s, None, false) }

  /** One command inside its transaction. */
  function Step(cfg: Config, s: State, now: Time, command: Command): Result<Answer> {
    match command
    case OpenAccount(user, opening) =>
      var s' :- SpotMe.OpenAccount(cfg, s, now, user, opening); Ok(Quiet(s'))
    case CreatePool(sponsor, amount, key) =>
      var r :- SpotMe.CreatePool(cfg, s, now, sponsor, amount, key); Ok(Replied(r))
    case FundPool(sponsor, amount, key) =>
      var r :- SpotMe.FundPool(cfg, s, now, sponsor, amount, key); Ok(Replied(r))
    case GrantAccess(sponsor, beneficiary, maxDraw, key) =>
      var r :- SpotMe.GrantAccess(cfg, s, now, sponsor, beneficiary, maxDraw, key); Ok(Replied(r))
    case Send(user, recipient, amount, key, note) =>
      var r :- SpotMe.Send(cfg, s, now, user, recipient, amount, key, note); Ok(Replied(r))
    case Undo(transfer, actor, key) =>
      var r :- Holds.Undo(cfg, s, now, transfer, actor, key); Ok(Replied(r))
    case CreateEscrow(buyer, seller, amount, description, key) =>
      var r :- SafePay.Create(cfg, s, now, buyer, seller, amount, description, key); Ok(Replied(r))
    case OrderEscrow(order, key) =>
      var r :- SafePay.Perform(cfg, s, now, order, key); Ok(Replied(r))
    case RequestMoney(requester, payer, amount) =>
      var s' :- MoneyRequests.Request(cfg, s, now, requester, payer, amount); Ok(Quiet(s'))
    case AcceptRequest(request, user, key) =>
      var r :- MoneyRequests.Accept(cfg, s, now, request, user, key); Ok(Quiet(r.state))
    case TerminateRequest(request, user, byPayer) =>
      var s' :- MoneyRequests.Terminate(s, request, user, byPayer); Ok(Quiet(s'))
    case RunTasks(claimed) =>
      var _ :- Need(Claimable(s.tasks, now, claimed), NotFound);
      Ok(Quiet(Worker.RunBatch(cfg, s, now, claimed).0))
  }

  datatype Event = Event(now: Time, command: Command)

  /** The transaction around it: commit, or roll every write back. */
  function Commit(cfg: Config, s: State, event: Event): State {
    match Step(cfg, s, event.now, event.command)
    case Ok(answer) => answer.state
    case Err(_) => s
  }

  /** The committed state after any sequence of commands, accepted or refused, at any clock readings. */
  function RunFrom(cfg: Config, s: State, events: seq<Event>): State {
    if events == [] then s else Commit(cfg, RunFrom(cfg, s, events[..|events| - 1]), events[|events| - 1])
  }

  function Run(cfg: Config, events: seq<Event>): State { RunFrom(cfg, INITIAL, events) }

  lemma {:induction false} RunsCompose(cfg: Config, s: State, first: seq<Event>, second: seq<Event>)
    ensures RunFrom(cfg, s, first + second) == RunFrom(cfg, RunFrom(cfg, s, first), second)
  {
    hide Commit;
    if second == [] {
      assert first + second == first;
    } else {
      var n := |second| - 1;
      RunsCompose(cfg, s, first, second[..n]);
      assert (first + second)[..|first| + n] == first + second[..n];
    }
  }
}
