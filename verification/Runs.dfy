/** Safety over whole runs: every reachable state satisfies the invariant. */
module Runs {
  import opened Kernel
  import opened Accounts
  import opened Ledger
  import opened Policies
  import opened Tables
  import opened Transfers
  import opened Scheduling
  import opened Invariants
  import opened Settling
  import opened Payments
  import opened Sending
  import opened Closings
  import opened Escrows
  import opened Batches
  import opened Bank
  import SpotMe
  import Holds
  import SafePay
  import MoneyRequests
  import Worker

  lemma InitialInv(cfg: Config)
    requires Wired(cfg)
    ensures Inv(cfg, INITIAL)
  {
  }

  /** Every command, in every state that satisfies it, keeps the invariant. */
  lemma StepKeeps(cfg: Config, s: State, now: Time, command: Command)
    requires Wired(cfg) && Inv(cfg, s) && Step(cfg, s, now, command).Ok?
    ensures Inv(cfg, Step(cfg, s, now, command).value.state)
  {
    hide Inv, SpotMe.OpenAccount, SpotMe.CreatePool, SpotMe.FundPool, SpotMe.GrantAccess, SpotMe.Send, Holds.Undo,
         SafePay.Create, SafePay.Perform, MoneyRequests.Request, MoneyRequests.Accept, MoneyRequests.Terminate,
         Worker.RunBatch, Edge, Unsettled, MayUndo, BatchRan, Claimable;
    match command
    case OpenAccount(user, opening) => OpenAccountKeeps(cfg, s, now, user, opening);
    case CreatePool(sponsor, amount, key) => CreatePoolKeeps(cfg, s, now, sponsor, amount, key);
    case FundPool(sponsor, amount, key) => FundPoolKeeps(cfg, s, now, sponsor, amount, key);
    case GrantAccess(sponsor, beneficiary, maxDraw, key) => GrantAccessKeeps(cfg, s, now, sponsor, beneficiary,
        maxDraw, key);
    case Send(user, recipient, amount, key, note) => SendKeeps(cfg, s, now, user, recipient, amount, key, note);
    case Undo(transfer, actor, key) => UndoKeeps(cfg, s, now, transfer, actor, key);
    case CreateEscrow(buyer, seller, amount, description, key) => CreateKeeps(cfg, s, now, buyer, seller, amount,
        description, key);
    case OrderEscrow(order, key) => PerformKeeps(cfg, s, now, order, key);
    case RequestMoney(requester, payer, amount) => RequestKeeps(cfg, s, now, requester, payer, amount);
    case AcceptRequest(request, user, key) => AcceptKeeps(cfg, s, now, request, user, key);
    case TerminateRequest(request, user, byPayer) => TerminateKeeps(cfg, s, request, user, byPayer);
    case RunTasks(claimed) => RunBatchKeeps(cfg, s, now, claimed);
  }

  lemma {:induction false} RunFromKeeps(cfg: Config, s: State, events: seq<Event>)
    requires Wired(cfg) && Inv(cfg, s)
    ensures Inv(cfg, RunFrom(cfg, s, events))
  {
    hide Inv, Step;
    if events != [] {
      var n := |events| - 1;
      RunFromKeeps(cfg, s, events[..n]);
      var before := RunFrom(cfg, s, events[..n]);
      if Step(cfg, before, events[n].now, events[n].command).Ok? {
        StepKeeps(cfg, before, events[n].now, events[n].command);
      }
    }
  }

  /** The main theorem. */
  lemma EveryRunKeeps(cfg: Config, events: seq<Event>)
    requires Wired(cfg)
    ensures Inv(cfg, Run(cfg, events))
  {
    hide Inv, Step;
    InitialInv(cfg);
    RunFromKeeps(cfg, INITIAL, events);
  }
}
