/**
 * The wallet ledger of backend/server.js as the server runs it: the store's tables
 * as fields, and for each route handler the code that reads and writes them call
 * by call, with the compensating write when a later call fails.
 *
 * Each handler is two methods. `XSteps` makes the store calls on the fields and is
 * proved to return the response and leave the tables that the transition `Handlers.X`
 * describes; it does not need the invariant. The route method `X` requires and
 * ensures `Valid()`, and calls `XSteps` after the matching `...KeepsInvariant` lemma
 * of `Properties`. The split keeps the invariant's quantifiers out of the proof
 * of the calls, which stays small that way; together the two are one handler.
 */
module Ledger {
  import opened Options
  import opened Plans
  import opened Records
  import opened Handlers
  import opened Properties

  class Wallets {
    var users: map<UserId, User>
    var balances: map<UserId, real>
    var nextUserId: UserId
    var investments: seq<Investment>
    var withdrawals: seq<Withdrawal>
    var recharges: seq<Recharge>
    var adjustments: seq<Adjustment>

    /** The tables as a value. */
    function Snapshot(): Tables
      reads this
    {
      Tables(users, balances, nextUserId, investments, withdrawals, recharges, adjustments)
    }

    ghost predicate Valid()
      reads this
    {
      Consistent(Snapshot())
    }

    /** The store of a fresh deployment. */
    constructor ()
      ensures Valid() && Solvent(Snapshot())
      ensures Snapshot() == Empty()
    {
      users := map[];
      balances := map[];
      nextUserId := 1;
      investments := [];
      withdrawals := [];
      recharges := [];
      adjustments := [];
      EmptyIsConsistent();
    }

    /** POST /api/register. */
    method Register(name: string, email: string, password: string, mobile: string, now: int, failing: set<Call>)
      returns (r: Result<UserId>)
      requires Valid()
      modifies this`users, this`balances, this`nextUserId
      ensures Valid()
      ensures var o := Handlers.Register(old(Snapshot()), name, email, password, mobile, now, failing);
        r == o.result && Snapshot() == o.tables
    {
      RegisterKeepsInvariant(Snapshot(), name, email, password, mobile, now, failing);
      r := RegisterSteps(name, email, password, mobile, now, failing);
    }

    /** The store calls of `Register`, one after another, each failure exiting with its error; needs no invariant. */
    method RegisterSteps(name: string, email: string, password: string, mobile: string, now: int, failing: set<Call>)
      returns (r: Result<UserId>)
      modifies this`users, this`balances, this`nextUserId
      ensures var o := Handlers.Register(old(Snapshot()), name, email, password, mobile, now, failing);
        r == o.result && Snapshot() == o.tables
    {
      ghost var o := Handlers.Register(Snapshot(), name, email, password, mobile, now, failing);
      if Lookup in failing {
        r := Err(LookupFailed);
      } else if EmailInUse(users, email) {
        r := Err(EmailTaken);
      } else if InsertRow in failing {
        r := Err(InsertFailed);
      } else {
        var id := nextUserId;
        users := users[id := User(name, email, password, mobile, now)];
        balances := balances[id := 0.0];
        nextUserId := id + 1;
        r := Ok(id);
      }
      assert Snapshot() == o.tables;
    }

    /** POST /api/purchase-plan; `startOfMonth` is midnight on the first of the month that contains `now`. */
    method PurchasePlan(userId: UserId, planId: int, startOfMonth: int, now: int, failing: set<Call>)
      returns (r: Result<real>)
      requires Valid()
      modifies this`balances, this`investments
      ensures Valid()
      ensures var o := Handlers.PurchasePlan(old(Snapshot()), userId, planId, startOfMonth, now, failing);
        r == o.result && Snapshot() == o.tables
    {
      PurchaseKeepsInvariant(Snapshot(), userId, planId, startOfMonth, now, failing);
      r := PurchasePlanSteps(userId, planId, startOfMonth, now, failing);
    }

    /** The store calls of `PurchasePlan`, one after another, each failure exiting with its error; needs no invariant. */
    method PurchasePlanSteps(userId: UserId, planId: int, startOfMonth: int, now: int, failing: set<Call>)
      returns (r: Result<real>)
      modifies this`balances, this`investments
      ensures var o := Handlers.PurchasePlan(old(Snapshot()), userId, planId, startOfMonth, now, failing);
        r == o.result && Snapshot() == o.tables
    {
      ghost var o := Handlers.PurchasePlan(Snapshot(), userId, planId, startOfMonth, now, failing);
      if Lookup in failing || userId !in balances {
        r := Err(LookupFailed);
      } else {
        var balance := balances[userId];
        var found := FindPlan(PurchasePlans(), planId);
        if found.None? {
          r := Err(InvalidPlan);
        } else if balance < found.value.price as real {
          r := Err(InsufficientBalance);
        } else if QueryHistory in failing {
          r := Err(QueryFailed);
        } else if PurchasesSince(investments, userId, startOfMonth) != [] {
          r := Err(MonthlyLimit);
        } else if WriteBalance in failing {
          r := Err(BalanceUpdateFailed);
        } else {
          var plan := found.value;
          var newBalance := balance - plan.price as real;
          balances := balances[userId := newBalance];
          if InsertRow in failing {
            if RestoreBalance !in failing {
              balances := balances[userId := balance];
            }
            r := Err(InsertFailed);
          } else {
            investments := investments + [Investment(userId, planId, plan.name, plan.price as real, now, Active)];
            r := Ok(newBalance);
          }
        }
      }
      assert Snapshot() == o.tables;
    }

    /** POST /api/withdraw. */
    method Withdraw(userId: UserId, amount: real, payoutMethod: string, details: string, now: int, failing: set<Call>)
      returns (r: Result<real>)
      requires Valid()
      modifies this`balances, this`withdrawals
      ensures Valid()
      ensures var o := Handlers.Withdraw(old(Snapshot()), userId, amount, payoutMethod, details, now, failing);
        r == o.result && Snapshot() == o.tables
    {
      WithdrawKeepsInvariant(Snapshot(), userId, amount, payoutMethod, details, now, failing);
      r := WithdrawSteps(userId, amount, payoutMethod, details, now, failing);
    }

    /** The store calls of `Withdraw`, one after another, each failure exiting with its error; needs no invariant. */
    method WithdrawSteps(userId: UserId, amount: real, payoutMethod: string, details: string, now: int, failing: set<Call>)
      returns (r: Result<real>)
      modifies this`balances, this`withdrawals
      ensures var o := Handlers.Withdraw(old(Snapshot()), userId, amount, payoutMethod, details, now, failing);
        r == o.result && Snapshot() == o.tables
    {
      ghost var o := Handlers.Withdraw(Snapshot(), userId, amount, payoutMethod, details, now, failing);
      if amount <= 0.0 {
        r := Err(InvalidAmount);
      } else if Lookup in failing || userId !in balances {
        r := Err(LookupFailed);
      } else {
        var balance := balances[userId];
        if balance < amount {
          r := Err(InsufficientBalance);
        } else if QueryHistory in failing {
          r := Err(QueryFailed);
        } else if WithdrawalsSince(withdrawals, userId, now - DayMs) != [] {
          r := Err(RateLimited);
        } else if WriteBalance in failing {
          r := Err(BalanceUpdateFailed);
        } else {
          var split := Split(amount);
          var newBalance := balance - amount;
          balances := balances[userId := newBalance];
          if InsertRow in failing {
            if RestoreBalance !in failing {
              balances := balances[userId := balance];
            }
            r := Err(InsertFailed);
          } else {
            withdrawals := withdrawals + [Withdrawal(userId, amount, split.gst, split.net, payoutMethod, details, now, Pending, None)];
            r := Ok(newBalance);
          }
        }
      }
      assert Snapshot() == o.tables;
    }

    /** POST /api/recharge. */
    method RequestRecharge(userId: UserId, amount: real, utr: string, now: int, failing: set<Call>)
      returns (r: Result<()>)
      requires Valid()
      modifies this`recharges
      ensures Valid()
      ensures var o := Handlers.RequestRecharge(old(Snapshot()), userId, amount, utr, now, failing);
        r == o.result && Snapshot() == o.tables
    {
      RequestRechargeKeepsInvariant(Snapshot(), userId, amount, utr, now, failing);
      r := RequestRechargeSteps(userId, amount, utr, now, failing);
    }

    /** The store calls of `RequestRecharge`, one after another, each failure exiting with its error; needs no invariant. */
    method RequestRechargeSteps(userId: UserId, amount: real, utr: string, now: int, failing: set<Call>)
      returns (r: Result<()>)
      modifies this`recharges
      ensures var o := Handlers.RequestRecharge(old(Snapshot()), userId, amount, utr, now, failing);
        r == o.result && Snapshot() == o.tables
    {
      ghost var o := Handlers.RequestRecharge(Snapshot(), userId, amount, utr, now, failing);
      if amount <= 0.0 {
        r := Err(InvalidAmount);
      } else if |utr| < 5 {
        r := Err(InvalidUtr);
      } else if InsertRow in failing {
        r := Err(InsertFailed);
      } else {
        recharges := recharges + [Recharge(userId, amount, utr, now, Pending, None)];
        r := Ok(());
      }
      assert Snapshot() == o.tables;
    }

    /** POST /api/admin/recharge/:id/approve. */
    method ApproveRecharge(id: nat, now: int, failing: set<Call>) returns (r: Result<()>)
      requires Valid()
      modifies this`balances, this`recharges
      ensures Valid()
      ensures var o := Handlers.ApproveRecharge(old(Snapshot()), id, now, failing);
        r == o.result && Snapshot() == o.tables
    {
      ApproveRechargeKeepsInvariant(Snapshot(), id, now, failing);
      r := ApproveRechargeSteps(id, now, failing);
    }

    /** The store calls of `ApproveRecharge`, one after another, each failure exiting with its error; needs no invariant. */
    method ApproveRechargeSteps(id: nat, now: int, failing: set<Call>) returns (r: Result<()>)
      modifies this`balances, this`recharges
      ensures var o := Handlers.ApproveRecharge(old(Snapshot()), id, now, failing);
        r == o.result && Snapshot() == o.tables
    {
      ghost var o := Handlers.ApproveRecharge(Snapshot(), id, now, failing);
      if Lookup in failing {
        r := Err(LookupFailed);
      } else if id >= |recharges| {
        r := Err(NotFound);
      } else {
        var recharge := recharges[id];
        if recharge.status != Pending {
          r := Err(NotPending);
        } else if WriteStatus in failing {
          r := Err(StatusUpdateFailed);
        } else {
          recharges := recharges[id := recharge.(status := Approved, processedDate := Some(now))];
          if IncrementBalance in failing || recharge.userId !in balances {
            if RestoreStatus !in failing {
              recharges := recharges[id := recharge.(status := Pending, processedDate := None)];
            }
            r := Err(BalanceUpdateFailed);
          } else {
            balances := balances[recharge.userId := balances[recharge.userId] + recharge.amount];
            r := Ok(());
          }
        }
      }
      assert Snapshot() == o.tables;
    }

    /** POST /api/admin/recharge/:id/reject. */
    method RejectRecharge(id: nat, now: int, failing: set<Call>) returns (r: Result<()>)
      requires Valid()
      modifies this`recharges
      ensures Valid()
      ensures var o := Handlers.RejectRecharge(old(Snapshot()), id, now, failing);
        r == o.result && Snapshot() == o.tables
    {
      RejectRechargeKeepsInvariant(Snapshot(), id, now, failing);
      r := RejectRechargeSteps(id, now, failing);
    }

    /** The store calls of `RejectRecharge`, one after another, each failure exiting with its error; needs no invariant. */
    method RejectRechargeSteps(id: nat, now: int, failing: set<Call>) returns (r: Result<()>)
      modifies this`recharges
      ensures var o := Handlers.RejectRecharge(old(Snapshot()), id, now, failing);
        r == o.result && Snapshot() == o.tables
    {
      ghost var o := Handlers.RejectRecharge(Snapshot(), id, now, failing);
      if Lookup in failing {
        r := Err(LookupFailed);
      } else if id >= |recharges| {
        r := Err(NotFound);
      } else {
        var recharge := recharges[id];
        if recharge.status != Pending {
          r := Err(NotPending);
        } else if WriteStatus in failing {
          r := Err(StatusUpdateFailed);
        } else {
          recharges := recharges[id := recharge.(status := Rejected, processedDate := Some(now))];
          r := Ok(());
        }
      }
      assert Snapshot() == o.tables;
    }

    /** POST /api/admin/withdrawal/:id/approve. */
    method ApproveWithdrawal(id: nat, now: int, failing: set<Call>) returns (r: Result<()>)
      requires Valid()
      modifies this`withdrawals
      ensures Valid()
      ensures var o := Handlers.ApproveWithdrawal(old(Snapshot()), id, now, failing);
        r == o.result && Snapshot() == o.tables
    {
      ApproveWithdrawalKeepsInvariant(Snapshot(), id, now, failing);
      r := ApproveWithdrawalSteps(id, now, failing);
    }

    /** The store calls of `ApproveWithdrawal`, one after another, each failure exiting with its error; needs no invariant. */
    method ApproveWithdrawalSteps(id: nat, now: int, failing: set<Call>) returns (r: Result<()>)
      modifies this`withdrawals
      ensures var o := Handlers.ApproveWithdrawal(old(Snapshot()), id, now, failing);
        r == o.result && Snapshot() == o.tables
    {
      ghost var o := Handlers.ApproveWithdrawal(Snapshot(), id, now, failing);
      if Lookup in failing {
        r := Err(LookupFailed);
      } else if id >= |withdrawals| {
        r := Err(NotFound);
      } else {
        var withdrawal := withdrawals[id];
        if withdrawal.status != Pending {
          r := Err(NotPending);
        } else if WriteStatus in failing {
          r := Err(StatusUpdateFailed);
        } else {
          withdrawals := withdrawals[id := withdrawal.(status := Approved, processedDate := Some(now))];
          r := Ok(());
        }
      }
      assert Snapshot() == o.tables;
    }

    /** POST /api/admin/withdrawal/:id/reject; a failed refund is ignored. */
    method RejectWithdrawal(id: nat, now: int, failing: set<Call>) returns (r: Result<()>)
      requires Valid()
      modifies this`balances, this`withdrawals
      ensures Valid()
      ensures var o := Handlers.RejectWithdrawal(old(Snapshot()), id, now, failing);
        r == o.result && Snapshot() == o.tables
    {
      RejectWithdrawalKeepsInvariant(Snapshot(), id, now, failing);
      r := RejectWithdrawalSteps(id, now, failing);
    }

    /** The store calls of `RejectWithdrawal`, one after another, each failure exiting with its error; needs no invariant. */
    method RejectWithdrawalSteps(id: nat, now: int, failing: set<Call>) returns (r: Result<()>)
      modifies this`balances, this`withdrawals
      ensures var o := Handlers.RejectWithdrawal(old(Snapshot()), id, now, failing);
        r == o.result && Snapshot() == o.tables
    {
      ghost var o := Handlers.RejectWithdrawal(Snapshot(), id, now, failing);
      if Lookup in failing {
        r := Err(LookupFailed);
      } else if id >= |withdrawals| {
        r := Err(NotFound);
      } else {
        var withdrawal := withdrawals[id];
        if withdrawal.status != Pending {
          r := Err(NotPending);
        } else if WriteStatus in failing {
          r := Err(StatusUpdateFailed);
        } else {
          withdrawals := withdrawals[id := withdrawal.(status := Rejected, processedDate := Some(now))];
          if IncrementBalance !in failing && withdrawal.userId in balances {
            balances := balances[withdrawal.userId := balances[withdrawal.userId] + withdrawal.amount];
          }
          r := Ok(());
        }
      }
      assert Snapshot() == o.tables;
    }

    /** POST /api/admin/user/balance-adjust; user id 0 stands for a missing id, and a failed audit insert is ignored. */
    method AdjustBalance(userId: UserId, amount: real, reason: string, adminId: UserId, now: int, failing: set<Call>)
      returns (r: Result<()>)
      requires Valid()
      modifies this`balances, this`adjustments
      ensures Valid()
      ensures var o := Handlers.AdjustBalance(old(Snapshot()), userId, amount, reason, adminId, now, failing);
        r == o.result && Snapshot() == o.tables
    {
      AdjustBalanceKeepsInvariant(Snapshot(), userId, amount, reason, adminId, now, failing);
      r := AdjustBalanceSteps(userId, amount, reason, adminId, now, failing);
    }

    /** The store calls of `AdjustBalance`, one after another, each failure exiting with its error; needs no invariant. */
    method AdjustBalanceSteps(userId: UserId, amount: real, reason: string, adminId: UserId, now: int, failing: set<Call>)
      returns (r: Result<()>)
      modifies this`balances, this`adjustments
      ensures var o := Handlers.AdjustBalance(old(Snapshot()), userId, amount, reason, adminId, now, failing);
        r == o.result && Snapshot() == o.tables
    {
      ghost var o := Handlers.AdjustBalance(Snapshot(), userId, amount, reason, adminId, now, failing);
      if userId == 0 || amount == 0.0 || reason == "" {
        r := Err(MissingField);
      } else if IncrementBalance in failing || userId !in balances {
        r := Err(BalanceUpdateFailed);
      } else {
        balances := balances[userId := balances[userId] + amount];
        if InsertRow !in failing {
          adjustments := adjustments + [Adjustment(userId, amount, reason, adminId, now)];
        }
        r := Ok(());
      }
      assert Snapshot() == o.tables;
    }
  }
}
