/**
 * What the handlers promise about the ledger: each keeps the tables' invariant
 * and, except a negative manual adjustment, keeps every balance non-negative; and
 * the limits and round trips that span several requests.
 */
module Properties {
  import opened Options
  import opened Plans
  import opened Records
  import opened Handlers

  /** The tables of a fresh deployment satisfy the invariant and hold no negative balance. */
  lemma EmptyIsConsistent()
    ensures Consistent(Empty()) && Solvent(Empty())
  {
  }

  /** Writing a registered user's balance keeps the users table consistent. */
  lemma SetBalanceKeeps(users: map<UserId, User>, balances: map<UserId, real>, nextUserId: UserId, u: UserId, b: real)
    requires UsersConsistent(users, balances, nextUserId) && u in users
    ensures UsersConsistent(users, balances[u := b], nextUserId)
  {
  }

  /** Appending an active investment of a registered user, for a positive amount, keeps the table consistent. */
  lemma AddInvestmentKeeps(users: map<UserId, User>, investments: seq<Investment>, x: Investment)
    requires InvestmentsConsistent(users, investments)
    requires x.userId in users && x.status == Active && x.amount > 0.0
    ensures InvestmentsConsistent(users, investments + [x])
  {
    assert forall i :: 0 <= i < |investments| ==> (investments + [x])[i] == investments[i];
  }

  /**
   * Appending a well-formed withdrawal of a registered user who has none in the
   * preceding 24 hours keeps the table consistent.
   */
  lemma AddWithdrawalKeeps(users: map<UserId, User>, withdrawals: seq<Withdrawal>, w: Withdrawal)
    requires WithdrawalsConsistent(users, withdrawals)
    requires w.userId in users && WellFormedWithdrawal(w)
    requires WithdrawalsSince(withdrawals, w.userId, w.requestDate - DayMs) == []
    ensures WithdrawalsConsistent(users, withdrawals + [w])
  {
    assert forall i :: 0 <= i < |withdrawals| ==> (withdrawals + [w])[i] == withdrawals[i];
    SpacedAppend(withdrawals, w);
  }

  /** Replacing a withdrawal by a well-formed one of the same user and request time keeps the table consistent. */
  lemma SetWithdrawalKeeps(users: map<UserId, User>, withdrawals: seq<Withdrawal>, id: nat, w: Withdrawal)
    requires WithdrawalsConsistent(users, withdrawals) && id < |withdrawals| && WellFormedWithdrawal(w)
    requires w.userId == withdrawals[id].userId && w.requestDate == withdrawals[id].requestDate
    ensures WithdrawalsConsistent(users, withdrawals[id := w])
  {
  }

  /** Appending a well-formed recharge keeps the table consistent. */
  lemma AddRechargeKeeps(recharges: seq<Recharge>, r: Recharge)
    requires RechargesConsistent(recharges) && WellFormedRecharge(r)
    ensures RechargesConsistent(recharges + [r])
  {
    assert forall i :: 0 <= i < |recharges| ==> (recharges + [r])[i] == recharges[i];
  }

  /** Appending an audit row of a registered user keeps the table consistent. */
  lemma AddAdjustmentKeeps(users: map<UserId, User>, adjustments: seq<Adjustment>, a: Adjustment)
    requires AdjustmentsConsistent(users, adjustments) && a.userId in users
    ensures AdjustmentsConsistent(users, adjustments + [a])
  {
    assert forall i :: 0 <= i < |adjustments| ==> (adjustments + [a])[i] == adjustments[i];
  }

  /** Registration keeps user ids fresh and emails unique. */
  lemma RegisterKeepsInvariant(t: Tables, name: string, email: string, password: string, mobile: string, now: int, failing: set<Call>)
    requires Consistent(t)
    ensures var o := Register(t, name, email, password, mobile, now, failing);
      Consistent(o.tables)
  {
    var o := Register(t, name, email, password, mobile, now, failing);
    if o.result.Ok? {
      var id := o.result.value;
      var users := o.tables.users;
      forall a, b | a in users && b in users && a != b
        ensures users[a].email != users[b].email
      {
        if a == id {
          assert b in t.users;
        } else if b == id {
          assert a in t.users;
        }
      }
      assert UsersConsistent(users, o.tables.balances, o.tables.nextUserId);
    }
  }

  /** A purchase keeps the invariant. */
  lemma PurchaseKeepsInvariant(t: Tables, userId: UserId, planId: int, startOfMonth: int, now: int, failing: set<Call>)
    requires Consistent(t)
    ensures var o := PurchasePlan(t, userId, planId, startOfMonth, now, failing);
      Consistent(o.tables)
  {
    var o := PurchasePlan(t, userId, planId, startOfMonth, now, failing);
    var plan := FindPlan(PurchasePlans(), planId);
    if o.result.Ok? {
      FoundPricePositive(planId);
      SetBalanceKeeps(t.users, t.balances, t.nextUserId, userId, o.result.value);
      AddInvestmentKeeps(t.users, t.investments, Investment(userId, planId, plan.value.name, plan.value.price as real, now, Active));
    } else if o.result == Err(InsertFailed) && RestoreBalance in failing {
      SetBalanceKeeps(t.users, t.balances, t.nextUserId, userId, t.balances[userId] - plan.value.price as real);
    }
  }

  /** A withdrawal request keeps the invariant, in particular the 24-hour spacing. */
  lemma WithdrawKeepsInvariant(t: Tables, userId: UserId, amount: real, payoutMethod: string, details: string, now: int,
                               failing: set<Call>)
    requires Consistent(t)
    ensures var o := Withdraw(t, userId, amount, payoutMethod, details, now, failing);
      Consistent(o.tables)
  {
    var o := Withdraw(t, userId, amount, payoutMethod, details, now, failing);
    if o.result.Ok? {
      var w := Withdrawal(userId, amount, Split(amount).gst, Split(amount).net, payoutMethod, details, now, Pending, None);
      SetBalanceKeeps(t.users, t.balances, t.nextUserId, userId, o.result.value);
      AddWithdrawalKeeps(t.users, t.withdrawals, w);
    } else if o.result == Err(InsertFailed) && RestoreBalance in failing {
      SetBalanceKeeps(t.users, t.balances, t.nextUserId, userId, t.balances[userId] - amount);
    }
  }

  /** A recharge request keeps the invariant and changes no balance. */
  lemma RequestRechargeKeepsInvariant(t: Tables, userId: UserId, amount: real, utr: string, now: int, failing: set<Call>)
    requires Consistent(t)
    ensures var o := RequestRecharge(t, userId, amount, utr, now, failing);
      Consistent(o.tables) && o.tables.balances == t.balances
  {
    var o := RequestRecharge(t, userId, amount, utr, now, failing);
    if o.result.Ok? {
      AddRechargeKeeps(t.recharges, Recharge(userId, amount, utr, now, Pending, None));
    }
  }

  /** Approving a recharge keeps the invariant. */
  lemma ApproveRechargeKeepsInvariant(t: Tables, id: nat, now: int, failing: set<Call>)
    requires Consistent(t)
    ensures var o := ApproveRecharge(t, id, now, failing);
      Consistent(o.tables)
  {
    var o := ApproveRecharge(t, id, now, failing);
    if o.result.Ok? {
      var rc := t.recharges[id];
      SetBalanceKeeps(t.users, t.balances, t.nextUserId, rc.userId, t.balances[rc.userId] + rc.amount);
    }
  }

  /** Rejecting a recharge keeps the invariant and changes no balance. */
  lemma RejectRechargeKeepsInvariant(t: Tables, id: nat, now: int, failing: set<Call>)
    requires Consistent(t)
    ensures var o := RejectRecharge(t, id, now, failing);
      Consistent(o.tables) && o.tables.balances == t.balances
  {
  }

  /** Approving a withdrawal keeps the invariant and changes no balance. */
  lemma ApproveWithdrawalKeepsInvariant(t: Tables, id: nat, now: int, failing: set<Call>)
    requires Consistent(t)
    ensures var o := ApproveWithdrawal(t, id, now, failing);
      Consistent(o.tables) && o.tables.balances == t.balances
  {
    var o := ApproveWithdrawal(t, id, now, failing);
    if o.result.Ok? {
      SetWithdrawalKeeps(t.users, t.withdrawals, id, t.withdrawals[id].(status := Approved, processedDate := Some(now)));
    }
  }

  /** Rejecting a withdrawal keeps the invariant. */
  lemma RejectWithdrawalKeepsInvariant(t: Tables, id: nat, now: int, failing: set<Call>)
    requires Consistent(t)
    ensures var o := RejectWithdrawal(t, id, now, failing);
      Consistent(o.tables)
  {
    var o := RejectWithdrawal(t, id, now, failing);
    if o.result.Ok? {
      var w := t.withdrawals[id];
      SetWithdrawalKeeps(t.users, t.withdrawals, id, w.(status := Rejected, processedDate := Some(now)));
      if IncrementBalance !in failing && w.userId in t.balances {
        SetBalanceKeeps(t.users, t.balances, t.nextUserId, w.userId, t.balances[w.userId] + w.amount);
      }
    }
  }

  /** A manual adjustment keeps the invariant. */
  lemma AdjustBalanceKeepsInvariant(t: Tables, userId: UserId, amount: real, reason: string, adminId: UserId, now: int,
                                    failing: set<Call>)
    requires Consistent(t)
    ensures var o := AdjustBalance(t, userId, amount, reason, adminId, now, failing);
      Consistent(o.tables)
  {
    var o := AdjustBalance(t, userId, amount, reason, adminId, now, failing);
    if o.result.Ok? {
      SetBalanceKeeps(t.users, t.balances, t.nextUserId, userId, t.balances[userId] + amount);
      AddAdjustmentKeeps(t.users, t.adjustments, Adjustment(userId, amount, reason, adminId, now));
    }
  }

  /** Registration gives the new user a zero balance and changes no other. */
  lemma RegisterKeepsSolvency(t: Tables, name: string, email: string, password: string, mobile: string, now: int, failing: set<Call>)
    requires Solvent(t)
    ensures Solvent(Register(t, name, email, password, mobile, now, failing).tables)
  {
  }

  /** A purchase is refused rather than leave the buyer's balance negative. */
  lemma PurchaseKeepsSolvency(t: Tables, userId: UserId, planId: int, startOfMonth: int, now: int, failing: set<Call>)
    requires Solvent(t)
    ensures Solvent(PurchasePlan(t, userId, planId, startOfMonth, now, failing).tables)
  {
  }

  /** A withdrawal request is refused rather than leave the balance negative. */
  lemma WithdrawKeepsSolvency(t: Tables, userId: UserId, amount: real, payoutMethod: string, details: string, now: int,
                              failing: set<Call>)
    requires Solvent(t)
    ensures Solvent(Withdraw(t, userId, amount, payoutMethod, details, now, failing).tables)
  {
  }

  /** Approving a recharge only ever adds its positive amount. */
  lemma ApproveRechargeKeepsSolvency(t: Tables, id: nat, now: int, failing: set<Call>)
    requires Consistent(t) && Solvent(t)
    ensures Solvent(ApproveRecharge(t, id, now, failing).tables)
  {
  }

  /** Rejecting a withdrawal only ever adds back its positive amount. */
  lemma RejectWithdrawalKeepsSolvency(t: Tables, id: nat, now: int, failing: set<Call>)
    requires Consistent(t) && Solvent(t)
    ensures Solvent(RejectWithdrawal(t, id, now, failing).tables)
  {
  }

  /**
   * A manual adjustment keeps balances non-negative when the adjusted balance stays
   * non-negative, which the handler does not check.
   */
  lemma AdjustBalanceKeepsSolvency(t: Tables, userId: UserId, amount: real, reason: string, adminId: UserId, now: int,
                                   failing: set<Call>)
    requires Solvent(t)
    requires userId in t.balances ==> t.balances[userId] + amount >= 0.0
    ensures Solvent(AdjustBalance(t, userId, amount, reason, adminId, now, failing).tables)
  {
  }

  /** Once an email is registered, registering it again is refused. */
  lemma EmailRegisteredOnce(t: Tables, name: string, email: string, password: string, mobile: string, now: int,
                            failing: set<Call>, name2: string, password2: string, mobile2: string, now2: int,
                            failing2: set<Call>)
    requires Register(t, name, email, password, mobile, now, failing).result.Ok?
    ensures var t' := Register(t, name, email, password, mobile, now, failing).tables;
      var o := Register(t', name2, email, password2, mobile2, now2, failing2);
      o.result.Err? && (Lookup !in failing2 ==> o.result == Err(EmailTaken))
  {
    var t' := Register(t, name, email, password, mobile, now, failing).tables;
    assert t'.users[t.nextUserId].email == email;
  }

  /** Any one of the requests that change the ledger, with its inputs and the store calls that fail. */
  datatype Request =
    | RegisterRequest(name: string, email: string, password: string, mobile: string, now: int, failing: set<Call>)
    | PurchaseRequest(userId: UserId, planId: int, startOfMonth: int, now: int, failing: set<Call>)
    | WithdrawRequest(userId: UserId, amount: real, payoutMethod: string, details: string, now: int, failing: set<Call>)
    | RechargeRequest(userId: UserId, amount: real, utr: string, now: int, failing: set<Call>)
    | ApproveRechargeRequest(id: nat, now: int, failing: set<Call>)
    | RejectRechargeRequest(id: nat, now: int, failing: set<Call>)
    | ApproveWithdrawalRequest(id: nat, now: int, failing: set<Call>)
    | RejectWithdrawalRequest(id: nat, now: int, failing: set<Call>)
    | AdjustRequest(userId: UserId, amount: real, reason: string, adminId: UserId, now: int, failing: set<Call>)

  /** The tables after one request. */
  function Apply(t: Tables, req: Request): Tables
  {
    match req
    case RegisterRequest(name, email, password, mobile, now, failing) =>
      Register(t, name, email, password, mobile, now, failing).tables
    case PurchaseRequest(userId, planId, startOfMonth, now, failing) =>
      PurchasePlan(t, userId, planId, startOfMonth, now, failing).tables
    case WithdrawRequest(userId, amount, payoutMethod, details, now, failing) =>
      Withdraw(t, userId, amount, payoutMethod, details, now, failing).tables
    case RechargeRequest(userId, amount, utr, now, failing) =>
      RequestRecharge(t, userId, amount, utr, now, failing).tables
    case ApproveRechargeRequest(id, now, failing) => ApproveRecharge(t, id, now, failing).tables
    case RejectRechargeRequest(id, now, failing) => RejectRecharge(t, id, now, failing).tables
    case ApproveWithdrawalRequest(id, now, failing) => ApproveWithdrawal(t, id, now, failing).tables
    case RejectWithdrawalRequest(id, now, failing) => RejectWithdrawal(t, id, now, failing).tables
    case AdjustRequest(userId, amount, reason, adminId, now, failing) =>
      AdjustBalance(t, userId, amount, reason, adminId, now, failing).tables
  }

  /** The tables after the requests, handled one at a time in order. */
  function Run(t: Tables, reqs: seq<Request>): Tables
    decreases |reqs|
  {
    if reqs == [] then t else Run(Apply(t, reqs[0]), reqs[1..])
  }

  /** No request removes or rewrites an investment: the table is kept, or grows by one row. */
  lemma ApplyAppendsInvestments(t: Tables, req: Request)
    ensures var invs := Apply(t, req).investments;
      invs == t.investments || (|invs| == |t.investments| + 1 && invs == t.investments + [invs[|t.investments|]])
  {
    if req.ApproveRechargeRequest? {
      var o := ApproveRecharge(t, req.id, req.now, req.failing);
      assert o.tables.investments == t.investments;
    }
  }

  /** Once a user has a purchase since `since`, the purchase query stays non-empty whatever requests follow. */
  lemma {:induction false} PurchaseHistoryPersists(t: Tables, reqs: seq<Request>, u: UserId, since: int)
    requires PurchasesSince(t.investments, u, since) != []
    ensures PurchasesSince(Run(t, reqs).investments, u, since) != []
    decreases |reqs|
  {
    if reqs != [] {
      var t' := Apply(t, reqs[0]);
      ApplyAppendsInvestments(t, reqs[0]);
      if t'.investments != t.investments {
        PurchasesSinceAppend(t.investments, t'.investments[|t.investments|], u, since);
      }
      PurchaseHistoryPersists(t', reqs[1..], u, since);
    }
  }

  /**
   * After a purchase, every later purchase by the same user in the same calendar
   * month is refused, whatever requests come in between; once the earlier checks
   * pass, with the monthly limit.
   */
  lemma OnePurchasePerMonth(t: Tables, userId: UserId, planId: int, startOfMonth: int, now: int, failing: set<Call>,
                            between: seq<Request>, planId2: int, now2: int, failing2: set<Call>)
    requires startOfMonth <= now
    requires PurchasePlan(t, userId, planId, startOfMonth, now, failing).result.Ok?
    ensures var t' := Run(PurchasePlan(t, userId, planId, startOfMonth, now, failing).tables, between);
      var o := PurchasePlan(t', userId, planId2, startOfMonth, now2, failing2);
      var plan := FindPlan(PurchasePlans(), planId2);
      && o.result.Err?
      && (Lookup !in failing2 && userId in t'.balances && plan.Some? && plan.value.price as real <= t'.balances[userId]
            && QueryHistory !in failing2
          ==> o.result == Err(MonthlyLimit))
  {
    var t1 := PurchasePlan(t, userId, planId, startOfMonth, now, failing).tables;
    var x := t1.investments[|t.investments|];
    assert x in t1.investments;
    assert x in PurchasesSince(t1.investments, userId, startOfMonth);
    PurchaseHistoryPersists(t1, between, userId, startOfMonth);
  }

  /** No request removes a withdrawal or changes whose it is or when it was requested. */
  lemma ApplyKeepsWithdrawals(t: Tables, req: Request, i: nat)
    requires i < |t.withdrawals|
    ensures var ws := Apply(t, req).withdrawals;
      i < |ws| && ws[i].userId == t.withdrawals[i].userId && ws[i].requestDate == t.withdrawals[i].requestDate
  {
  }

  /** A withdrawal row keeps its user and request time whatever requests follow. */
  lemma {:induction false} WithdrawalPersists(t: Tables, reqs: seq<Request>, i: nat)
    requires i < |t.withdrawals|
    ensures var ws := Run(t, reqs).withdrawals;
      i < |ws| && ws[i].userId == t.withdrawals[i].userId && ws[i].requestDate == t.withdrawals[i].requestDate
    decreases |reqs|
  {
    if reqs != [] {
      ApplyKeepsWithdrawals(t, reqs[0], i);
      WithdrawalPersists(Apply(t, reqs[0]), reqs[1..], i);
    }
  }

  /**
   * After a withdrawal request, every later request by the same user within 24
   * hours is refused, whatever requests come in between; once the earlier checks
   * pass, with the rate limit.
   */
  lemma OneWithdrawalPerDay(t: Tables, userId: UserId, amount: real, payoutMethod: string, details: string, now: int,
                            failing: set<Call>, between: seq<Request>, amount2: real, payoutMethod2: string,
                            details2: string, now2: int, failing2: set<Call>)
    requires Withdraw(t, userId, amount, payoutMethod, details, now, failing).result.Ok?
    requires now2 - DayMs <= now
    ensures var t' := Run(Withdraw(t, userId, amount, payoutMethod, details, now, failing).tables, between);
      var o := Withdraw(t', userId, amount2, payoutMethod2, details2, now2, failing2);
      && o.result.Err?
      && (0.0 < amount2 && Lookup !in failing2 && userId in t'.balances && amount2 <= t'.balances[userId]
            && QueryHistory !in failing2
          ==> o.result == Err(RateLimited))
  {
    var t1 := Withdraw(t, userId, amount, payoutMethod, details, now, failing).tables;
    var t' := Run(t1, between);
    var k := |t.withdrawals|;
    assert t1.withdrawals[k].userId == userId && t1.withdrawals[k].requestDate == now;
    WithdrawalPersists(t1, between, k);
    var w := t'.withdrawals[k];
    assert w in t'.withdrawals;
    assert w in WithdrawalsSince(t'.withdrawals, userId, now2 - DayMs);
  }

  /** Rejecting a withdrawal request refunds it: the balances are those before the request. */
  lemma RejectionRefunds(t: Tables, userId: UserId, amount: real, payoutMethod: string, details: string, now: int,
                         failing: set<Call>, now2: int, failing2: set<Call>)
    requires Withdraw(t, userId, amount, payoutMethod, details, now, failing).result.Ok?
    requires Lookup !in failing2 && WriteStatus !in failing2 && IncrementBalance !in failing2
    ensures var t' := Withdraw(t, userId, amount, payoutMethod, details, now, failing).tables;
      var o := RejectWithdrawal(t', |t.withdrawals|, now2, failing2);
      && o.result.Ok?
      && o.tables.balances == t.balances
      && o.tables.withdrawals[|t.withdrawals|].status == Rejected
  {
    var t' := Withdraw(t, userId, amount, payoutMethod, details, now, failing).tables;
    var w := t'.withdrawals[|t.withdrawals|];
    assert w.userId == userId && w.amount == amount;
    assert t'.balances[userId := t'.balances[userId] + amount] == t.balances;
  }

  /** Approving a recharge request credits exactly its amount to its user. */
  lemma ApprovalCredits(t: Tables, userId: UserId, amount: real, utr: string, now: int, failing: set<Call>,
                        now2: int, failing2: set<Call>)
    requires RequestRecharge(t, userId, amount, utr, now, failing).result.Ok?
    requires userId in t.balances
    requires Lookup !in failing2 && WriteStatus !in failing2 && IncrementBalance !in failing2
    ensures var t' := RequestRecharge(t, userId, amount, utr, now, failing).tables;
      var o := ApproveRecharge(t', |t.recharges|, now2, failing2);
      && o.result.Ok?
      && o.tables.balances == t.balances[userId := t.balances[userId] + amount]
      && o.tables.recharges[|t.recharges|].status == Approved
  {
    var t' := RequestRecharge(t, userId, amount, utr, now, failing).tables;
    assert t'.recharges[|t.recharges|] == Recharge(userId, amount, utr, now, Pending, None);
  }

  /** A recharge request is decided at most once: after an approval or a rejection, both are refused. */
  lemma RechargeDecidedOnce(t: Tables, id: nat, approve: bool, now: int, failing: set<Call>, now2: int, failing2: set<Call>)
    requires (if approve then ApproveRecharge(t, id, now, failing) else RejectRecharge(t, id, now, failing)).result.Ok?
    requires Lookup !in failing2
    ensures var t' := (if approve then ApproveRecharge(t, id, now, failing) else RejectRecharge(t, id, now, failing)).tables;
      && ApproveRecharge(t', id, now2, failing2).result == Err(NotPending)
      && RejectRecharge(t', id, now2, failing2).result == Err(NotPending)
  {
  }

  /** A withdrawal request is decided at most once: after an approval or a rejection, both are refused. */
  lemma WithdrawalDecidedOnce(t: Tables, id: nat, approve: bool, now: int, failing: set<Call>, now2: int, failing2: set<Call>)
    requires (if approve then ApproveWithdrawal(t, id, now, failing) else RejectWithdrawal(t, id, now, failing)).result.Ok?
    requires Lookup !in failing2
    ensures var t' := (if approve then ApproveWithdrawal(t, id, now, failing) else RejectWithdrawal(t, id, now, failing)).tables;
      && ApproveWithdrawal(t', id, now2, failing2).result == Err(NotPending)
      && RejectWithdrawal(t', id, now2, failing2).result == Err(NotPending)
  {
  }

  /** An adjustment followed by the opposite adjustment of the same user leaves the balances as they were. */
  lemma AdjustmentsCancel(t: Tables, userId: UserId, amount: real, reason: string, adminId: UserId, now: int,
                          failing: set<Call>, reason2: string, adminId2: UserId, now2: int, failing2: set<Call>)
    requires AdjustBalance(t, userId, amount, reason, adminId, now, failing).result.Ok?
    requires reason2 != "" && IncrementBalance !in failing2
    ensures var t' := AdjustBalance(t, userId, amount, reason, adminId, now, failing).tables;
      var o := AdjustBalance(t', userId, -amount, reason2, adminId2, now2, failing2);
      o.result.Ok? && o.tables.balances == t.balances
  {
    var t' := AdjustBalance(t, userId, amount, reason, adminId, now, failing).tables;
    assert t'.balances[userId := t'.balances[userId] + -amount] == t.balances;
  }

  /**
   * A negative adjustment larger than a user's balance succeeds and leaves that
   * balance negative: the handler does not check the result.
   */
  lemma AdjustmentCanOverdraw(t: Tables, userId: UserId, amount: real, reason: string, adminId: UserId, now: int,
                              failing: set<Call>)
    requires userId != 0 && userId in t.balances && reason != "" && IncrementBalance !in failing
    requires amount < 0.0 && t.balances[userId] + amount < 0.0
    ensures var o := AdjustBalance(t, userId, amount, reason, adminId, now, failing);
      o.result.Ok? && o.tables.balances[userId] < 0.0 && !Solvent(o.tables)
  {
    var o := AdjustBalance(t, userId, amount, reason, adminId, now, failing);
    assert userId in o.tables.balances;
  }

  /**
   * When the credit of an approved recharge fails and so does the write that would
   * set it back to pending, the recharge stays approved without its amount ever
   * being credited, and every later approval or rejection is refused.
   */
  lemma FailedRevertStrandsRecharge(t: Tables, id: nat, now: int, failing: set<Call>, now2: int, failing2: set<Call>)
    requires ApproveRecharge(t, id, now, failing).result == Err(BalanceUpdateFailed)
    requires RestoreStatus in failing && Lookup !in failing2
    ensures var t' := ApproveRecharge(t, id, now, failing).tables;
      && t'.balances == t.balances
      && t'.recharges[id].status == Approved
      && ApproveRecharge(t', id, now2, failing2).result == Err(NotPending)
      && RejectRecharge(t', id, now2, failing2).result == Err(NotPending)
  {
  }
}
