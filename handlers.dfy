/**
 * The route handlers of backend/server.js that change the wallet ledger, each as a
 * transition of the store's tables: given the tables before the request, the
 * request's inputs and the store calls that fail, the response and the tables after.
 *
 * Each handler is a sequence of store calls (read, check, write, insert) with a
 * compensating write when a later call fails. Which store calls fail is an input:
 * a call listed in `failing` fails and has no effect, every other call succeeds.
 */
module Handlers {
  import opened Options
  import opened Plans
  import opened Records

  /** The error kinds the handlers report, one per distinct error response. */
  datatype Error =
    | LookupFailed
    | EmailTaken
    | InvalidPlan
    | InsufficientBalance
    | QueryFailed
    | MonthlyLimit
    | BalanceUpdateFailed
    | InsertFailed
    | InvalidAmount
    | InvalidUtr
    | RateLimited
    | NotFound
    | NotPending
    | StatusUpdateFailed
    | MissingField

  datatype Result<+T> = Ok(value: T) | Err(error: Error)

  /** The store calls a handler makes, named by their role in the handler. */
  datatype Call =
    | Lookup            // the first read: the caller's user row, the existing-email query, the request row
    | QueryHistory      // the rate-limit query over the caller's investments or withdrawals
    | WriteBalance      // the update that writes the debited balance
    | InsertRow         // the insert of the new investment, withdrawal, recharge, user or audit row
    | RestoreBalance    // the update that writes the old balance back after a failed insert
    | WriteStatus       // the admin update of a request's status
    | IncrementBalance  // the `increment_user_balance` procedure
    | RestoreStatus     // the update that sets an approved recharge back to pending

  /**
   * The tables the handlers read and write. A user's balance column is kept in
   * `balances`, apart from the rest of the user row. Request rows are identified by
   * their position in their table.
   */
  datatype Tables = Tables(
    users: map<UserId, User>,
    balances: map<UserId, real>,
    nextUserId: UserId,
    investments: seq<Investment>,
    withdrawals: seq<Withdrawal>,
    recharges: seq<Recharge>,
    adjustments: seq<Adjustment>)

  /** A handler's response together with the tables it leaves behind. */
  datatype Outcome<+T> = Outcome(result: Result<T>, tables: Tables)

  /** The tables of a fresh deployment. */
  function Empty(): Tables
  {
    Tables(map[], map[], 1, [], [], [], [])
  }

  /** Some registered user has this email. */
  predicate EmailInUse(users: map<UserId, User>, email: string)
  {
    exists id :: id in users && users[id].email == email
  }

  /** User ids are handed out from 1 upwards, no two users share an email, and every user has a balance. */
  ghost predicate UsersConsistent(users: map<UserId, User>, balances: map<UserId, real>, nextUserId: UserId)
  {
    && 1 <= nextUserId
    && (forall id :: id in users ==> 1 <= id < nextUserId)
    && (forall a, b :: a in users && b in users && a != b ==> users[a].email != users[b].email)
    && balances.Keys == users.Keys
  }

  /** Every investment is an active one of a registered user, for a positive amount. */
  ghost predicate InvestmentsConsistent(users: map<UserId, User>, investments: seq<Investment>)
  {
    forall i :: 0 <= i < |investments| ==>
      investments[i].userId in users && investments[i].status == Active && investments[i].amount > 0.0
  }

  /** Every withdrawal is a well-formed one of a registered user, and no user has two within 24 hours. */
  ghost predicate WithdrawalsConsistent(users: map<UserId, User>, withdrawals: seq<Withdrawal>)
  {
    && (forall i :: 0 <= i < |withdrawals| ==> withdrawals[i].userId in users && WellFormedWithdrawal(withdrawals[i]))
    && Spaced(withdrawals)
  }

  /** Every recharge is well-formed. Its user is not checked when it is recorded. */
  ghost predicate RechargesConsistent(recharges: seq<Recharge>)
  {
    forall i :: 0 <= i < |recharges| ==> WellFormedRecharge(recharges[i])
  }

  /** Every audit row is about a registered user. */
  ghost predicate AdjustmentsConsistent(users: map<UserId, User>, adjustments: seq<Adjustment>)
  {
    forall i :: 0 <= i < |adjustments| ==> adjustments[i].userId in users
  }

  /** The invariant every handler keeps, table by table. */
  ghost predicate Consistent(t: Tables)
  {
    && UsersConsistent(t.users, t.balances, t.nextUserId)
    && InvestmentsConsistent(t.users, t.investments)
    && WithdrawalsConsistent(t.users, t.withdrawals)
    && RechargesConsistent(t.recharges)
    && AdjustmentsConsistent(t.users, t.adjustments)
  }

  /** No user's balance is negative. */
  ghost predicate Solvent(t: Tables)
  {
    forall id :: id in t.balances ==> t.balances[id] >= 0.0
  }

  /** The user credited by a successful call of the `increment_user_balance` procedure. */
  function Credit(balances: map<UserId, real>, u: UserId, amount: real): map<UserId, real>
    requires u in balances
  {
    balances[u := balances[u] + amount]
  }

  /** POST /api/register: a new user with balance 0, unless the email is taken. */
  function Register(t: Tables, name: string, email: string, password: string, mobile: string, now: int, failing: set<Call>)
    : (o: Outcome<UserId>)
    ensures o.result.Ok? <==> Lookup !in failing && !EmailInUse(t.users, email) && InsertRow !in failing
    ensures Lookup in failing ==> o.result == Err(LookupFailed)
    ensures Lookup !in failing && EmailInUse(t.users, email) ==> o.result == Err(EmailTaken)
    ensures Lookup !in failing && !EmailInUse(t.users, email) && InsertRow in failing ==> o.result == Err(InsertFailed)
    ensures o.result.Err? ==> o.tables == t
    ensures Consistent(t) && o.result.Ok? ==> o.result.value !in t.users
    ensures o.result.Ok? ==>
      && o.tables.users == t.users[o.result.value := User(name, email, password, mobile, now)]
      && o.tables.balances == t.balances[o.result.value := 0.0]
      && o.tables == t.(users := o.tables.users, balances := o.tables.balances, nextUserId := o.tables.nextUserId)
  {
    if Lookup in failing then Outcome(Err(LookupFailed), t)
    else if EmailInUse(t.users, email) then Outcome(Err(EmailTaken), t)
    else if InsertRow in failing then Outcome(Err(InsertFailed), t)
    else
      var id := t.nextUserId;
      Outcome(Ok(id), t.(users := t.users[id := User(name, email, password, mobile, now)],
                         balances := t.balances[id := 0.0],
                         nextUserId := id + 1))
  }

  /**
   * POST /api/purchase-plan: debits the plan's price and records an active
   * investment, at most one purchase per calendar month. `startOfMonth` is
   * midnight on the first of the month that contains `now`.
   */
  function PurchasePlan(t: Tables, userId: UserId, planId: int, startOfMonth: int, now: int, failing: set<Call>)
    : (o: Outcome<real>)
    ensures var plan := FindPlan(PurchasePlans(), planId);
      o.result.Ok? <==>
        && Lookup !in failing && userId in t.balances
        && plan.Some? && plan.value.price as real <= t.balances[userId]
        && QueryHistory !in failing && PurchasesSince(t.investments, userId, startOfMonth) == []
        && WriteBalance !in failing && InsertRow !in failing
    ensures var plan := FindPlan(PurchasePlans(), planId);
      o.result.Ok? ==>
        && plan.Some?
        && o.result.value == t.balances[userId] - plan.value.price as real
        && o.result.value >= 0.0
        && o.tables == t.(balances := t.balances[userId := o.result.value],
                          investments := t.investments + [Investment(userId, planId, plan.value.name, plan.value.price as real, now, Active)])
    ensures Lookup in failing || userId !in t.balances ==> o.result == Err(LookupFailed)
    ensures var plan := FindPlan(PurchasePlans(), planId);
      Lookup !in failing && userId in t.balances ==>
        && (plan.None? ==> o.result == Err(InvalidPlan))
        && (plan.Some? && t.balances[userId] < plan.value.price as real ==> o.result == Err(InsufficientBalance))
        && (plan.Some? && plan.value.price as real <= t.balances[userId] && QueryHistory !in failing
              && PurchasesSince(t.investments, userId, startOfMonth) != []
            ==> o.result == Err(MonthlyLimit))
        && (plan.Some? && plan.value.price as real <= t.balances[userId] && QueryHistory in failing
            ==> o.result == Err(QueryFailed))
        && (plan.Some? && plan.value.price as real <= t.balances[userId] && QueryHistory !in failing
              && PurchasesSince(t.investments, userId, startOfMonth) == []
            ==> && (WriteBalance in failing ==> o.result == Err(BalanceUpdateFailed))
                && (WriteBalance !in failing && InsertRow in failing ==> o.result == Err(InsertFailed)))
    ensures o.result.Err? && (o.result.error != InsertFailed || RestoreBalance !in failing) ==> o.tables == t
    ensures var plan := FindPlan(PurchasePlans(), planId);
      o.result == Err(InsertFailed) && RestoreBalance in failing ==>
        && plan.Some? && userId in t.balances
        && o.tables == t.(balances := t.balances[userId := t.balances[userId] - plan.value.price as real])
  {
    if Lookup in failing || userId !in t.balances then Outcome(Err(LookupFailed), t)
    else
      var balance := t.balances[userId];
      var plan := FindPlan(PurchasePlans(), planId);
      if plan.None? then Outcome(Err(InvalidPlan), t)
      else if balance < plan.value.price as real then Outcome(Err(InsufficientBalance), t)
      else if QueryHistory in failing then Outcome(Err(QueryFailed), t)
      else if PurchasesSince(t.investments, userId, startOfMonth) != [] then Outcome(Err(MonthlyLimit), t)
      else if WriteBalance in failing then Outcome(Err(BalanceUpdateFailed), t)
      else
        var newBalance := balance - plan.value.price as real;
        var debited := t.(balances := t.balances[userId := newBalance]);
        if InsertRow in failing then
          var restored := debited.(balances := debited.balances[userId := balance]);
          assert RestoreBalance !in failing ==> restored == t by {
            assert restored.balances == t.balances;
          }
          Outcome(Err(InsertFailed), if RestoreBalance in failing then debited else restored)
        else
          var investment := Investment(userId, planId, plan.value.name, plan.value.price as real, now, Active);
          Outcome(Ok(newBalance), debited.(investments := t.investments + [investment]))
  }

  /**
   * POST /api/withdraw: debits the gross amount at once and records a pending
   * request carrying the 5 % GST split, at most one request per rolling 24 hours.
   */
  function Withdraw(t: Tables, userId: UserId, amount: real, payoutMethod: string, details: string, now: int, failing: set<Call>)
    : (o: Outcome<real>)
    ensures o.result.Ok? <==>
      && 0.0 < amount
      && Lookup !in failing && userId in t.balances && amount <= t.balances[userId]
      && QueryHistory !in failing && WithdrawalsSince(t.withdrawals, userId, now - DayMs) == []
      && WriteBalance !in failing && InsertRow !in failing
    ensures o.result.Ok? ==>
      && o.result.value == t.balances[userId] - amount
      && o.result.value >= 0.0
      && o.tables == t.(balances := t.balances[userId := o.result.value],
                        withdrawals := t.withdrawals +
                          [Withdrawal(userId, amount, Split(amount).gst, Split(amount).net, payoutMethod, details, now, Pending, None)])
    ensures amount <= 0.0 ==> o.result == Err(InvalidAmount)
    ensures 0.0 < amount && (Lookup in failing || userId !in t.balances) ==> o.result == Err(LookupFailed)
    ensures 0.0 < amount && Lookup !in failing && userId in t.balances ==>
      && (t.balances[userId] < amount ==> o.result == Err(InsufficientBalance))
      && (amount <= t.balances[userId] && QueryHistory !in failing
            && WithdrawalsSince(t.withdrawals, userId, now - DayMs) != []
          ==> o.result == Err(RateLimited))
      && (amount <= t.balances[userId] && QueryHistory in failing ==> o.result == Err(QueryFailed))
      && (amount <= t.balances[userId] && QueryHistory !in failing
            && WithdrawalsSince(t.withdrawals, userId, now - DayMs) == []
          ==> && (WriteBalance in failing ==> o.result == Err(BalanceUpdateFailed))
              && (WriteBalance !in failing && InsertRow in failing ==> o.result == Err(InsertFailed)))
    ensures o.result.Err? && (o.result.error != InsertFailed || RestoreBalance !in failing) ==> o.tables == t
    ensures o.result == Err(InsertFailed) && RestoreBalance in failing ==>
      && userId in t.balances
      && o.tables == t.(balances := t.balances[userId := t.balances[userId] - amount])
  {
    if amount <= 0.0 then Outcome(Err(InvalidAmount), t)
    else if Lookup in failing || userId !in t.balances then Outcome(Err(LookupFailed), t)
    else
      var balance := t.balances[userId];
      if balance < amount then Outcome(Err(InsufficientBalance), t)
      else if QueryHistory in failing then Outcome(Err(QueryFailed), t)
      else if WithdrawalsSince(t.withdrawals, userId, now - DayMs) != [] then Outcome(Err(RateLimited), t)
      else if WriteBalance in failing then Outcome(Err(BalanceUpdateFailed), t)
      else
        var split := Split(amount);
        var newBalance := balance - amount;
        var debited := t.(balances := t.balances[userId := newBalance]);
        if InsertRow in failing then
          var restored := debited.(balances := debited.balances[userId := balance]);
          assert RestoreBalance !in failing ==> restored == t by {
            assert restored.balances == t.balances;
          }
          Outcome(Err(InsertFailed), if RestoreBalance in failing then debited else restored)
        else
          var w := Withdrawal(userId, amount, split.gst, split.net, payoutMethod, details, now, Pending, None);
          Outcome(Ok(newBalance), debited.(withdrawals := t.withdrawals + [w]))
  }

  /** POST /api/recharge: records a pending deposit request; no balance changes. */
  function RequestRecharge(t: Tables, userId: UserId, amount: real, utr: string, now: int, failing: set<Call>)
    : (o: Outcome<()>)
    ensures o.result.Ok? <==> 0.0 < amount && |utr| >= 5 && InsertRow !in failing
    ensures amount <= 0.0 ==> o.result == Err(InvalidAmount)
    ensures 0.0 < amount && |utr| < 5 ==> o.result == Err(InvalidUtr)
    ensures 0.0 < amount && |utr| >= 5 && InsertRow in failing ==> o.result == Err(InsertFailed)
    ensures o.result.Ok? ==> o.tables == t.(recharges := t.recharges + [Recharge(userId, amount, utr, now, Pending, None)])
    ensures o.result.Err? ==> o.tables == t
  {
    if amount <= 0.0 then Outcome(Err(InvalidAmount), t)
    else if |utr| < 5 then Outcome(Err(InvalidUtr), t)
    else if InsertRow in failing then Outcome(Err(InsertFailed), t)
    else Outcome(Ok(()), t.(recharges := t.recharges + [Recharge(userId, amount, utr, now, Pending, None)]))
  }

  /**
   * POST /api/admin/recharge/:id/approve: marks a pending recharge approved, then
   * credits its amount; when the credit fails the status is set back to pending.
   */
  function ApproveRecharge(t: Tables, id: nat, now: int, failing: set<Call>): (o: Outcome<()>)
    ensures o.result.Ok? <==>
      && Lookup !in failing && id < |t.recharges| && t.recharges[id].status == Pending
      && WriteStatus !in failing && IncrementBalance !in failing && t.recharges[id].userId in t.balances
    ensures o.result.Ok? ==>
      && var rc := t.recharges[id];
      && o.tables == t.(recharges := t.recharges[id := rc.(status := Approved, processedDate := Some(now))],
                        balances := Credit(t.balances, rc.userId, rc.amount))
    ensures Lookup in failing ==> o.result == Err(LookupFailed)
    ensures Lookup !in failing ==>
      && (id >= |t.recharges| ==> o.result == Err(NotFound))
      && (id < |t.recharges| && t.recharges[id].status != Pending ==> o.result == Err(NotPending))
      && (id < |t.recharges| && t.recharges[id].status == Pending && WriteStatus in failing
          ==> o.result == Err(StatusUpdateFailed))
      && (id < |t.recharges| && t.recharges[id].status == Pending && WriteStatus !in failing
            && (IncrementBalance in failing || t.recharges[id].userId !in t.balances)
          ==> o.result == Err(BalanceUpdateFailed))
    ensures o.result.Err? ==> o.tables.balances == t.balances
    ensures o.result.Err? && o.result.error != BalanceUpdateFailed ==> o.tables == t
    ensures Consistent(t) && o.result == Err(BalanceUpdateFailed) && RestoreStatus !in failing ==> o.tables == t
    ensures o.result == Err(BalanceUpdateFailed) && RestoreStatus in failing ==>
      && id < |t.recharges|
      && o.tables == t.(recharges := t.recharges[id := t.recharges[id].(status := Approved, processedDate := Some(now))])
  {
    if Lookup in failing then Outcome(Err(LookupFailed), t)
    else if id >= |t.recharges| then Outcome(Err(NotFound), t)
    else
      var rc := t.recharges[id];
      if rc.status != Pending then Outcome(Err(NotPending), t)
      else if WriteStatus in failing then Outcome(Err(StatusUpdateFailed), t)
      else
        var approved := t.(recharges := t.recharges[id := rc.(status := Approved, processedDate := Some(now))]);
        if IncrementBalance in failing || rc.userId !in t.balances then
          var reverted := approved.(recharges := approved.recharges[id := rc.(status := Pending, processedDate := None)]);
          assert Consistent(t) && RestoreStatus !in failing ==> reverted == t by {
            if Consistent(t) {
              assert WellFormedRecharge(t.recharges[id]);
              assert reverted.recharges == t.recharges;
            }
          }
          Outcome(Err(BalanceUpdateFailed), if RestoreStatus in failing then approved else reverted)
        else
          Outcome(Ok(()), approved.(balances := Credit(t.balances, rc.userId, rc.amount)))
  }

  /** POST /api/admin/recharge/:id/reject: marks a pending recharge rejected; no balance changes. */
  function RejectRecharge(t: Tables, id: nat, now: int, failing: set<Call>): (o: Outcome<()>)
    ensures o.result.Ok? <==> Lookup !in failing && id < |t.recharges| && t.recharges[id].status == Pending && WriteStatus !in failing
    ensures Lookup in failing ==> o.result == Err(LookupFailed)
    ensures Lookup !in failing ==>
      && (id >= |t.recharges| ==> o.result == Err(NotFound))
      && (id < |t.recharges| && t.recharges[id].status != Pending ==> o.result == Err(NotPending))
      && (id < |t.recharges| && t.recharges[id].status == Pending && WriteStatus in failing
          ==> o.result == Err(StatusUpdateFailed))
    ensures o.result.Ok? ==>
      o.tables == t.(recharges := t.recharges[id := t.recharges[id].(status := Rejected, processedDate := Some(now))])
    ensures o.result.Err? ==> o.tables == t
  {
    if Lookup in failing then Outcome(Err(LookupFailed), t)
    else if id >= |t.recharges| then Outcome(Err(NotFound), t)
    else
      var rc := t.recharges[id];
      if rc.status != Pending then Outcome(Err(NotPending), t)
      else if WriteStatus in failing then Outcome(Err(StatusUpdateFailed), t)
      else Outcome(Ok(()), t.(recharges := t.recharges[id := rc.(status := Rejected, processedDate := Some(now))]))
  }

  /**
   * POST /api/admin/withdrawal/:id/approve: marks a pending withdrawal approved;
   * the gross amount was debited when the request was made.
   */
  function ApproveWithdrawal(t: Tables, id: nat, now: int, failing: set<Call>): (o: Outcome<()>)
    ensures o.result.Ok? <==>
      Lookup !in failing && id < |t.withdrawals| && t.withdrawals[id].status == Pending && WriteStatus !in failing
    ensures Lookup in failing ==> o.result == Err(LookupFailed)
    ensures Lookup !in failing ==>
      && (id >= |t.withdrawals| ==> o.result == Err(NotFound))
      && (id < |t.withdrawals| && t.withdrawals[id].status != Pending ==> o.result == Err(NotPending))
      && (id < |t.withdrawals| && t.withdrawals[id].status == Pending && WriteStatus in failing
          ==> o.result == Err(StatusUpdateFailed))
    ensures o.result.Ok? ==>
      o.tables == t.(withdrawals := t.withdrawals[id := t.withdrawals[id].(status := Approved, processedDate := Some(now))])
    ensures o.result.Err? ==> o.tables == t
  {
    if Lookup in failing then Outcome(Err(LookupFailed), t)
    else if id >= |t.withdrawals| then Outcome(Err(NotFound), t)
    else
      var w := t.withdrawals[id];
      if w.status != Pending then Outcome(Err(NotPending), t)
      else if WriteStatus in failing then Outcome(Err(StatusUpdateFailed), t)
      else Outcome(Ok(()), t.(withdrawals := t.withdrawals[id := w.(status := Approved, processedDate := Some(now))]))
  }

  /**
   * POST /api/admin/withdrawal/:id/reject: marks a pending withdrawal rejected,
   * then refunds the gross amount; a failed refund is ignored and the call still
   * succeeds.
   */
  function RejectWithdrawal(t: Tables, id: nat, now: int, failing: set<Call>): (o: Outcome<()>)
    ensures o.result.Ok? <==>
      Lookup !in failing && id < |t.withdrawals| && t.withdrawals[id].status == Pending && WriteStatus !in failing
    ensures Lookup in failing ==> o.result == Err(LookupFailed)
    ensures Lookup !in failing ==>
      && (id >= |t.withdrawals| ==> o.result == Err(NotFound))
      && (id < |t.withdrawals| && t.withdrawals[id].status != Pending ==> o.result == Err(NotPending))
      && (id < |t.withdrawals| && t.withdrawals[id].status == Pending && WriteStatus in failing
          ==> o.result == Err(StatusUpdateFailed))
    ensures o.result.Ok? ==>
      && var w := t.withdrawals[id];
      && var rejected := t.withdrawals[id := w.(status := Rejected, processedDate := Some(now))];
      && o.tables == if IncrementBalance in failing || w.userId !in t.balances then t.(withdrawals := rejected)
                     else t.(withdrawals := rejected, balances := Credit(t.balances, w.userId, w.amount))
    ensures o.result.Err? ==> o.tables == t
  {
    if Lookup in failing then Outcome(Err(LookupFailed), t)
    else if id >= |t.withdrawals| then Outcome(Err(NotFound), t)
    else
      var w := t.withdrawals[id];
      if w.status != Pending then Outcome(Err(NotPending), t)
      else if WriteStatus in failing then Outcome(Err(StatusUpdateFailed), t)
      else
        var rejected := t.(withdrawals := t.withdrawals[id := w.(status := Rejected, processedDate := Some(now))]);
        if IncrementBalance in failing || w.userId !in t.balances then Outcome(Ok(()), rejected)
        else Outcome(Ok(()), rejected.(balances := Credit(t.balances, w.userId, w.amount)))
  }

  /**
   * POST /api/admin/user/balance-adjust: adds a signed amount to a user's balance
   * and logs an audit row; a failed audit insert is ignored. User id 0 stands for
   * a missing id, and a zero amount or an empty reason count as missing, as in the
   * handler's truthiness test. Nothing keeps the balance from going negative.
   */
  function AdjustBalance(t: Tables, userId: UserId, amount: real, reason: string, adminId: UserId, now: int, failing: set<Call>)
    : (o: Outcome<()>)
    ensures o.result.Ok? <==>
      userId != 0 && amount != 0.0 && reason != "" && IncrementBalance !in failing && userId in t.balances
    ensures userId == 0 || amount == 0.0 || reason == "" ==> o.result == Err(MissingField)
    ensures userId != 0 && amount != 0.0 && reason != "" && (IncrementBalance in failing || userId !in t.balances)
      ==> o.result == Err(BalanceUpdateFailed)
    ensures o.result.Ok? ==>
      && var credited := Credit(t.balances, userId, amount);
      && o.tables == if InsertRow in failing then t.(balances := credited)
                     else t.(balances := credited, adjustments := t.adjustments + [Adjustment(userId, amount, reason, adminId, now)])
    ensures o.result.Err? ==> o.tables == t
  {
    if userId == 0 || amount == 0.0 || reason == "" then Outcome(Err(MissingField), t)
    else if IncrementBalance in failing || userId !in t.balances then Outcome(Err(BalanceUpdateFailed), t)
    else
      var credited := t.(balances := Credit(t.balances, userId, amount));
      if InsertRow in failing then Outcome(Ok(()), credited)
      else Outcome(Ok(()), credited.(adjustments := t.adjustments + [Adjustment(userId, amount, reason, adminId, now)]))
  }
}
