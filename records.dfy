/**
 * The rows of the server's tables (users, investments, withdrawals, recharges and
 * balance adjustments), the GST split of a withdrawal, the two history queries the
 * rate limits are built on, and the invariants the tables keep.
 *
 * Money is an exact `real` (the server computes with JavaScript numbers); times are
 * integer milliseconds since the epoch.
 */
module Records {
  import opened Options

  type UserId = nat

  /** The rolling window of the withdrawal rate limit: 24 hours, in milliseconds. */
  const DayMs: int := 24 * 60 * 60 * 1000

  /** The status strings the server writes: investments are `active`; requests are `pending`, `approved` or `rejected`. */
  datatype Status = Active | Pending | Approved | Rejected

  /** A user row without its balance column, which the ledger keeps apart. */
  datatype User = User(name: string, email: string, password: string, mobile: string, createdAt: int)

  datatype Investment = Investment(userId: UserId, planId: int, planName: string, amount: real, purchaseDate: int, status: Status)

  datatype Withdrawal = Withdrawal(
    userId: UserId, amount: real, gst: real, net: real, payoutMethod: string, details: string,
    requestDate: int, status: Status, processedDate: Option<int>)

  datatype Recharge = Recharge(userId: UserId, amount: real, utr: string, requestDate: int, status: Status, processedDate: Option<int>)

  /** The audit row of a manual balance adjustment. */
  datatype Adjustment = Adjustment(userId: UserId, amount: real, reason: string, adminId: UserId, date: int)

  /** A gross withdrawal amount split into the GST withheld and the net amount paid out. */
  datatype GstSplit = GstSplit(gst: real, net: real)

  /** The 5 % GST deduction of a withdrawal: the parts add up to the gross amount exactly. */
  function Split(amount: real): (s: GstSplit)
    ensures s.gst + s.net == amount
    ensures 20.0 * s.gst == amount
    ensures amount > 0.0 ==> 0.0 < s.gst < s.net < amount
  {
    var gst := amount * 0.05;
    GstSplit(gst, amount - gst)
  }

  /** The investments of user `u` purchased at or after `since`, in table order. */
  function PurchasesSince(invs: seq<Investment>, u: UserId, since: int): (r: seq<Investment>)
    ensures forall x :: x in r <==> x in invs && x.userId == u && x.purchaseDate >= since
  {
    if invs == [] then []
    else
      assert invs == [invs[0]] + invs[1..];
      (if invs[0].userId == u && invs[0].purchaseDate >= since then [invs[0]] else [])
      + PurchasesSince(invs[1..], u, since)
  }

  /** The withdrawals of user `u` requested at or after `since`, in table order. */
  function WithdrawalsSince(ws: seq<Withdrawal>, u: UserId, since: int): (r: seq<Withdrawal>)
    ensures forall x :: x in r <==> x in ws && x.userId == u && x.requestDate >= since
  {
    if ws == [] then []
    else
      assert ws == [ws[0]] + ws[1..];
      (if ws[0].userId == u && ws[0].requestDate >= since then [ws[0]] else [])
      + WithdrawalsSince(ws[1..], u, since)
  }

  /** Appending a row extends the purchase query's answer by that row exactly when it matches. */
  lemma {:induction false} PurchasesSinceAppend(invs: seq<Investment>, x: Investment, u: UserId, since: int)
    ensures PurchasesSince(invs + [x], u, since) ==
      PurchasesSince(invs, u, since) + (if x.userId == u && x.purchaseDate >= since then [x] else [])
  {
    if invs == [] {
      assert invs + [x] == [x];
    } else {
      assert (invs + [x])[0] == invs[0];
      assert (invs + [x])[1..] == invs[1..] + [x];
      PurchasesSinceAppend(invs[1..], x, u, since);
    }
  }

  /** No two withdrawals of one user are requested within 24 hours of each other. */
  ghost predicate Spaced(ws: seq<Withdrawal>)
  {
    forall i, j :: 0 <= i < j < |ws| && ws[i].userId == ws[j].userId ==>
      ws[i].requestDate + DayMs < ws[j].requestDate
  }

  /** A withdrawal appended when its user has none in the preceding 24 hours keeps the table spaced. */
  lemma SpacedAppend(ws: seq<Withdrawal>, w: Withdrawal)
    requires WithdrawalsSince(ws, w.userId, w.requestDate - DayMs) == []
    ensures Spaced(ws) ==> Spaced(ws + [w])
  {
    if Spaced(ws) {
      var ws' := ws + [w];
      forall i, j | 0 <= i < j < |ws'| && ws'[i].userId == ws'[j].userId
        ensures ws'[i].requestDate + DayMs < ws'[j].requestDate
      {
        if j == |ws| {
          assert ws[i] in ws;
          assert ws[i] !in WithdrawalsSince(ws, w.userId, w.requestDate - DayMs);
        }
      }
    }
  }

  /** A request row is processed exactly when it has left `pending`. */
  predicate ProcessedWhenDecided(status: Status, processedDate: Option<int>)
  {
    status != Active && (status == Pending <==> processedDate.None?)
  }

  /** A withdrawal row as the withdrawal handler writes it and the admin handlers keep it. */
  predicate WellFormedWithdrawal(w: Withdrawal)
  {
    w.amount > 0.0 && Split(w.amount) == GstSplit(w.gst, w.net) && ProcessedWhenDecided(w.status, w.processedDate)
  }

  /** A recharge row as the recharge handler writes it and the admin handlers keep it. */
  predicate WellFormedRecharge(r: Recharge)
  {
    r.amount > 0.0 && |r.utr| >= 5 && ProcessedWhenDecided(r.status, r.processedDate)
  }
}
