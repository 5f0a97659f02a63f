/**
 * The leave-balance card: the counts shown for one balance row, the
 * available balance computed from them, and the year selector. The rows
 * come from `normalizeLeaveBalance` (the `Api` model). The card
 * only displays what the backend sends; it never changes a balance.
 */
module LeaveBalanceCard {
  import opened Js
  import opened Records
  import opened Api

  /** `count ?? 0`: `undefined` and `null` both read as 0. */
  function OrZero(count: Nullable<real>): real {
    if count.Val? then count.value else 0.0
  }

  /**
   * The available balance, `(total ?? 0) - (used ?? 0) - (pending ?? 0)`:
   * adding the used and pending days back gives the total, with every
   * missing count read as 0.
   */
  function Available(b: LeaveBalance): (available: real)
    ensures available + OrZero(b.used_days) + OrZero(b.pending_days) == OrZero(b.total_days)
    ensures !b.total_days.Val? && !b.used_days.Val? && !b.pending_days.Val? ==> available == 0.0
  {
    OrZero(b.total_days) - OrZero(b.used_days) - OrZero(b.pending_days)
  }

  /** The carried-forward days are shown but do not enter the available balance. */
  lemma AvailableIgnoresCarriedForward(b: LeaveBalance, carried: Nullable<real>)
    ensures Available(b.(carried_forward_days := carried)) == Available(b)
  {
  }

  /** Each further pending day, or part of a day, lowers the available balance by as much. */
  lemma AvailableFallsWithPending(b: LeaveBalance, extra: real)
    ensures Available(b.(pending_days := Val(OrZero(b.pending_days) + extra))) == Available(b) - extra
  {
  }

  /** The balance is not clamped: more used than total shows a negative number. */
  lemma AvailableMayBeNegative()
    ensures Available(LeaveBalance("", "", "", "", "", Undefined, Val(2.0), Val(3.0), Null, Val(5.0), Undefined, Undefined)) == -1.0
  {
  }

  /** Half days are kept: ten days with two and a half used and one pending leave six and a half. */
  lemma AvailableKeepsHalfDays()
    ensures Available(LeaveBalance("", "", "", "", "", Undefined, Val(10.0), Val(2.5), Val(1.0), Undefined, Undefined, Undefined)) == 6.5
  {
  }

  /** The figures one balance row shows. */
  datatype BalanceRow = BalanceRow(
    name: string, totalDays: real, usedDays: real, pendingDays: real,
    carriedForwardDays: real, available: real)

  /**
   * A balance row as displayed: the type name, each count or 0, and the
   * available balance. The heading is `leave_type_name ?? "Leave"`, but the
   * normaliser always supplies a string, so the fallback never applies and
   * the heading is the name as normalised.
   */
  function ShowBalance(b: LeaveBalance): (row: BalanceRow)
    ensures row.available == row.totalDays - row.usedDays - row.pendingDays
    ensures row.name == b.leave_type_name
    ensures b.carried_forward_days.Val? ==> row.carriedForwardDays == b.carried_forward_days.value
    ensures !b.carried_forward_days.Val? ==> row.carriedForwardDays == 0.0
  {
    BalanceRow(
      b.leave_type_name,
      OrZero(b.total_days), OrZero(b.used_days), OrZero(b.pending_days),
      OrZero(b.carried_forward_days), Available(b))
  }

  /**
   * A balance the backend sends with neither name spelling shows an empty
   * heading, never "Leave"; its counts are read from whichever spelling
   * the chain picks.
   */
  lemma NamelessBalanceShowsEmptyHeading(item: RawLeaveBalance)
    requires !item.leave_type_name.Val? && !item.LeaveTypeName.Val?
    ensures ShowBalance(NormalizeLeaveBalance(item)).name == ""
    ensures ShowBalance(NormalizeLeaveBalance(item)).name != "Leave"
    ensures ShowBalance(NormalizeLeaveBalance(item)).totalDays == OrZero(Coalesce(item.total_days, item.TotalDays))
  {
    LeaveBalanceNameChain(item);
  }

  /**
   * The year selector: five options, the current year first and each
   * later option one year earlier.
   */
  function YearOptions(currentYear: int): (years: seq<int>)
    ensures |years| == 5 && years[0] == currentYear
    ensures forall k :: 0 <= k < 4 ==> years[k + 1] == years[k] - 1
  {
    seq(5, i => currentYear - i)
  }

  /** The options run strictly downwards, so none repeats, and end four years back. */
  lemma {:induction false} YearOptionsStrictlyDecreasing(currentYear: int, i: nat, j: nat)
    requires i < j < 5
    ensures YearOptions(currentYear)[j] < YearOptions(currentYear)[i]
    ensures YearOptions(currentYear)[4] == currentYear - 4
    decreases j - i
  {
    var years := YearOptions(currentYear);
    assert years[4] == years[0] - 4 by {
      assert years[1] == years[0] - 1 && years[2] == years[1] - 1;
      assert years[3] == years[2] - 1 && years[4] == years[3] - 1;
    }
    if j == i + 1 {
      assert years[i + 1] == years[i] - 1;
    } else {
      YearOptionsStrictlyDecreasing(currentYear, i, j - 1);
      assert years[j] == years[j - 1] - 1;
    }
  }
}
