/**
 * Record shapes the console components read: memos, which arrive without a
 * normaliser, and leave balances as `normalizeLeaveBalance` builds them.
 */
module Records {
  import opened Js

  /**
   * A memo as listed for approval or for its recipient. `read_by` is `None`
   * when the backend did not send an array.
   */
  datatype Memo = Memo(
    id: string, title: string, content: string, memo_type: string, priority: string,
    reference_number: string, status: Option<string>, recipient_ids: seq<string>,
    read_by: Option<seq<string>>, created_at: Option<string>)

  /**
   * A leave balance as `normalizeLeaveBalance` returns it: the ids and the
   * type name are always strings (`""` when the backend sent none), while
   * each count is passed through its `??` chain and so may still be
   * `undefined` or `null`. The counts are JSON numbers and may be
   * fractional (half days), so they are `real`s; the year is a whole
   * calendar year.
   */
  datatype LeaveBalance = LeaveBalance(
    id: string, company_id: string, employee_id: string,
    leave_type_id: string, leave_type_name: string,
    year: Nullable<int>, total_days: Nullable<real>, used_days: Nullable<real>,
    pending_days: Nullable<real>, carried_forward_days: Nullable<real>,
    available: Nullable<real>, balance: Nullable<real>)
}
