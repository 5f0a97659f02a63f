/**
 * The approvals page: two tabs (leave requests and memos), each with
 * filters, a pager, and a confirmation dialog that sends an approve or
 * reject call. Only the page's own decisions are modelled; what the backend
 * does with the calls is not part of this model.
 */
module Approvals {
  import opened Text
  import opened Js
  import Api
  import opened Records

  // ---------------------------------------------------------------------
  // Status badges and action gating

  const GreenBadge := "bg-green-100 text-green-800"
  const RedBadge := "bg-red-100 text-red-800"
  const YellowBadge := "bg-yellow-100 text-yellow-800"

  /** `getStatusBadgeClass`. */
  function StatusBadgeClass(status: Option<string>): string {
    if status == Some("approved") then GreenBadge
    else if status == Some("rejected") then RedBadge
    else YellowBadge
  }

  /**
   * Approved is green, rejected is red, and every other status, a missing
   * one included, is yellow; the three classes are distinct.
   */
  lemma StatusBadgeClassCases(status: Option<string>)
    ensures StatusBadgeClass(status) == GreenBadge <==> status == Some("approved")
    ensures StatusBadgeClass(status) == RedBadge <==> status == Some("rejected")
    ensures StatusBadgeClass(status) == YellowBadge <==> status != Some("approved") && status != Some("rejected")
    ensures StatusBadgeClass(None) == YellowBadge
  {
    assert GreenBadge[3] == 'g' && RedBadge[3] == 'r' && YellowBadge[3] == 'y';
  }

  /** The approve and reject buttons of a leave request row. */
  predicate LeaveActionsOffered(request: Api.LeaveRequest) {
    request.status == Some("pending")
  }

  /** The approve and reject buttons of a memo row: a missing status counts as pending. */
  predicate MemoActionsOffered(memo: Memo) {
    OptionOr(memo.status, "pending") == "pending"
  }

  /** The status text shown in a memo row, `memo.status || "pending"`. */
  function MemoStatusLabel(memo: Memo): string {
    OrString(OptionOr(memo.status, ""), "pending")
  }

  /** Memo actions are offered exactly for a missing or "pending" status. */
  lemma MemoActionsOfferedIff(memo: Memo)
    ensures MemoActionsOffered(memo) <==> memo.status == None || memo.status == Some("pending")
  {
  }

  /**
   * A memo whose status is the empty string is labelled "pending" but gets
   * no action buttons: the label uses `||`, the gate uses `??`.
   */
  lemma EmptyMemoStatusLabelledPendingWithoutActions(memo: Memo)
    requires memo.status == Some("")
    ensures MemoStatusLabel(memo) == "pending" && !MemoActionsOffered(memo)
  {
  }

  // ---------------------------------------------------------------------
  // Pagination

  function Min(a: int, b: int): int { if a < b then a else b }

  function Max(a: int, b: int): int { if a < b then b else a }

  /** The Previous button: disabled on page 1, otherwise `Math.max(1, p - 1)`. */
  function PreviousPage(page: int): (r: int)
    ensures page >= 1 ==> r >= 1
    ensures page > 1 ==> r == page - 1
    ensures r <= Max(page, 1)
  {
    if page == 1 then page else Max(1, page - 1)
  }

  /**
   * The Next button as written: disabled when the page equals the total,
   * otherwise `Math.min(totalPages, p + 1)`.
   */
  function NextPageAsWritten(page: int, totalPages: int): int {
    if page == totalPages then page else Min(totalPages, page + 1)
  }

  /** With no pages reported (`total_pages` 0) Next moves from page 1 to page 0. */
  lemma NextPageAsWrittenLeavesRange()
    ensures NextPageAsWritten(1, 0) == 0
  {
  }

  /**
   * The Next button as evidently intended: the page never goes below 1,
   * never above a positive total, and advances by one while below it.
   */
  function NextPage(page: int, totalPages: int): (r: int)
    ensures page >= 1 ==> r >= 1
    ensures 1 <= page <= totalPages ==> r <= totalPages
    ensures 1 <= page < totalPages ==> r == page + 1
  {
    if page == totalPages then page else Max(1, Min(totalPages, page + 1))
  }

  /** Previous and Next keep a page inside [1, totalPages]. */
  lemma PagerStaysInRange(page: int, totalPages: int)
    requires 1 <= page <= totalPages
    ensures 1 <= PreviousPage(page) <= totalPages
    ensures 1 <= NextPage(page, totalPages) <= totalPages
    ensures NextPageAsWritten(page, totalPages) == NextPage(page, totalPages)
  {
  }

  // ---------------------------------------------------------------------
  // Page state

  datatype Tab = LeaveTab | MemoTab

  datatype Action = Approve | Reject

  datatype LeaveFilter = LeaveStatusFilter | LeaveEmployeeFilter

  datatype MemoFilter = MemoStatusFilter | MemoTypeFilter | MemoEmployeeFilter

  /** The call a confirmed leave dialog makes. */
  datatype LeaveCall = NoLeaveCall | ApproveLeave(id: string) | RejectLeave(id: string)

  /** The outcome of confirming the memo dialog. */
  datatype MemoCall =
    | NoMemoCall
    | CommentsRequired
    | ApproveMemo(id: string, comments: Option<string>)
    | RejectMemo(id: string, rejectComments: string)

  class ApprovalsPage {
    var activeTab: Tab

    var leavePage: int
    var leaveStatusFilter: string
    var leaveEmployeeIdFilter: string
    var selectedLeaveRequest: Option<Api.LeaveRequest>
    var leaveActionType: Option<Action>

    var memoPage: int
    var memoStatusFilter: string
    var memoTypeFilter: string
    var memoEmployeeIdFilter: string
    var selectedMemo: Option<Memo>
    var memoActionType: Option<Action>
    var memoActionComments: string

    /** Both pagers are on page 1 or later. */
    predicate Valid()
      reads this
    {
      leavePage >= 1 && memoPage >= 1
    }

    function LeaveState(): (int, string, string, Option<Api.LeaveRequest>, Option<Action>)
      reads this
    {
      (leavePage, leaveStatusFilter, leaveEmployeeIdFilter, selectedLeaveRequest, leaveActionType)
    }

    function MemoState(): (int, string, string, string, Option<Memo>, Option<Action>, string)
      reads this
    {
      (memoPage, memoStatusFilter, memoTypeFilter, memoEmployeeIdFilter, selectedMemo, memoActionType, memoActionComments)
    }

    constructor ()
      ensures Valid() && activeTab == LeaveTab
      ensures LeaveState() == (1, "", "", None, None)
      ensures MemoState() == (1, "pending", "", "", None, None, "")
    {
      activeTab := LeaveTab;
      leavePage, leaveStatusFilter, leaveEmployeeIdFilter := 1, "", "";
      selectedLeaveRequest, leaveActionType := None, None;
      memoPage, memoStatusFilter, memoTypeFilter, memoEmployeeIdFilter := 1, "pending", "", "";
      selectedMemo, memoActionType, memoActionComments := None, None, "";
    }

    method SetActiveTab(tab: Tab)
      modifies this
      ensures activeTab == tab
      ensures LeaveState() == old(LeaveState()) && MemoState() == old(MemoState())
    {
      activeTab := tab;
    }

    /** Changing a leave filter stores it and returns the leave pager to page 1. */
    method ChangeLeaveFilter(filter: LeaveFilter, value: string)
      requires Valid()
      modifies this
      ensures Valid() && leavePage == 1
      ensures filter == LeaveStatusFilter ==>
        leaveStatusFilter == value && leaveEmployeeIdFilter == old(leaveEmployeeIdFilter)
      ensures filter == LeaveEmployeeFilter ==>
        leaveEmployeeIdFilter == value && leaveStatusFilter == old(leaveStatusFilter)
      ensures selectedLeaveRequest == old(selectedLeaveRequest) && leaveActionType == old(leaveActionType)
      ensures activeTab == old(activeTab) && MemoState() == old(MemoState())
    {
      match filter {
        case LeaveStatusFilter => leaveStatusFilter := value;
        case LeaveEmployeeFilter => leaveEmployeeIdFilter := value;
      }
      leavePage := 1;
    }

    /** Changing a memo filter stores it and returns the memo pager to page 1. */
    method ChangeMemoFilter(filter: MemoFilter, value: string)
      requires Valid()
      modifies this
      ensures Valid() && memoPage == 1
      ensures filter == MemoStatusFilter ==> memoStatusFilter == value
      ensures filter == MemoTypeFilter ==> memoTypeFilter == value
      ensures filter == MemoEmployeeFilter ==> memoEmployeeIdFilter == value
      ensures filter != MemoStatusFilter ==> memoStatusFilter == old(memoStatusFilter)
      ensures filter != MemoTypeFilter ==> memoTypeFilter == old(memoTypeFilter)
      ensures filter != MemoEmployeeFilter ==> memoEmployeeIdFilter == old(memoEmployeeIdFilter)
      ensures selectedMemo == old(selectedMemo) && memoActionType == old(memoActionType)
      ensures memoActionComments == old(memoActionComments)
      ensures activeTab == old(activeTab) && LeaveState() == old(LeaveState())
    {
      match filter {
        case MemoStatusFilter => memoStatusFilter := value;
        case MemoTypeFilter => memoTypeFilter := value;
        case MemoEmployeeFilter => memoEmployeeIdFilter := value;
      }
      memoPage := 1;
    }

    method LeavePrevious()
      requires Valid()
      modifies this
      ensures Valid() && leavePage == PreviousPage(old(leavePage))
      ensures leavePage == if old(leavePage) > 1 then old(leavePage) - 1 else 1
      ensures activeTab == old(activeTab) && MemoState() == old(MemoState())
    {
      leavePage := PreviousPage(leavePage);
    }

    /** Next on the leave tab, with the page kept at 1 or later. */
    method LeaveNext(totalPages: int)
      requires Valid()
      modifies this
      ensures Valid() && leavePage == NextPage(old(leavePage), totalPages)
      ensures old(leavePage) <= totalPages ==> leavePage <= totalPages
      ensures activeTab == old(activeTab) && MemoState() == old(MemoState())
    {
      leavePage := NextPage(leavePage, totalPages);
    }

    method MemoPrevious()
      requires Valid()
      modifies this
      ensures Valid() && memoPage == PreviousPage(old(memoPage))
      ensures memoPage == if old(memoPage) > 1 then old(memoPage) - 1 else 1
      ensures activeTab == old(activeTab) && LeaveState() == old(LeaveState())
    {
      memoPage := PreviousPage(memoPage);
    }

    /** Next on the memo tab, with the page kept at 1 or later. */
    method MemoNext(totalPages: int)
      requires Valid()
      modifies this
      ensures Valid() && memoPage == NextPage(old(memoPage), totalPages)
      ensures old(memoPage) <= totalPages ==> memoPage <= totalPages
      ensures activeTab == old(activeTab) && LeaveState() == old(LeaveState())
    {
      memoPage := NextPage(memoPage, totalPages);
    }

    // -------------------------------------------------------------------
    // Leave dialog

    /** `openLeaveActionDialog`; the row's buttons exist only for a pending request. */
    method OpenLeaveActionDialog(request: Api.LeaveRequest, action: Action)
      requires LeaveActionsOffered(request)
      modifies this
      ensures selectedLeaveRequest == Some(request) && leaveActionType == Some(action)
      ensures leavePage == old(leavePage) && leaveStatusFilter == old(leaveStatusFilter)
      ensures leaveEmployeeIdFilter == old(leaveEmployeeIdFilter)
      ensures activeTab == old(activeTab) && MemoState() == old(MemoState())
    {
      selectedLeaveRequest := Some(request);
      leaveActionType := Some(action);
    }

    /**
     * `confirmLeaveAction`: nothing happens without both a selected request
     * and an action; otherwise exactly one call, approve or reject, with the
     * request's id.
     */
    method ConfirmLeaveAction() returns (call: LeaveCall)
      ensures selectedLeaveRequest.None? || leaveActionType.None? ==> call == NoLeaveCall
      ensures selectedLeaveRequest.Some? && leaveActionType == Some(Approve) ==>
        call == ApproveLeave(selectedLeaveRequest.value.id)
      ensures selectedLeaveRequest.Some? && leaveActionType == Some(Reject) ==>
        call == RejectLeave(selectedLeaveRequest.value.id)
    {
      if selectedLeaveRequest.None? || leaveActionType.None? {
        return NoLeaveCall;
      }
      if leaveActionType.value == Approve {
        call := ApproveLeave(selectedLeaveRequest.value.id);
      } else {
        call := RejectLeave(selectedLeaveRequest.value.id);
      }
    }

    /** A successful approve or reject, the Cancel button and closing the dialog all clear the selection. */
    method CloseLeaveDialog()
      modifies this
      ensures selectedLeaveRequest == None && leaveActionType == None
      ensures leavePage == old(leavePage) && leaveStatusFilter == old(leaveStatusFilter)
      ensures leaveEmployeeIdFilter == old(leaveEmployeeIdFilter)
      ensures activeTab == old(activeTab) && MemoState() == old(MemoState())
    {
      selectedLeaveRequest := None;
      leaveActionType := None;
    }

    // -------------------------------------------------------------------
    // Memo dialog

    /** `openMemoActionDialog`: selects the memo and the action and clears the comments. */
    method OpenMemoActionDialog(memo: Memo, action: Action)
      requires MemoActionsOffered(memo)
      modifies this
      ensures selectedMemo == Some(memo) && memoActionType == Some(action) && memoActionComments == ""
      ensures memoPage == old(memoPage) && memoStatusFilter == old(memoStatusFilter)
      ensures memoTypeFilter == old(memoTypeFilter) && memoEmployeeIdFilter == old(memoEmployeeIdFilter)
      ensures activeTab == old(activeTab) && LeaveState() == old(LeaveState())
    {
      selectedMemo := Some(memo);
      memoActionType := Some(action);
      memoActionComments := "";
    }

    method SetMemoComments(comments: string)
      modifies this
      ensures memoActionComments == comments
      ensures selectedMemo == old(selectedMemo) && memoActionType == old(memoActionType)
      ensures memoPage == old(memoPage) && memoStatusFilter == old(memoStatusFilter)
      ensures memoTypeFilter == old(memoTypeFilter) && memoEmployeeIdFilter == old(memoEmployeeIdFilter)
      ensures activeTab == old(activeTab) && LeaveState() == old(LeaveState())
    {
      memoActionComments := comments;
    }

    /**
     * `confirmMemoAction`: without a selected memo and action nothing
     * happens; approve sends the trimmed comment or none when it is blank;
     * reject with blank comments reports an error and sends nothing,
     * otherwise it sends the trimmed comments.
     */
    method ConfirmMemoAction() returns (call: MemoCall)
      ensures selectedMemo.None? || memoActionType.None? ==> call == NoMemoCall
      ensures selectedMemo.Some? && memoActionType == Some(Approve) ==>
        call == ApproveMemo(selectedMemo.value.id,
          if AllSpace(memoActionComments) then None else Some(Trim(memoActionComments)))
      ensures selectedMemo.Some? && memoActionType == Some(Reject) && AllSpace(memoActionComments) ==>
        call == CommentsRequired
      ensures selectedMemo.Some? && memoActionType == Some(Reject) && !AllSpace(memoActionComments) ==>
        call == RejectMemo(selectedMemo.value.id, Trim(memoActionComments))
      ensures call.RejectMemo? ==> call.rejectComments != "" && Trimmed(call.rejectComments)
    {
      TrimBlank(memoActionComments);
      if selectedMemo.None? || memoActionType.None? {
        return NoMemoCall;
      }
      if memoActionType.value == Approve {
        var trimmed := Trim(memoActionComments);
        call := ApproveMemo(selectedMemo.value.id, if trimmed != "" then Some(trimmed) else None);
        return;
      }
      var comments := Trim(memoActionComments);
      if comments == "" {
        return CommentsRequired;
      }
      call := RejectMemo(selectedMemo.value.id, comments);
    }

    /** A successful approve or reject, the Cancel button and closing the dialog all reset the memo dialog. */
    method CloseMemoDialog()
      modifies this
      ensures selectedMemo == None && memoActionType == None && memoActionComments == ""
      ensures memoPage == old(memoPage) && memoStatusFilter == old(memoStatusFilter)
      ensures memoTypeFilter == old(memoTypeFilter) && memoEmployeeIdFilter == old(memoEmployeeIdFilter)
      ensures activeTab == old(activeTab) && LeaveState() == old(LeaveState())
    {
      selectedMemo := None;
      memoActionType := None;
      memoActionComments := "";
    }
  }
}
