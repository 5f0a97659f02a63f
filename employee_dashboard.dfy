/**
 * The employee dashboard: the read state of each memo, the counts shown in
 * the stat cards, the newest-first memo list, the withdraw button and the
 * memo composer with its guards, payload and reset.
 */
module EmployeeDashboard {
  import opened Text
  import opened Js
  import Api
  import opened Records

  // ---------------------------------------------------------------------
  // Memo read state

  /** `isMemoRead`: `read_by` is an array holding the employee, or the status lowercases to "read". */
  predicate IsMemoRead(memo: Memo, employeeId: string) {
    (memo.read_by.Some? && employeeId in memo.read_by.value) ||
    ToLower(OptionOr(memo.status, "")) == "read"
  }

  /**
   * A memo is read exactly when some entry of its `read_by` array is the
   * employee, or its status is "read" in any letter case.
   */
  lemma IsMemoReadIff(memo: Memo, employeeId: string)
    ensures IsMemoRead(memo, employeeId) <==>
      (memo.read_by.Some? && exists k :: 0 <= k < |memo.read_by.value| && memo.read_by.value[k] == employeeId) ||
      (memo.status.Some? && |memo.status.value| == 4 &&
       forall k :: 0 <= k < 4 ==> Lower(memo.status.value[k]) == "read"[k])
  {
    var lowered := ToLower(OptionOr(memo.status, ""));
    if memo.status.Some? && |memo.status.value| == 4 &&
       (forall k :: 0 <= k < 4 ==> Lower(memo.status.value[k]) == "read"[k]) {
      assert lowered == "read";
    }
  }

  // ---------------------------------------------------------------------
  // Stats

  /** `requests.filter(r => r.status === status).length`. */
  function CountStatus(requests: seq<Api.LeaveRequest>, status: string): (n: nat)
    ensures n <= |requests|
  {
    if requests == [] then 0
    else (if requests[0].status == Some(status) then 1 else 0) + CountStatus(requests[1..], status)
  }

  /** The statuses of the requests, in order. */
  function Statuses(requests: seq<Api.LeaveRequest>): (r: seq<Option<string>>)
    ensures |r| == |requests| && forall k :: 0 <= k < |requests| ==> r[k] == requests[k].status
  {
    seq(|requests|, k requires 0 <= k < |requests| => requests[k].status)
  }

  /** Each count is the number of requests carrying exactly that status. */
  lemma {:induction false} CountStatusIsMultiplicity(requests: seq<Api.LeaveRequest>, status: string)
    ensures CountStatus(requests, status) == multiset(Statuses(requests))[Some(status)]
  {
    if requests != [] {
      CountStatusIsMultiplicity(requests[1..], status);
      assert Statuses(requests) == [requests[0].status] + Statuses(requests[1..]);
    }
  }

  /** The pending, approved and rejected counts together never exceed the number of requests. */
  lemma {:induction false} StatusCountsBounded(requests: seq<Api.LeaveRequest>)
    ensures CountStatus(requests, "pending") + CountStatus(requests, "approved") +
            CountStatus(requests, "rejected") <= |requests|
  {
    if requests != [] {
      StatusCountsBounded(requests[1..]);
    }
  }

  /** `memos.filter(memo => !isMemoRead(memo)).length`. */
  function CountUnread(memos: seq<Memo>, employeeId: string): (n: nat)
    ensures n <= |memos|
  {
    if memos == [] then 0
    else (if IsMemoRead(memos[0], employeeId) then 0 else 1) + CountUnread(memos[1..], employeeId)
  }

  /** The read flags of the memos, in order. */
  function ReadFlags(memos: seq<Memo>, employeeId: string): (r: seq<bool>)
    ensures |r| == |memos| && forall k :: 0 <= k < |memos| ==> r[k] == IsMemoRead(memos[k], employeeId)
  {
    seq(|memos|, k requires 0 <= k < |memos| => IsMemoRead(memos[k], employeeId))
  }

  /** The unread count is the number of memos `isMemoRead` reports as unread. */
  lemma {:induction false} CountUnreadIsMultiplicity(memos: seq<Memo>, employeeId: string)
    ensures CountUnread(memos, employeeId) == multiset(ReadFlags(memos, employeeId))[false]
  {
    if memos != [] {
      CountUnreadIsMultiplicity(memos[1..], employeeId);
      assert ReadFlags(memos, employeeId) == [IsMemoRead(memos[0], employeeId)] + ReadFlags(memos[1..], employeeId);
    }
  }

  datatype Stats = Stats(pending: nat, approved: nat, rejected: nat, unreadMemos: nat)

  /** The stat cards. */
  function ComputeStats(requests: seq<Api.LeaveRequest>, memos: seq<Memo>, employeeId: string): (s: Stats)
    ensures s.pending + s.approved + s.rejected <= |requests|
    ensures s.unreadMemos <= |memos|
  {
    StatusCountsBounded(requests);
    Stats(CountStatus(requests, "pending"), CountStatus(requests, "approved"),
          CountStatus(requests, "rejected"), CountUnread(memos, employeeId))
  }

  // ---------------------------------------------------------------------
  // Newest-first memo list

  /**
   * Code-unit lexicographic order, standing for `localeCompare`: `a` is a
   * prefix of `b` or is smaller at the first difference.
   */
  predicate StrLe(a: string, b: string) {
    a == [] || (b != [] && (a[0] < b[0] || (a[0] == b[0] && StrLe(a[1..], b[1..]))))
  }

  lemma {:induction false} StrLeTotal(a: string, b: string)
    ensures StrLe(a, b) || StrLe(b, a)
  {
    if a != [] && b != [] && a[0] == b[0] {
      StrLeTotal(a[1..], b[1..]);
    }
  }

  lemma {:induction false} StrLeTransitive(a: string, b: string, c: string)
    requires StrLe(a, b) && StrLe(b, c)
    ensures StrLe(a, c)
  {
    if a != [] && b != [] && c != [] && a[0] == b[0] && b[0] == c[0] {
      StrLeTransitive(a[1..], b[1..], c[1..]);
    }
  }

  /** The sort key, `created_at ?? ""`. */
  function MemoKey(memo: Memo): string {
    OptionOr(memo.created_at, "")
  }

  /** Newest first: no memo's key is below a later memo's key. */
  predicate NewestFirst(memos: seq<Memo>) {
    forall i, j :: 0 <= i < j < |memos| ==> StrLe(MemoKey(memos[j]), MemoKey(memos[i]))
  }

  /** Puts `memo` before the first memo whose key is not above its own. */
  function Insert(memo: Memo, sorted: seq<Memo>): (r: seq<Memo>)
    ensures multiset(r) == multiset(sorted) + multiset{memo}
  {
    if sorted == [] || StrLe(MemoKey(sorted[0]), MemoKey(memo)) then [memo] + sorted
    else
      assert sorted == [sorted[0]] + sorted[1..];
      [sorted[0]] + Insert(memo, sorted[1..])
  }

  lemma {:induction false} InsertNewestFirst(memo: Memo, sorted: seq<Memo>)
    requires NewestFirst(sorted)
    ensures NewestFirst(Insert(memo, sorted))
  {
    var r := Insert(memo, sorted);
    if sorted == [] || StrLe(MemoKey(sorted[0]), MemoKey(memo)) {
      forall i, j | 0 <= i < j < |r|
        ensures StrLe(MemoKey(r[j]), MemoKey(r[i]))
      {
        if i == 0 {
          if j > 1 {
            StrLeTransitive(MemoKey(sorted[j - 1]), MemoKey(sorted[0]), MemoKey(memo));
          }
        }
      }
    } else {
      var rest := Insert(memo, sorted[1..]);
      InsertNewestFirst(memo, sorted[1..]);
      StrLeTotal(MemoKey(sorted[0]), MemoKey(memo));
      forall m | m in rest
        ensures StrLe(MemoKey(m), MemoKey(sorted[0]))
      {
        assert m in multiset(rest);
        if m != memo {
          assert m in multiset(sorted[1..]);
          var k :| 0 <= k < |sorted[1..]| && sorted[1..][k] == m;
          assert sorted[k + 1] == m;
        }
      }
      forall i, j | 0 <= i < j < |r|
        ensures StrLe(MemoKey(r[j]), MemoKey(r[i]))
      {
        if i == 0 {
          assert r[j] == rest[j - 1];
          assert r[j] in rest;
        } else {
          assert r[i] == rest[i - 1] && r[j] == rest[j - 1];
        }
      }
    }
  }

  /** How many leading memos of `sorted` have a key strictly above `memo`'s. */
  function LeadingAbove(memo: Memo, sorted: seq<Memo>): (p: nat)
    ensures p <= |sorted|
  {
    if sorted == [] || StrLe(MemoKey(sorted[0]), MemoKey(memo)) then 0
    else 1 + LeadingAbove(memo, sorted[1..])
  }

  /** Every memo counted by `LeadingAbove` has a key strictly above `memo`'s; the next one does not. */
  lemma {:induction false} LeadingAboveStrict(memo: Memo, sorted: seq<Memo>, k: nat)
    requires k < |sorted|
    ensures k < LeadingAbove(memo, sorted) ==> !StrLe(MemoKey(sorted[k]), MemoKey(memo))
    ensures k == LeadingAbove(memo, sorted) ==> StrLe(MemoKey(sorted[k]), MemoKey(memo))
  {
    if k > 0 && !StrLe(MemoKey(sorted[0]), MemoKey(memo)) {
      LeadingAboveStrict(memo, sorted[1..], k - 1);
    }
  }

  /**
   * `Insert` splices the memo in after exactly the leading memos whose key
   * is strictly above its own.
   */
  lemma {:induction false} InsertSplices(memo: Memo, sorted: seq<Memo>)
    ensures Insert(memo, sorted) ==
      sorted[..LeadingAbove(memo, sorted)] + [memo] + sorted[LeadingAbove(memo, sorted)..]
  {
    if sorted != [] && !StrLe(MemoKey(sorted[0]), MemoKey(memo)) {
      var tail := sorted[1..];
      InsertSplices(memo, tail);
      var q := LeadingAbove(memo, tail);
      assert sorted[..q + 1] == [sorted[0]] + tail[..q];
      assert sorted[q + 1..] == tail[q..];
    }
  }

  /**
   * The inserted memo lands before every memo with an equal key. Inserting
   * the input's memos back to front therefore keeps memos with equal keys
   * in input order, as the stable `Array.prototype.sort` does.
   */
  lemma {:induction false} InsertIsStable(memo: Memo, sorted: seq<Memo>, k: nat)
    requires k < |sorted| && MemoKey(sorted[k]) == MemoKey(memo)
    ensures LeadingAbove(memo, sorted) <= k
    ensures k + 1 < |Insert(memo, sorted)| && Insert(memo, sorted)[k + 1] == sorted[k]
  {
    LeadingAboveStrict(memo, sorted, k);
    StrLeTotal(MemoKey(memo), MemoKey(memo));
    InsertSplices(memo, sorted);
    var p := LeadingAbove(memo, sorted);
    assert (sorted[..p] + [memo] + sorted[p..])[k + 1] == sorted[p..][k - p];
  }

  /**
   * The memo list as shown: the fetched memos sorted newest first by
   * `created_at ?? ""`, as a new list.
   */
  function SortMemos(memos: seq<Memo>): (r: seq<Memo>)
    ensures multiset(r) == multiset(memos)
  {
    if memos == [] then []
    else
      assert memos == [memos[0]] + memos[1..];
      Insert(memos[0], SortMemos(memos[1..]))
  }

  /** The sorted list is newest first and a permutation of the fetched one. */
  lemma {:induction false} SortMemosNewestFirst(memos: seq<Memo>)
    ensures NewestFirst(SortMemos(memos))
    ensures multiset(SortMemos(memos)) == multiset(memos)
  {
    if memos != [] {
      SortMemosNewestFirst(memos[1..]);
      InsertNewestFirst(memos[0], SortMemos(memos[1..]));
    }
  }

  /** A memo without `created_at` sorts as "", below every memo that has a non-empty one. */
  lemma MissingCreatedAtSortsLast(memos: seq<Memo>, i: nat, j: nat)
    requires i < j < |SortMemos(memos)|
    requires SortMemos(memos)[i].created_at == None
    ensures MemoKey(SortMemos(memos)[j]) == ""
  {
    SortMemosNewestFirst(memos);
  }

  // ---------------------------------------------------------------------
  // Leave request rows

  datatype BadgeColor = Yellow | Green | Red

  /** The status badge of the employee's own request row. */
  function RequestBadge(status: Option<string>): BadgeColor {
    if status == Some("pending") then Yellow
    else if status == Some("approved") then Green
    else Red
  }

  /** The withdraw button of a request row. */
  predicate WithdrawOffered(request: Api.LeaveRequest) {
    request.status == Some("pending")
  }

  /**
   * Withdraw is offered exactly for a yellow (pending) row; a row whose
   * status is missing shows red, like a rejected one.
   */
  lemma WithdrawOfferedIffPending(request: Api.LeaveRequest)
    ensures WithdrawOffered(request) <==> RequestBadge(request.status) == Yellow
    ensures request.status == None ==> RequestBadge(request.status) == Red && !WithdrawOffered(request)
  {
  }

  /**
   * A request the backend reports as withdrawn, in any letter case, loses
   * its status in the normaliser: it shows a red badge and cannot be
   * withdrawn again.
   */
  lemma WithdrawnRequestShownRed(item: Api.RawLeaveRequest)
    requires Api.GetNullableString(Coalesce(item.status, item.Status)).Some?
    requires ToLower(Api.GetNullableString(Coalesce(item.status, item.Status)).value) == "withdrawn"
    ensures RequestBadge(Api.NormalizeLeaveRequest(item).status) == Red
    ensures !WithdrawOffered(Api.NormalizeLeaveRequest(item))
  {
    Api.WithdrawnStatusIsDropped(item);
  }

  // ---------------------------------------------------------------------
  // The memo composer

  datatype MemoType = General | Announcement | Policy | Reminder

  datatype Priority = Low | Medium | High

  datatype MemoTextField = Title | Content | ReferenceNumber

  /** The body of the create-memo call. */
  datatype CreateMemoPayload = CreateMemoPayload(
    companyId: string, content: string, memoType: MemoType, priority: Priority,
    recipientIds: seq<string>, referenceNumber: string, title: string)

  datatype MemoOutcome =
    | MissingContext
    | TitleAndContentRequired
    | CreateMemo(payload: CreateMemoPayload)

  /** The dashboard's context and memo-composer state. */
  class Dashboard {
    var companyId: string
    var employeeId: string
    var showMemoForm: bool
    var title: string
    var content: string
    var memoType: MemoType
    var priority: Priority
    var referenceNumber: string

    /** `INITIAL_MEMO_FORM`: empty texts, general, low. */
    predicate MemoFormInitial()
      reads this
    {
      title == "" && content == "" && memoType == General && priority == Low && referenceNumber == ""
    }

    constructor ()
      ensures companyId == "" && employeeId == "" && !showMemoForm && MemoFormInitial()
    {
      companyId, employeeId, showMemoForm := "", "", false;
      title, content, memoType, priority, referenceNumber := "", "", General, Low, "";
    }

    /** The mount effect: a stored company or employee id is taken only when non-empty. */
    method LoadContext(storedCompanyId: Option<string>, storedEmployeeId: Option<string>)
      modifies this
      ensures companyId == if storedCompanyId.Some? && storedCompanyId.value != "" then storedCompanyId.value else old(companyId)
      ensures employeeId == if storedEmployeeId.Some? && storedEmployeeId.value != "" then storedEmployeeId.value else old(employeeId)
      ensures showMemoForm == old(showMemoForm) && title == old(title) && content == old(content)
      ensures memoType == old(memoType) && priority == old(priority) && referenceNumber == old(referenceNumber)
    {
      if storedCompanyId.Some? && storedCompanyId.value != "" {
        companyId := storedCompanyId.value;
      }
      if storedEmployeeId.Some? && storedEmployeeId.value != "" {
        employeeId := storedEmployeeId.value;
      }
    }

    method OpenMemoForm()
      modifies this
      ensures showMemoForm
      ensures companyId == old(companyId) && employeeId == old(employeeId) && title == old(title)
      ensures content == old(content) && memoType == old(memoType) && priority == old(priority)
      ensures referenceNumber == old(referenceNumber)
    {
      showMemoForm := true;
    }

    /** Typing into one text input of the composer changes only that field. */
    method ChangeMemoText(field: MemoTextField, value: string)
      modifies this
      ensures field == Title ==> title == value
      ensures field == Content ==> content == value
      ensures field == ReferenceNumber ==> referenceNumber == value
      ensures field != Title ==> title == old(title)
      ensures field != Content ==> content == old(content)
      ensures field != ReferenceNumber ==> referenceNumber == old(referenceNumber)
      ensures companyId == old(companyId) && employeeId == old(employeeId) && showMemoForm == old(showMemoForm)
      ensures memoType == old(memoType) && priority == old(priority)
    {
      match field {
        case Title => title := value;
        case Content => content := value;
        case ReferenceNumber => referenceNumber := value;
      }
    }

    method ChangeMemoChoices(newType: MemoType, newPriority: Priority)
      modifies this
      ensures memoType == newType && priority == newPriority
      ensures companyId == old(companyId) && employeeId == old(employeeId) && showMemoForm == old(showMemoForm)
      ensures title == old(title) && content == old(content) && referenceNumber == old(referenceNumber)
    {
      memoType, priority := newType, newPriority;
    }

    /**
     * `submitMemo`: nothing is created without both a company and an
     * employee id, nor when the trimmed title or content is empty. The
     * memo goes to the employee alone, with trimmed title and content and
     * the trimmed reference number, or "MEM-" and a generated stamp when
     * that is blank.
     */
    method SubmitMemo(stamp: string) returns (outcome: MemoOutcome)
      ensures companyId == "" || employeeId == "" ==> outcome == MissingContext
      ensures companyId != "" && employeeId != "" && (AllSpace(title) || AllSpace(content)) ==>
        outcome == TitleAndContentRequired
      ensures outcome.CreateMemo? <==>
        companyId != "" && employeeId != "" && !AllSpace(title) && !AllSpace(content)
      ensures outcome.CreateMemo? ==> outcome.payload == CreateMemoPayload(
        companyId, Trim(content), memoType, priority, [employeeId],
        if AllSpace(referenceNumber) then "MEM-" + stamp else Trim(referenceNumber), Trim(title))
      ensures outcome.CreateMemo? ==>
        outcome.payload.title != "" && Trimmed(outcome.payload.title) &&
        outcome.payload.content != "" && Trimmed(outcome.payload.content) &&
        outcome.payload.referenceNumber != ""
    {
      TrimBlank(title);
      TrimBlank(content);
      TrimBlank(referenceNumber);
      if companyId == "" || employeeId == "" {
        return MissingContext;
      }
      if Trim(title) == "" || Trim(content) == "" {
        return TitleAndContentRequired;
      }
      var reference := OrString(Trim(referenceNumber), "MEM-" + stamp);
      outcome := CreateMemo(CreateMemoPayload(
        companyId, Trim(content), memoType, priority, [employeeId], reference, Trim(title)));
    }

    /** The create call's `onSuccess` and the Cancel button: the composer is reset and hidden. */
    method CloseMemoForm()
      modifies this
      ensures MemoFormInitial() && !showMemoForm
      ensures companyId == old(companyId) && employeeId == old(employeeId)
    {
      title, content, memoType, priority, referenceNumber := "", "", General, Low, "";
      showMemoForm := false;
    }
  }
}
