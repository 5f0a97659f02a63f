/**
 * The response normalisers of the console's API client: each backend record
 * arrives with its keys in snake_case, PascalCase or camelCase, and is read
 * through a `??` chain into one canonical record. Status-like strings are
 * matched case-insensitively against an allowed list. The HTTP calls
 * themselves are not part of this model.
 */
module Api {
  import opened Text
  import opened Js
  import opened Records

  // ---------------------------------------------------------------------
  // Field readers

  /** `getString`: `null` and `undefined` read as the empty string. */
  function GetString(v: Nullable<string>): (r: string)
    ensures v.Val? ==> r == v.value
    ensures !v.Val? ==> r == ""
  {
    OrElse(v, "")
  }

  /** `getNullableString`: `null` becomes `undefined`; a string stays itself. */
  function GetNullableString(v: Nullable<string>): (r: Option<string>)
    ensures r.Some? <==> v.Val?
    ensures r.Some? ==> r.value == v.value
  {
    if v.Val? then Some(v.value) else None
  }

  /** `getNullableNumber`; a JSON number is a `real` here (see `Records.LeaveBalance`). */
  function GetNullableNumber(v: Nullable<real>): Option<real> {
    if v.Val? then Some(v.value) else None
  }

  /** `Boolean(x)` for a field typed `boolean | null | undefined`. */
  function ToBoolean(v: Nullable<bool>): bool {
    v.Val? && v.value
  }

  // ---------------------------------------------------------------------
  // Case-insensitive status lookup

  /**
   * `allowed.find(v => v.toLowerCase() === lower)`, as the index of the
   * first entry that matches.
   */
  function FindLower(allowed: seq<string>, lower: string): (r: Option<nat>)
    ensures r.Some? ==> r.value < |allowed| && ToLower(allowed[r.value]) == lower
    ensures r.Some? ==> forall j :: 0 <= j < r.value ==> ToLower(allowed[j]) != lower
    ensures r.None? ==> forall j :: 0 <= j < |allowed| ==> ToLower(allowed[j]) != lower
  {
    if allowed == [] then None
    else if ToLower(allowed[0]) == lower then Some(0)
    else match FindLower(allowed[1..], lower)
      case None => None
      case Some(k) => Some(k + 1)
  }

  /**
   * `normalizeStatus`: a missing or empty value gives `undefined`; otherwise
   * the first allowed entry equal to the value ignoring case, spelled as in
   * `allowed`, or `undefined` when there is none.
   */
  function NormalizeStatus(value: Nullable<string>, allowed: seq<string>): (r: Option<string>)
    ensures (!value.Val? || value.value == "") ==> r == None
    ensures r.Some? ==> r.value in allowed && ToLower(r.value) == ToLower(value.value)
    ensures r.Some? <==>
      value.Val? && value.value != "" && exists a :: a in allowed && ToLower(a) == ToLower(value.value)
  {
    if !value.Val? || value.value == "" then None
    else match FindLower(allowed, ToLower(value.value))
      case None => None
      case Some(k) => Some(allowed[k])
  }

  /** The result is the FIRST allowed entry matching ignoring case. */
  lemma NormalizeStatusFirstMatch(value: Nullable<string>, allowed: seq<string>, j: nat)
    requires NormalizeStatus(value, allowed).Some?
    requires j < |allowed| && allowed[j] != NormalizeStatus(value, allowed).value
    requires ToLower(allowed[j]) == ToLower(value.value)
    ensures exists i :: 0 <= i < j && allowed[i] == NormalizeStatus(value, allowed).value
  {
    var k := FindLower(allowed, ToLower(value.value)).value;
    assert k != j;
    assert allowed[k] == NormalizeStatus(value, allowed).value;
  }

  // ---------------------------------------------------------------------
  // Leave types

  datatype RawLeaveType = RawLeaveType(
    id: Nullable<string>, ID: Nullable<string>,
    company_id: Nullable<string>, CompanyID: Nullable<string>,
    name: Nullable<string>, Name: Nullable<string>,
    code: Nullable<string>, Code: Nullable<string>,
    description: Nullable<string>, Description: Nullable<string>,
    carryForwardAllowed: Nullable<bool>, CarryForwardAllowed: Nullable<bool>, carry_forward_allowed: Nullable<bool>,
    colorCode: Nullable<string>, ColorCode: Nullable<string>, color_code: Nullable<string>,
    daysAllowed: Nullable<real>, DaysAllowed: Nullable<real>, days_allowed: Nullable<real>,
    isPaid: Nullable<bool>, IsPaid: Nullable<bool>, is_paid: Nullable<bool>,
    maxCarryForwardDays: Nullable<real>, MaxCarryForwardDays: Nullable<real>, max_carry_forward_days: Nullable<real>,
    requiresDocumentation: Nullable<bool>, RequiresDocumentation: Nullable<bool>, requires_documentation: Nullable<bool>,
    status: Nullable<string>, Status: Nullable<string>,
    created_at: Nullable<string>, CreatedAt: Nullable<string>,
    updated_at: Nullable<string>, UpdatedAt: Nullable<string>)

  datatype LeaveType = LeaveType(
    id: string, company_id: string, name: string, code: string, description: string,
    carryForwardAllowed: bool, colorCode: string, daysAllowed: Option<real>, isPaid: bool,
    maxCarryForwardDays: Option<real>, requiresDocumentation: bool, status: string,
    created_at: string, updated_at: string)

  /** `normalizeLeaveType`. */
  function NormalizeLeaveType(item: RawLeaveType): LeaveType {
    LeaveType(
      id := GetString(Coalesce(item.id, item.ID)),
      company_id := GetString(Coalesce(item.company_id, item.CompanyID)),
      name := GetString(Coalesce(item.name, item.Name)),
      code := GetString(Coalesce(item.code, item.Code)),
      description := GetString(Coalesce(item.description, item.Description)),
      carryForwardAllowed := ToBoolean(Coalesce(Coalesce(item.carryForwardAllowed, item.CarryForwardAllowed), item.carry_forward_allowed)),
      colorCode := GetString(Coalesce(Coalesce(item.colorCode, item.ColorCode), item.color_code)),
      daysAllowed := GetNullableNumber(Coalesce(Coalesce(item.daysAllowed, item.DaysAllowed), item.days_allowed)),
      isPaid := ToBoolean(Coalesce(Coalesce(item.isPaid, item.IsPaid), item.is_paid)),
      maxCarryForwardDays := GetNullableNumber(Coalesce(Coalesce(item.maxCarryForwardDays, item.MaxCarryForwardDays), item.max_carry_forward_days)),
      requiresDocumentation := ToBoolean(Coalesce(Coalesce(item.requiresDocumentation, item.RequiresDocumentation), item.requires_documentation)),
      status := GetString(Coalesce(item.status, item.Status)),
      created_at := GetString(Coalesce(item.created_at, item.CreatedAt)),
      updated_at := GetString(Coalesce(item.updated_at, item.UpdatedAt)))
  }

  /** A flag absent under all three spellings normalises to `false`. */
  lemma LeaveTypeFlagsDefaultFalse(item: RawLeaveType)
    ensures !item.carryForwardAllowed.Val? && !item.CarryForwardAllowed.Val? && !item.carry_forward_allowed.Val?
      ==> !NormalizeLeaveType(item).carryForwardAllowed
    ensures !item.isPaid.Val? && !item.IsPaid.Val? && !item.is_paid.Val?
      ==> !NormalizeLeaveType(item).isPaid
    ensures !item.requiresDocumentation.Val? && !item.RequiresDocumentation.Val? && !item.requires_documentation.Val?
      ==> !NormalizeLeaveType(item).requiresDocumentation
  {
  }

  /**
   * In a two-spelling `??` chain the first spelling wins whenever it is
   * present, even when it is `""`; the second is read only otherwise.
   */
  lemma LeaveTypeFirstSpellingWins(item: RawLeaveType)
    ensures item.id.Val? ==> NormalizeLeaveType(item).id == item.id.value
    ensures !item.id.Val? ==> NormalizeLeaveType(item).id == GetString(item.ID)
    ensures item.company_id.Val? ==> NormalizeLeaveType(item).company_id == item.company_id.value
    ensures !item.company_id.Val? ==> NormalizeLeaveType(item).company_id == GetString(item.CompanyID)
    ensures item.name.Val? ==> NormalizeLeaveType(item).name == item.name.value
    ensures !item.name.Val? ==> NormalizeLeaveType(item).name == GetString(item.Name)
    ensures item.code.Val? ==> NormalizeLeaveType(item).code == item.code.value
    ensures !item.code.Val? ==> NormalizeLeaveType(item).code == GetString(item.Code)
    ensures item.description.Val? ==> NormalizeLeaveType(item).description == item.description.value
    ensures !item.description.Val? ==> NormalizeLeaveType(item).description == GetString(item.Description)
    ensures item.status.Val? ==> NormalizeLeaveType(item).status == item.status.value
    ensures !item.status.Val? ==> NormalizeLeaveType(item).status == GetString(item.Status)
    ensures item.created_at.Val? ==> NormalizeLeaveType(item).created_at == item.created_at.value
    ensures !item.created_at.Val? ==> NormalizeLeaveType(item).created_at == GetString(item.CreatedAt)
    ensures item.updated_at.Val? ==> NormalizeLeaveType(item).updated_at == item.updated_at.value
    ensures !item.updated_at.Val? ==> NormalizeLeaveType(item).updated_at == GetString(item.UpdatedAt)
  {
  }

  /**
   * In a three-spelling `??` chain the camelCase spelling wins whenever it
   * is present, even when it is `false`; the PascalCase one is read only
   * without it, and the snake_case one only without both.
   */
  lemma LeaveTypeThreeSpellingChains(item: RawLeaveType)
    ensures item.carryForwardAllowed.Val? ==>
      NormalizeLeaveType(item).carryForwardAllowed == item.carryForwardAllowed.value
    ensures !item.carryForwardAllowed.Val? && item.CarryForwardAllowed.Val? ==>
      NormalizeLeaveType(item).carryForwardAllowed == item.CarryForwardAllowed.value
    ensures !item.carryForwardAllowed.Val? && !item.CarryForwardAllowed.Val? ==>
      NormalizeLeaveType(item).carryForwardAllowed == ToBoolean(item.carry_forward_allowed)
    ensures item.colorCode.Val? ==> NormalizeLeaveType(item).colorCode == item.colorCode.value
    ensures !item.colorCode.Val? && item.ColorCode.Val? ==> NormalizeLeaveType(item).colorCode == item.ColorCode.value
    ensures !item.colorCode.Val? && !item.ColorCode.Val? ==>
      NormalizeLeaveType(item).colorCode == GetString(item.color_code)
    ensures item.daysAllowed.Val? ==> NormalizeLeaveType(item).daysAllowed == Some(item.daysAllowed.value)
    ensures !item.daysAllowed.Val? && item.DaysAllowed.Val? ==>
      NormalizeLeaveType(item).daysAllowed == Some(item.DaysAllowed.value)
    ensures !item.daysAllowed.Val? && !item.DaysAllowed.Val? ==>
      NormalizeLeaveType(item).daysAllowed == GetNullableNumber(item.days_allowed)
    ensures item.isPaid.Val? ==> NormalizeLeaveType(item).isPaid == item.isPaid.value
    ensures !item.isPaid.Val? && item.IsPaid.Val? ==> NormalizeLeaveType(item).isPaid == item.IsPaid.value
    ensures !item.isPaid.Val? && !item.IsPaid.Val? ==> NormalizeLeaveType(item).isPaid == ToBoolean(item.is_paid)
    ensures item.maxCarryForwardDays.Val? ==>
      NormalizeLeaveType(item).maxCarryForwardDays == Some(item.maxCarryForwardDays.value)
    ensures !item.maxCarryForwardDays.Val? && item.MaxCarryForwardDays.Val? ==>
      NormalizeLeaveType(item).maxCarryForwardDays == Some(item.MaxCarryForwardDays.value)
    ensures !item.maxCarryForwardDays.Val? && !item.MaxCarryForwardDays.Val? ==>
      NormalizeLeaveType(item).maxCarryForwardDays == GetNullableNumber(item.max_carry_forward_days)
    ensures item.requiresDocumentation.Val? ==>
      NormalizeLeaveType(item).requiresDocumentation == item.requiresDocumentation.value
    ensures !item.requiresDocumentation.Val? && item.RequiresDocumentation.Val? ==>
      NormalizeLeaveType(item).requiresDocumentation == item.RequiresDocumentation.value
    ensures !item.requiresDocumentation.Val? && !item.RequiresDocumentation.Val? ==>
      NormalizeLeaveType(item).requiresDocumentation == ToBoolean(item.requires_documentation)
  {
  }

  // ---------------------------------------------------------------------
  // Leave requests

  datatype RawLeaveRequest = RawLeaveRequest(
    id: Nullable<string>, ID: Nullable<string>,
    company_id: Nullable<string>, CompanyID: Nullable<string>,
    employee_id: Nullable<string>, EmployeeID: Nullable<string>,
    leave_type_id: Nullable<string>, LeaveTypeID: Nullable<string>,
    start_date: Nullable<string>, StartDate: Nullable<string>,
    end_date: Nullable<string>, EndDate: Nullable<string>,
    reason: Nullable<string>, Reason: Nullable<string>,
    status: Nullable<string>, Status: Nullable<string>,
    approved_by: Nullable<string>, ApprovedBy: Nullable<string>,
    approved_at: Nullable<string>, ApprovedAt: Nullable<string>,
    rejection_reason: Nullable<string>, RejectionReason: Nullable<string>,
    rejected_at: Nullable<string>, RejectedAt: Nullable<string>,
    created_at: Nullable<string>, CreatedAt: Nullable<string>,
    updated_at: Nullable<string>, UpdatedAt: Nullable<string>,
    leave_type: Nullable<RawLeaveType>, LeaveType: Nullable<RawLeaveType>)

  datatype LeaveRequest = LeaveRequest(
    id: string, company_id: string, employee_id: string, leave_type_id: string,
    start_date: string, end_date: string, reason: Option<string>, status: Option<string>,
    approved_by: Option<string>, approved_at: Option<string>,
    rejection_reason: Option<string>, rejected_at: Option<string>,
    created_at: string, updated_at: string, leave_type: Option<LeaveType>)

  /** The statuses a leave request can be normalised to. */
  const LeaveRequestStatuses: seq<string> := ["pending", "approved", "rejected"]

  /** `normalizeLeaveRequest`; the nested `employee` record is not modelled. */
  function NormalizeLeaveRequest(item: RawLeaveRequest): LeaveRequest {
    LeaveRequest(
      id := GetString(Coalesce(item.id, item.ID)),
      company_id := GetString(Coalesce(item.company_id, item.CompanyID)),
      employee_id := GetString(Coalesce(item.employee_id, item.EmployeeID)),
      leave_type_id := GetString(Coalesce(item.leave_type_id, item.LeaveTypeID)),
      start_date := GetString(Coalesce(item.start_date, item.StartDate)),
      end_date := GetString(Coalesce(item.end_date, item.EndDate)),
      reason := GetNullableString(Coalesce(item.reason, item.Reason)),
      status := NormalizeStatus(Coalesce(item.status, item.Status), LeaveRequestStatuses),
      approved_by := GetNullableString(Coalesce(item.approved_by, item.ApprovedBy)),
      approved_at := GetNullableString(Coalesce(item.approved_at, item.ApprovedAt)),
      rejection_reason := GetNullableString(Coalesce(item.rejection_reason, item.RejectionReason)),
      rejected_at := GetNullableString(Coalesce(item.rejected_at, item.RejectedAt)),
      created_at := GetString(Coalesce(item.created_at, item.CreatedAt)),
      updated_at := GetString(Coalesce(item.updated_at, item.UpdatedAt)),
      leave_type :=
        if item.leave_type.Val? then Some(NormalizeLeaveType(item.leave_type.value))
        else if item.LeaveType.Val? then Some(NormalizeLeaveType(item.LeaveType.value))
        else None)
  }

  /**
   * A normalised leave request is pending, approved, rejected or has no
   * status; any casing of those three is accepted, and nothing else
   * (in particular "withdrawn") survives.
   */
  lemma LeaveRequestStatusIsDecision(item: RawLeaveRequest)
    ensures var st := NormalizeLeaveRequest(item).status;
      st == None || st == Some("pending") || st == Some("approved") || st == Some("rejected")
    ensures var raw := Coalesce(item.status, item.Status);
      NormalizeLeaveRequest(item).status.Some? <==>
        raw.Val? && ToLower(raw.value) in {"pending", "approved", "rejected"}
  {
    var raw := Coalesce(item.status, item.Status);
    assert ToLower(LeaveRequestStatuses[0]) == "pending";
    assert ToLower(LeaveRequestStatuses[1]) == "approved";
    assert ToLower(LeaveRequestStatuses[2]) == "rejected";
    assert forall a :: a in LeaveRequestStatuses ==> ToLower(a) == a;
  }

  /** A request the backend reports as withdrawn, in any casing, has no status after normalising. */
  lemma WithdrawnStatusIsDropped(item: RawLeaveRequest)
    requires Coalesce(item.status, item.Status).Val?
    requires ToLower(Coalesce(item.status, item.Status).value) == "withdrawn"
    ensures NormalizeLeaveRequest(item).status == None
  {
    LeaveRequestStatusIsDecision(item);
  }

  /** An uppercase status from the backend is normalised to its lower-case spelling. */
  lemma UppercaseStatusNormalised(item: RawLeaveRequest)
    requires item.status == Val("APPROVED")
    ensures NormalizeLeaveRequest(item).status == Some("approved")
  {
    assert ToLower("APPROVED") == "approved";
    assert ToLower(LeaveRequestStatuses[0]) == "pending";
    assert ToLower(LeaveRequestStatuses[1]) == "approved";
  }

  // ---------------------------------------------------------------------
  // Leave balances

  datatype RawLeaveBalance = RawLeaveBalance(
    id: Nullable<string>, ID: Nullable<string>,
    company_id: Nullable<string>, CompanyID: Nullable<string>,
    employee_id: Nullable<string>, EmployeeID: Nullable<string>,
    leave_type_id: Nullable<string>, LeaveTypeID: Nullable<string>,
    leave_type_name: Nullable<string>, LeaveTypeName: Nullable<string>,
    year: Nullable<int>, Year: Nullable<int>,
    total_days: Nullable<real>, TotalDays: Nullable<real>,
    used_days: Nullable<real>, UsedDays: Nullable<real>,
    pending_days: Nullable<real>, PendingDays: Nullable<real>,
    carried_forward_days: Nullable<real>, CarriedForwardDays: Nullable<real>,
    available: Nullable<real>, Available: Nullable<real>,
    balance: Nullable<real>, Balance: Nullable<real>)

  /** `normalizeLeaveBalance`: strings through `getString`, counts passed through as the chain yields them. */
  function NormalizeLeaveBalance(item: RawLeaveBalance): LeaveBalance {
    LeaveBalance(
      id := GetString(Coalesce(item.id, item.ID)),
      company_id := GetString(Coalesce(item.company_id, item.CompanyID)),
      employee_id := GetString(Coalesce(item.employee_id, item.EmployeeID)),
      leave_type_id := GetString(Coalesce(item.leave_type_id, item.LeaveTypeID)),
      leave_type_name := GetString(Coalesce(item.leave_type_name, item.LeaveTypeName)),
      year := Coalesce(item.year, item.Year),
      total_days := Coalesce(item.total_days, item.TotalDays),
      used_days := Coalesce(item.used_days, item.UsedDays),
      pending_days := Coalesce(item.pending_days, item.PendingDays),
      carried_forward_days := Coalesce(item.carried_forward_days, item.CarriedForwardDays),
      available := Coalesce(item.available, item.Available),
      balance := Coalesce(item.balance, item.Balance))
  }

  /**
   * The type name is the snake_case spelling when present, even as `""`,
   * else the PascalCase one, else `""`: a balance never reaches the card
   * without a name string.
   */
  lemma LeaveBalanceNameChain(item: RawLeaveBalance)
    ensures item.leave_type_name.Val? ==> NormalizeLeaveBalance(item).leave_type_name == item.leave_type_name.value
    ensures !item.leave_type_name.Val? && item.LeaveTypeName.Val? ==>
      NormalizeLeaveBalance(item).leave_type_name == item.LeaveTypeName.value
    ensures !item.leave_type_name.Val? && !item.LeaveTypeName.Val? ==> NormalizeLeaveBalance(item).leave_type_name == ""
    ensures item.leave_type_id.Val? ==> NormalizeLeaveBalance(item).leave_type_id == item.leave_type_id.value
    ensures !item.leave_type_id.Val? ==> NormalizeLeaveBalance(item).leave_type_id == GetString(item.LeaveTypeID)
  {
  }

  /**
   * A count keeps the snake_case value when it is present; otherwise the
   * PascalCase field is passed on as it came, `undefined` and `null`
   * included.
   */
  lemma LeaveBalanceCountChains(item: RawLeaveBalance)
    ensures item.total_days.Val? ==> NormalizeLeaveBalance(item).total_days == item.total_days
    ensures !item.total_days.Val? ==> NormalizeLeaveBalance(item).total_days == item.TotalDays
    ensures item.used_days.Val? ==> NormalizeLeaveBalance(item).used_days == item.used_days
    ensures !item.used_days.Val? ==> NormalizeLeaveBalance(item).used_days == item.UsedDays
    ensures item.pending_days.Val? ==> NormalizeLeaveBalance(item).pending_days == item.pending_days
    ensures !item.pending_days.Val? ==> NormalizeLeaveBalance(item).pending_days == item.PendingDays
    ensures item.carried_forward_days.Val? ==>
      NormalizeLeaveBalance(item).carried_forward_days == item.carried_forward_days
    ensures !item.carried_forward_days.Val? ==>
      NormalizeLeaveBalance(item).carried_forward_days == item.CarriedForwardDays
  {
  }

  // ---------------------------------------------------------------------
  // Approval workflows

  /** An element of a workflow's `steps` array as the backend may send it. */
  datatype RawStep = StepNumber(n: int) | StepText(s: string)

  /** The `steps` field: an array, or some other non-null JSON value. */
  datatype RawSteps = StepArray(items: seq<RawStep>) | NotAnArray

  datatype RawApprovalWorkflow = RawApprovalWorkflow(
    id: Nullable<string>, ID: Nullable<string>,
    companyId: Nullable<string>, CompanyID: Nullable<string>, company_id: Nullable<string>,
    departmentId: Nullable<string>, DepartmentID: Nullable<string>, department_id: Nullable<string>,
    isActive: Nullable<bool>, IsActive: Nullable<bool>, is_active: Nullable<bool>,
    steps: Nullable<RawSteps>, Steps: Nullable<RawSteps>,
    workflowType: Nullable<string>, WorkflowType: Nullable<string>, workflow_type: Nullable<string>,
    createdAt: Nullable<string>, CreatedAt: Nullable<string>, created_at: Nullable<string>,
    updatedAt: Nullable<string>, UpdatedAt: Nullable<string>, updated_at: Nullable<string>)

  datatype ApprovalWorkflow = ApprovalWorkflow(
    id: string, companyId: Option<string>, departmentId: Option<string>, isActive: Option<bool>,
    steps: Option<seq<Num>>, workflowType: Option<string>,
    createdAt: Option<string>, updatedAt: Option<string>)

  const WorkflowTypes: seq<string> := ["leave", "memo", "expense"]

  /** `Number(step)`. */
  function StepToNumber(step: RawStep): Num {
    match step
      case StepNumber(n) => Finite(n)
      case StepText(s) => ToNumber(s)
  }

  /** `Array.isArray(steps) ? steps.map(Number) : undefined`. */
  function NormalizeSteps(steps: Nullable<RawSteps>): (r: Option<seq<Num>>)
    ensures r.Some? <==> steps.Val? && steps.value.StepArray?
    ensures r.Some? ==> |r.value| == |steps.value.items|
    ensures r.Some? ==> forall i :: 0 <= i < |r.value| ==> r.value[i] == StepToNumber(steps.value.items[i])
  {
    if steps.Val? && steps.value.StepArray? then
      var items := steps.value.items;
      Some(seq(|items|, i requires 0 <= i < |items| => StepToNumber(items[i])))
    else None
  }

  /** `normalizeApprovalWorkflow`. */
  function NormalizeApprovalWorkflow(item: RawApprovalWorkflow): ApprovalWorkflow {
    var active := Coalesce(Coalesce(item.isActive, item.IsActive), item.is_active);
    ApprovalWorkflow(
      id := GetString(Coalesce(item.id, item.ID)),
      companyId := GetNullableString(Coalesce(Coalesce(item.companyId, item.CompanyID), item.company_id)),
      departmentId := GetNullableString(Coalesce(Coalesce(item.departmentId, item.DepartmentID), item.department_id)),
      isActive := if active.Val? then Some(active.value) else None,
      steps := NormalizeSteps(Coalesce(item.steps, item.Steps)),
      workflowType := NormalizeStatus(Coalesce(Coalesce(item.workflowType, item.WorkflowType), item.workflow_type), WorkflowTypes),
      createdAt := GetNullableString(Coalesce(Coalesce(item.createdAt, item.CreatedAt), item.created_at)),
      updatedAt := GetNullableString(Coalesce(Coalesce(item.updatedAt, item.UpdatedAt), item.updated_at)))
  }

  /**
   * Workflow `steps`: an array (under either spelling, the first present one
   * winning) is mapped element-wise with `Number`; anything else gives no steps.
   * The workflow type is one of leave, memo or expense, or absent.
   */
  lemma WorkflowStepsShape(item: RawApprovalWorkflow)
    ensures var w := NormalizeApprovalWorkflow(item);
      var raw := if item.steps.Val? then item.steps else item.Steps;
      && (w.steps.Some? <==> raw.Val? && raw.value.StepArray?)
      && (w.steps.Some? ==> |w.steps.value| == |raw.value.items|)
      && (w.steps.Some? ==> forall i :: 0 <= i < |w.steps.value| ==> w.steps.value[i] == StepToNumber(raw.value.items[i]))
    ensures var t := NormalizeApprovalWorkflow(item).workflowType;
      t == None || t == Some("leave") || t == Some("memo") || t == Some("expense")
  {
  }

  /** The body of a workflow list response: a bare array or a paginated object. */
  datatype WorkflowListBody =
    | ItemArray(items: seq<RawApprovalWorkflow>)
    | Page(data: Nullable<seq<RawApprovalWorkflow>>)

  /** The list-shape unwrapping in `approvalWorkflowsApi.list`. */
  function UnwrapWorkflowList(body: Nullable<WorkflowListBody>): (r: seq<ApprovalWorkflow>)
    ensures body.Val? && body.value.ItemArray? ==>
      |r| == |body.value.items| &&
      forall i :: 0 <= i < |r| ==> r[i] == NormalizeApprovalWorkflow(body.value.items[i])
    ensures body.Val? && body.value.Page? && body.value.data.Val? ==>
      |r| == |body.value.data.value| &&
      forall i :: 0 <= i < |r| ==> r[i] == NormalizeApprovalWorkflow(body.value.data.value[i])
    ensures !body.Val? || (body.value.Page? && !body.value.data.Val?) ==> r == []
  {
    var raw :=
      if body.Val? && body.value.ItemArray? then body.value.items
      else if body.Val? && body.value.data.Val? then body.value.data.value
      else [];
    seq(|raw|, i requires 0 <= i < |raw| => NormalizeApprovalWorkflow(raw[i]))
  }
}
