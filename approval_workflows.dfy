/**
 * The approval-workflow editor: the comma-separated step list typed by the
 * administrator is split, each token read with `Number(token.trim())`, and
 * only positive finite values kept; creation is guarded by company,
 * department and step presence, in that order.
 */
module ApprovalWorkflows {
  import opened Text
  import opened Js

  // ---------------------------------------------------------------------
  // Splitting and joining

  function IndexOf(s: string, c: char): (i: nat)
    requires c in s
    ensures i < |s| && s[i] == c && c !in s[..i]
  {
    if s[0] == c then 0 else 1 + IndexOf(s[1..], c)
  }

  /** `parts.join(sep)`. */
  function Join(parts: seq<string>, sep: char): string
    requires |parts| >= 1
  {
    if |parts| == 1 then parts[0] else parts[0] + [sep] + Join(parts[1..], sep)
  }

  /**
   * `s.split(sep)`: at least one part, no part contains the separator, and
   * joining the parts with the separator gives back `s`.
   */
  function Split(s: string, sep: char): (parts: seq<string>)
    ensures |parts| >= 1
    ensures forall k :: 0 <= k < |parts| ==> sep !in parts[k]
    ensures Join(parts, sep) == s
    decreases |s|
  {
    if sep !in s then [s]
    else
      var i := IndexOf(s, sep);
      var rest := Split(s[i + 1..], sep);
      assert s == s[..i] + [sep] + s[i + 1..];
      [s[..i]] + rest
  }

  // ---------------------------------------------------------------------
  // Step parsing

  /** `.map(value => Number(value.trim()))` over the tokens. */
  function TokenNumbers(tokens: seq<string>): (nums: seq<Num>)
    ensures |nums| == |tokens|
    ensures forall k :: 0 <= k < |tokens| ==> nums[k] == ToNumber(Trim(tokens[k]))
  {
    seq(|tokens|, k requires 0 <= k < |tokens| => ToNumber(Trim(tokens[k])))
  }

  predicate IsStep(n: Num) { n.Finite? && n.value > 0 }

  /** How many of `nums` pass the step filter. */
  function CountSteps(nums: seq<Num>): nat {
    if nums == [] then 0 else (if IsStep(nums[0]) then 1 else 0) + CountSteps(nums[1..])
  }

  /** `a` occurs in `nums`, in order, each element as a finite number. */
  predicate Subsequence(a: seq<int>, nums: seq<Num>)
    decreases |nums|
  {
    a == [] ||
    (nums != [] &&
      ((nums[0] == Finite(a[0]) && Subsequence(a[1..], nums[1..])) || Subsequence(a, nums[1..])))
  }

  /**
   * `.filter(value => Number.isFinite(value) && value > 0)`: every kept value
   * is positive, the kept values appear in the input in order, and exactly
   * the passing elements are kept.
   */
  function KeepSteps(nums: seq<Num>): (steps: seq<int>)
    ensures forall k :: 0 <= k < |steps| ==> steps[k] > 0
    ensures Subsequence(steps, nums)
    ensures |steps| == CountSteps(nums)
  {
    if nums == [] then []
    else if IsStep(nums[0]) then [nums[0].value] + KeepSteps(nums[1..])
    else KeepSteps(nums[1..])
  }

  /** The step list parsed from the steps input. */
  function ParseSteps(input: string): (steps: seq<int>)
    ensures forall k :: 0 <= k < |steps| ==> steps[k] > 0
    ensures Subsequence(steps, TokenNumbers(Split(input, ',')))
    ensures |steps| == CountSteps(TokenNumbers(Split(input, ',')))
  {
    KeepSteps(TokenNumbers(Split(input, ',')))
  }

  /** Every positive numeral token, wherever it stands, is one of the parsed steps. */
  lemma {:induction false} KeepStepsComplete(nums: seq<Num>, k: nat)
    requires k < |nums| && IsStep(nums[k])
    ensures nums[k].value in KeepSteps(nums)
  {
    if k > 0 {
      KeepStepsComplete(nums[1..], k - 1);
    }
  }

  /** An input made only of blanks, zeros and commas yields no steps. */
  lemma {:induction false} NoStepsFromZeros(nums: seq<Num>)
    requires forall k :: 0 <= k < |nums| ==> !IsStep(nums[k])
    ensures KeepSteps(nums) == []
  {
    if nums != [] {
      NoStepsFromZeros(nums[1..]);
    }
  }

  /** A token that is a numeral with surrounding blanks reads as its value. */
  lemma PaddedTokenReadsAsValue(digits: string, pad: string)
    requires digits != [] && AllDigits(digits) && AllSpace(pad)
    ensures ToNumber(Trim(pad + digits + pad)) == Finite(DigitsValue(digits))
  {
    var s := pad + digits + pad;
    assert s == pad + (digits + pad);
    assert IsDigit(digits[0]) && IsDigit(digits[|digits| - 1]);
    TrimStartPadded(pad, digits + pad);
    TrimEndPadded(digits, pad);
    assert Trim(s) == digits;
    TrimOfTrimmed(digits);
    assert ToNumber(digits) == Finite(DigitsValue(digits));
  }

  lemma {:induction false} TrimStartPadded(pad: string, rest: string)
    requires AllSpace(pad) && rest != [] && !IsSpace(rest[0])
    ensures TrimStart(pad + rest) == rest
  {
    if pad != [] {
      assert (pad + rest)[1..] == pad[1..] + rest;
      TrimStartPadded(pad[1..], rest);
    }
  }

  lemma {:induction false} TrimEndPadded(body: string, pad: string)
    requires AllSpace(pad) && body != [] && !IsSpace(body[|body| - 1])
    ensures TrimEnd(body + pad) == body
  {
    if pad != [] {
      assert (body + pad)[..|body + pad| - 1] == body + pad[..|pad| - 1];
      TrimEndPadded(body, pad[..|pad| - 1]);
    }
  }

  // ---------------------------------------------------------------------
  // The create form

  datatype WorkflowType = Leave | Memo | Expense

  /** The body of the create-workflow call. */
  datatype CreateWorkflowPayload = CreateWorkflowPayload(
    companyId: string, departmentId: string, isActive: bool,
    steps: seq<int>, workflowType: WorkflowType)

  datatype CreateOutcome =
    | MissingCompanyId
    | MissingDepartment
    | NoValidSteps
    | Create(payload: CreateWorkflowPayload)

  /**
   * `queryCompanyId || storedCompanyId`: the `company_id` query parameter
   * when it is present and non-empty, otherwise the stored company id.
   */
  function CompanyId(query: Option<string>, stored: string): (id: string)
    ensures query.Some? && query.value != "" ==> id == query.value
    ensures query.None? || query.value == "" ==> id == stored
  {
    if query.Some? then OrString(query.value, stored) else stored
  }

  /** The create-form state of the approval-workflows page. */
  class WorkflowForm {
    var departmentId: string
    var workflowType: WorkflowType
    var isActive: bool
    var stepsInput: string

    /** The initial and post-create values: memo, active, no department, steps "1". */
    predicate IsInitial()
      reads this
    {
      workflowType == Memo && isActive && departmentId == "" && stepsInput == "1"
    }

    constructor ()
      ensures IsInitial()
    {
      departmentId, workflowType, isActive, stepsInput := "", Memo, true, "1";
    }

    /**
     * `handleCreate`: the guards run in order (company id, department, at
     * least one valid step) and the first failure stops creation; otherwise
     * the payload passes the form's values and the parsed steps through.
     */
    method HandleCreate(companyId: string) returns (outcome: CreateOutcome)
      ensures companyId == "" ==> outcome == MissingCompanyId
      ensures companyId != "" && departmentId == "" ==> outcome == MissingDepartment
      ensures companyId != "" && departmentId != "" && ParseSteps(stepsInput) == [] ==> outcome == NoValidSteps
      ensures outcome.Create? <==> companyId != "" && departmentId != "" && ParseSteps(stepsInput) != []
      ensures outcome.Create? ==>
        outcome.payload == CreateWorkflowPayload(companyId, departmentId, isActive, ParseSteps(stepsInput), workflowType)
      ensures outcome.Create? ==>
        |outcome.payload.steps| > 0 && forall k :: 0 <= k < |outcome.payload.steps| ==> outcome.payload.steps[k] > 0
    {
      if companyId == "" {
        return MissingCompanyId;
      }
      if departmentId == "" {
        return MissingDepartment;
      }
      var parsedSteps := ParseSteps(stepsInput);
      if |parsedSteps| == 0 {
        return NoValidSteps;
      }
      outcome := Create(CreateWorkflowPayload(companyId, departmentId, isActive, parsedSteps, workflowType));
    }

    /** The create call's `onSuccess`: the four form fields return to their initial values. */
    method OnCreated()
      modifies this
      ensures IsInitial()
    {
      workflowType := Memo;
      isActive := true;
      departmentId := "";
      stepsInput := "1";
    }
  }

  /** The initial steps input "1" parses to the single step 1. */
  lemma InitialStepsInputParses()
    ensures ParseSteps("1") == [1]
  {
    assert Split("1", ',') == ["1"];
    TrimOfTrimmed("1");
    assert DigitsValue("1") == DigitsValue("") * 10 + 1;
    assert TokenNumbers(["1"]) == [Finite(1)];
  }
}
