/**
 * What a successful login leaves in the browser's storage: the token, the
 * company id, the user's display name, first and last names and role, each
 * under its own `cf_` key, followed by the `cf-auth-update` event the header
 * listens for. Storage is a map from keys to values; whether a `window`
 * exists is a parameter.
 */
module Session {
  import opened Text
  import opened Js

  datatype Company = Company(id: Option<string>)

  datatype Employee = Employee(
    company_id: Option<string>, first_name: Option<string>, last_name: Option<string>,
    email: Option<string>)

  /** `response.data` of the login call; `None` in a field is a missing or null value. */
  datatype LoginData = LoginData(
    token: Option<string>, company: Option<Company>, employee: Option<Employee>,
    role: Option<string>)

  const TokenKey := "cf_token"
  const CompanyIdKey := "cf_company_id"
  const UserNameKey := "cf_user_name"
  const FirstNameKey := "cf_user_first_name"
  const LastNameKey := "cf_user_last_name"
  const RoleKey := "cf_user_role"
  const AuthUpdateEvent := "cf-auth-update"

  /** The keys a login may write. */
  const SessionKeys := {TokenKey, CompanyIdKey, UserNameKey, FirstNameKey, LastNameKey, RoleKey}

  /** The profile keys are written after the token and the company id, so neither of those is overwritten. */
  lemma {:induction false} SessionKeysDistinct()
    ensures TokenKey != CompanyIdKey
    ensures TokenKey != UserNameKey && TokenKey != FirstNameKey && TokenKey != LastNameKey && TokenKey != RoleKey
    ensures CompanyIdKey != UserNameKey && CompanyIdKey != FirstNameKey
    ensures CompanyIdKey != LastNameKey && CompanyIdKey != RoleKey
    ensures UserNameKey != FirstNameKey && UserNameKey != LastNameKey && UserNameKey != RoleKey
    ensures FirstNameKey != LastNameKey && FirstNameKey != RoleKey && LastNameKey != RoleKey
  {
    assert |TokenKey| == 8 && |CompanyIdKey| == 13 && |UserNameKey| == 12;
    assert |FirstNameKey| == 18 && |LastNameKey| == 17 && |RoleKey| == 12;
    assert UserNameKey[8] == 'n' && RoleKey[8] == 'r';
  }

  /** `response?.data?.token`. */
  function TokenOf(data: Option<LoginData>): Option<string> {
    if data.Some? then data.value.token else None
  }

  /** `response?.data?.company?.id ?? response?.data?.employee?.company_id`. */
  function CompanyIdOf(data: Option<LoginData>): Option<string> {
    if data.None? then None
    else if data.value.company.Some? && data.value.company.value.id.Some? then data.value.company.value.id
    else if data.value.employee.Some? then data.value.employee.value.company_id
    else None
  }

  /** `response?.data?.employee?.first_name ?? ""`. */
  function FirstNameOf(data: Option<LoginData>): string {
    if data.Some? && data.value.employee.Some? then OptionOr(data.value.employee.value.first_name, "") else ""
  }

  /** `response?.data?.employee?.last_name ?? ""`. */
  function LastNameOf(data: Option<LoginData>): string {
    if data.Some? && data.value.employee.Some? then OptionOr(data.value.employee.value.last_name, "") else ""
  }

  /** `response?.data?.employee?.email ?? ""`. */
  function EmailOf(data: Option<LoginData>): string {
    if data.Some? && data.value.employee.Some? then OptionOr(data.value.employee.value.email, "") else ""
  }

  /** `` `${firstName} ${lastName}`.trim() || email || "Account" ``. */
  function FullName(firstName: string, lastName: string, email: string): (name: string)
    ensures name != ""
    ensures !AllSpace(firstName + " " + lastName) ==> name == Trim(firstName + " " + lastName)
    ensures AllSpace(firstName + " " + lastName) ==> name == OrString(email, "Account")
  {
    TrimBlank(firstName + " " + lastName);
    OrString(OrString(Trim(firstName + " " + lastName), email), "Account")
  }

  /** `response?.data?.role ?? "User"`: an empty role is kept. */
  function RoleOf(data: Option<LoginData>): string {
    if data.Some? && data.value.role.Some? then data.value.role.value else "User"
  }

  /** `key` is stored with exactly `value`. */
  predicate Holds(storage: map<string, string>, key: string, value: string) {
    key in storage && storage[key] == value
  }

  /** `key` is present after exactly when before, with the same value. */
  predicate Kept(before: map<string, string>, after: map<string, string>, key: string) {
    (key in after <==> key in before) && (key in before ==> after[key] == before[key])
  }

  /** `window.localStorage` and the events dispatched on `window`. */
  class Browser {
    var storage: map<string, string>
    var events: seq<string>

    constructor (initial: map<string, string>)
      ensures storage == initial && events == []
    {
      storage := initial;
      events := [];
    }

    /** `localStorage.setItem`. */
    method SetItem(key: string, value: string)
      modifies this
      ensures storage == old(storage)[key := value] && events == old(events)
    {
      storage := storage[key := value];
    }

    /** `window.dispatchEvent`. */
    method DispatchEvent(name: string)
      modifies this
      ensures events == old(events) + [name] && storage == old(storage)
    {
      events := events + [name];
    }
  }

  /** Writes `value` under `key` when it is non-empty and a window exists; otherwise nothing changes. */
  method StoreIfPresent(browser: Browser, hasWindow: bool, key: string, value: Option<string>)
    modifies browser
    ensures hasWindow && Truthy(value) ==> browser.storage == old(browser.storage)[key := value.value]
    ensures !(hasWindow && Truthy(value)) ==> browser.storage == old(browser.storage)
    ensures browser.events == old(browser.events)
  {
    if Truthy(value) && hasWindow {
      browser.SetItem(key, value.value);
    }
  }

  /** The keys written for the user's profile. */
  const ProfileKeys := {UserNameKey, FirstNameKey, LastNameKey, RoleKey}

  /** The four profile keys and the auth-update event, written only when a window exists. */
  method StoreProfile(browser: Browser, hasWindow: bool, fullName: string, firstName: string,
                      lastName: string, role: string)
    modifies browser
    ensures hasWindow ==>
      Holds(browser.storage, UserNameKey, fullName) && Holds(browser.storage, FirstNameKey, firstName) &&
      Holds(browser.storage, LastNameKey, lastName) && Holds(browser.storage, RoleKey, role)
    ensures forall key :: key !in ProfileKeys ==> Kept(old(browser.storage), browser.storage, key)
    ensures hasWindow ==> browser.events == old(browser.events) + [AuthUpdateEvent]
    ensures !hasWindow ==> browser.storage == old(browser.storage) && browser.events == old(browser.events)
  {
    if hasWindow {
      SessionKeysDistinct();
      browser.SetItem(UserNameKey, fullName);
      browser.SetItem(FirstNameKey, firstName);
      browser.SetItem(LastNameKey, lastName);
      browser.SetItem(RoleKey, role);
      browser.DispatchEvent(AuthUpdateEvent);
    }
  }

  /**
   * `useLogin`'s `onSuccess`: the token when it is non-empty, the company id
   * when there is a non-empty one, then the name, first and last names and
   * role, and the auth-update event, all only when a window exists. Keys
   * outside the session keys are never touched.
   */
  method OnLoginSuccess(browser: Browser, hasWindow: bool, data: Option<LoginData>)
    modifies browser
    ensures !hasWindow ==> browser.storage == old(browser.storage) && browser.events == old(browser.events)
    ensures hasWindow ==> browser.events == old(browser.events) + [AuthUpdateEvent]
    ensures hasWindow && Truthy(TokenOf(data)) ==> Holds(browser.storage, TokenKey, TokenOf(data).value)
    ensures !(hasWindow && Truthy(TokenOf(data))) ==> Kept(old(browser.storage), browser.storage, TokenKey)
    ensures hasWindow && Truthy(CompanyIdOf(data)) ==> Holds(browser.storage, CompanyIdKey, CompanyIdOf(data).value)
    ensures !(hasWindow && Truthy(CompanyIdOf(data))) ==> Kept(old(browser.storage), browser.storage, CompanyIdKey)
    ensures hasWindow ==>
      Holds(browser.storage, UserNameKey, FullName(FirstNameOf(data), LastNameOf(data), EmailOf(data))) &&
      Holds(browser.storage, FirstNameKey, FirstNameOf(data)) &&
      Holds(browser.storage, LastNameKey, LastNameOf(data)) &&
      Holds(browser.storage, RoleKey, RoleOf(data))
    ensures forall key :: key !in SessionKeys ==> Kept(old(browser.storage), browser.storage, key)
  {
    SessionKeysDistinct();
    ghost var before := browser.storage;
    StoreIfPresent(browser, hasWindow, TokenKey, TokenOf(data));
    StoreIfPresent(browser, hasWindow, CompanyIdKey, CompanyIdOf(data));
    ghost var credentials := browser.storage;
    var firstName := FirstNameOf(data);
    var lastName := LastNameOf(data);
    var email := EmailOf(data);
    var fullName := FullName(firstName, lastName, email);
    var role := RoleOf(data);
    StoreProfile(browser, hasWindow, fullName, firstName, lastName, role);
    assert TokenKey !in ProfileKeys && CompanyIdKey !in ProfileKeys;
    forall key | key !in SessionKeys
      ensures Kept(before, browser.storage, key)
    {
      assert key !in ProfileKeys && key != TokenKey && key != CompanyIdKey;
      assert Kept(before, credentials, key);
    }
  }

  /** The company's own id wins; the employee's company id is used only without it. */
  lemma {:induction false} CompanyIdPrefersCompany(data: LoginData)
    ensures data.company.Some? && data.company.value.id.Some? ==> CompanyIdOf(Some(data)) == data.company.value.id
    ensures (data.company.None? || data.company.value.id.None?) && data.employee.Some? ==>
      CompanyIdOf(Some(data)) == data.employee.value.company_id
    ensures (data.company.None? || data.company.value.id.None?) && data.employee.None? ==>
      CompanyIdOf(Some(data)) == None
  {
  }

  /** Without an employee record the stored name falls back to "Account" and both names are empty. */
  lemma {:induction false} NoEmployeeStoresAccount(data: LoginData)
    requires data.employee.None?
    ensures FullName(FirstNameOf(Some(data)), LastNameOf(Some(data)), EmailOf(Some(data))) == "Account"
    ensures FirstNameOf(Some(data)) == "" && LastNameOf(Some(data)) == ""
  {
    assert " " == [' '];
    assert AllSpace("" + " " + "");
  }

  /** A first and last name are stored as "first last" when neither has whitespace at the outer ends. */
  lemma {:induction false} FullNameOfNames(firstName: string, lastName: string, email: string)
    requires firstName != [] && lastName != [] && Trimmed(firstName) && Trimmed(lastName)
    ensures FullName(firstName, lastName, email) == firstName + " " + lastName
  {
    var joined := firstName + " " + lastName;
    assert joined[0] == firstName[0] && joined[|joined| - 1] == lastName[|lastName| - 1];
    TrimOfTrimmed(joined);
    assert !IsSpace(joined[0]);
  }

  /** Only a missing role becomes "User"; an empty role is stored as it is. */
  lemma {:induction false} EmptyRoleKept(data: LoginData)
    requires data.role == Some("")
    ensures RoleOf(Some(data)) == ""
  {
  }
}
