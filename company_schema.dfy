/**
 * The company-creation payload schema (`createCompanySchema` with its
 * nested `companyAdminSchema`) as a validity predicate. Lengths are counted
 * in characters; the e-mail check is a parameter.
 */
module CompanySchema {
  import opened Js

  /** The admin account created with the company. */
  datatype AdminInput = AdminInput(
    email: string, password: string, first_name: string, last_name: string,
    phone: Option<string>)

  /** A company-creation request; `None` is an absent optional field. */
  datatype CompanyInput = CompanyInput(
    name: string, slug: string,
    industry: Option<string>, country: Option<string>, timezone: Option<string>,
    currency: Option<string>, registration_number: Option<string>, tax_id: Option<string>,
    address: Option<string>, phone: Option<string>, logo_url: Option<string>,
    status: Option<string>, admin: AdminInput)

  /** `.max(n).optional()`: absent, or at most `n` characters. */
  predicate AtMost(field: Option<string>, n: nat) {
    field.None? || |field.value| <= n
  }

  /** `z.enum(["active", "suspended", "inactive"])`. */
  predicate IsCompanyStatus(s: string) {
    s == "active" || s == "suspended" || s == "inactive"
  }

  /** `.min(2).max(255)`. */
  predicate NameLength(s: string) {
    2 <= |s| <= 255
  }

  /** `companyAdminSchema`: a valid e-mail, a password of 8 or more, both names non-empty; the phone is free. */
  predicate AdminValid(admin: AdminInput, isEmail: string -> bool) {
    isEmail(admin.email) && |admin.password| >= 8 &&
    |admin.first_name| >= 1 && |admin.last_name| >= 1
  }

  /** The bounds on the optional company fields; address and logo URL are unbounded. */
  predicate OptionalFieldsValid(c: CompanyInput) {
    AtMost(c.industry, 100) && AtMost(c.country, 100) && AtMost(c.timezone, 50) &&
    AtMost(c.currency, 10) && AtMost(c.registration_number, 100) && AtMost(c.tax_id, 100) &&
    AtMost(c.phone, 100)
  }

  /** `createCompanySchema`: the status may be absent, but a present one must be in the enum. */
  predicate CreateCompanyValid(c: CompanyInput, isEmail: string -> bool) {
    NameLength(c.name) && NameLength(c.slug) && OptionalFieldsValid(c) &&
    (c.status.None? || IsCompanyStatus(c.status.value)) &&
    AdminValid(c.admin, isEmail)
  }

  /**
   * Every field constraint of the payload schema, read back from a valid
   * payload; the address, the logo URL and the admin's phone may be of any
   * length.
   */
  lemma {:induction false} CreateCompanyValidBounds(c: CompanyInput, isEmail: string -> bool, long: string)
    requires CreateCompanyValid(c, isEmail)
    ensures 2 <= |c.name| <= 255 && 2 <= |c.slug| <= 255
    ensures c.status.Some? ==> c.status.value in {"active", "suspended", "inactive"}
    ensures |c.admin.password| >= 8 && c.admin.first_name != [] && c.admin.last_name != []
    ensures CreateCompanyValid(c.(address := Some(long), logo_url := Some(long)), isEmail)
    ensures CreateCompanyValid(c.(admin := c.admin.(phone := Some(long))), isEmail)
  {
    assert c.admin.first_name != [] by { assert |c.admin.first_name| >= 1; }
    assert c.admin.last_name != [] by { assert |c.admin.last_name| >= 1; }
  }
}
