/**
 * The landing page's company sign-up form: its own schema (`formSchema`
 * with a stricter `companyAdminSchema`) and its default values. The form
 * schema refines the payload schema: status is required and the admin's
 * phone is bounded.
 */
module Landing {
  import opened Js
  import opened CompanySchema

  /** The landing page's `companyAdminSchema`: the payload rules plus a phone of at most 100 characters. */
  predicate FormAdminValid(admin: AdminInput, isEmail: string -> bool) {
    AdminValid(admin, isEmail) && AtMost(admin.phone, 100)
  }

  /** `formSchema`: as the payload schema, but the status must be present. */
  predicate FormValid(c: CompanyInput, isEmail: string -> bool) {
    NameLength(c.name) && NameLength(c.slug) && OptionalFieldsValid(c) &&
    c.status.Some? && IsCompanyStatus(c.status.value) &&
    FormAdminValid(c.admin, isEmail)
  }

  /** `defaultValues`: every text field empty and the status "active". */
  function DefaultValues(): CompanyInput {
    CompanyInput(
      "", "", Some(""), Some(""), Some(""), Some(""), Some(""), Some(""), Some(""), Some(""), Some(""),
      Some("active"), AdminInput("", "", "", "", Some("")))
  }

  /** Everything the form accepts, the payload schema accepts. */
  lemma {:induction false} FormRefinesPayload(c: CompanyInput, isEmail: string -> bool)
    requires FormValid(c, isEmail)
    ensures CreateCompanyValid(c, isEmail)
  {
  }

  /**
   * The refinement is strict: a valid payload without a status, or with an
   * admin phone over 100 characters, is refused by the form.
   */
  lemma {:induction false} FormStricterThanPayload(c: CompanyInput, isEmail: string -> bool, longPhone: string)
    requires CreateCompanyValid(c, isEmail) && |longPhone| > 100
    ensures CreateCompanyValid(c.(status := None), isEmail) && !FormValid(c.(status := None), isEmail)
    ensures CreateCompanyValid(c.(admin := c.admin.(phone := Some(longPhone))), isEmail)
    ensures !FormValid(c.(admin := c.admin.(phone := Some(longPhone))), isEmail)
  {
  }

  /** The untouched form does not validate under either schema, whatever the e-mail check says. */
  lemma {:induction false} DefaultValuesRejected(isEmail: string -> bool)
    ensures !FormValid(DefaultValues(), isEmail)
    ensures !CreateCompanyValid(DefaultValues(), isEmail)
  {
    assert |DefaultValues().name| == 0;
  }

  /** A password shorter than 8 characters is refused by both schemas. */
  lemma {:induction false} ShortPasswordRejected(c: CompanyInput, isEmail: string -> bool)
    requires |c.admin.password| < 8
    ensures !FormValid(c, isEmail) && !CreateCompanyValid(c, isEmail)
  {
  }

  /** Filling in the names, the e-mail and a long enough password makes the defaults acceptable. */
  lemma {:induction false} FilledDefaultsAccepted(
    isEmail: string -> bool, name: string, slug: string, email: string, password: string,
    first: string, last: string)
    requires NameLength(name) && NameLength(slug) && isEmail(email) && |password| >= 8
    requires first != [] && last != []
    ensures FormValid(DefaultValues().(name := name, slug := slug,
      admin := AdminInput(email, password, first, last, Some(""))), isEmail)
  {
  }
}
