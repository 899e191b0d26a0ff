/**
 * The audit request form of src/pages/Audit.tsx: the mapping from the form's
 * fields to a `createLead` input, and `handleSubmit`, which raises the
 * `isSubmitting` flag around the awaited create and clears it afterwards.
 */
module AuditPage {
  import opened Wrappers
  import opened Js
  import opened LanguageContext
  import opened LeadService
  import opened Leads
  import opened PageForms

  /** The submitted form fields, each read with `formData.get(...) as string`. */
  datatype AuditForm = AuditForm(
    firstName: string,
    lastName: string,
    email: string,
    company: string,
    phone: string,
    employees: string,
    needs: string)

  const EmptyForm: AuditForm := AuditForm("", "", "", "", "", "", "")
  const Source: string := "audit_page"

  /**
   * The intake input: the source is always 'audit_page', the name is the
   * trimmed "first last", phone, user count and needs are `undefined` when
   * empty, and the company is passed on as it is, empty or not.
   */
  function AuditLeadInput(form: AuditForm, language: Language): (input: CreateLeadInput)
    ensures input.source == Source && input.email == form.email
    ensures input.language == LeadLanguageOf(language)
    ensures input.contact_name == Some(Trim(form.firstName + " " + form.lastName))
    ensures input.company_name == Some(form.company)
    ensures input.phone == (if form.phone == "" then None else Some(form.phone))
    ensures input.nb_users_estimate == (if form.employees == "" then None else Some(form.employees))
    ensures input.message == (if form.needs == "" then None else Some(form.needs))
  {
    CreateLeadInput(
      Some(form.company),
      Some(Trim(form.firstName + " " + form.lastName)),
      form.email,
      NonEmpty(Some(form.phone)),
      LeadLanguageOf(language),
      Source,
      NonEmpty(Some(form.employees)),
      NonEmpty(Some(form.needs)))
  }

  /** Every audit-page submission is dispatched as an `audit` lead. */
  lemma AuditSubmissionIsAuditLead(form: AuditForm, language: Language)
    ensures Classify(AuditLeadInput(form, language).source) == Audit
  {
    assert OccursAt("audit", Source, 0);
  }

  /** With bare, non-empty first and last names the stored contact is "first last". */
  lemma ContactNameJoinsNames(form: AuditForm, language: Language)
    requires form.firstName != "" && !IsSpace(form.firstName[0])
    requires form.lastName != "" && !IsSpace(form.lastName[|form.lastName| - 1])
    ensures AuditLeadInput(form, language).contact_name == Some(form.firstName + " " + form.lastName)
  {
    var joined := form.firstName + " " + form.lastName;
    assert joined[0] == form.firstName[0] && joined[|joined| - 1] == form.lastName[|form.lastName| - 1];
    TrimKeepsBareString(joined);
  }

  /** With both names empty the joined name is a single space, trimmed away, so the row stores `null`. */
  lemma EmptyNamesStoreNoContact(form: AuditForm, language: Language, id: string, at: nat)
    requires form.firstName == "" && form.lastName == ""
    ensures NewRow(AuditLeadInput(form, language), id, at).contact_name == None
  {
    TrimAllSpaces(form.firstName + " " + form.lastName);
  }

  /** An empty company reaches `createLead` as `""` and is stored as `null` there. */
  lemma EmptyCompanyStoredAsNull(form: AuditForm, language: Language, id: string, at: nat)
    requires form.company == ""
    ensures AuditLeadInput(form, language).company_name == Some("")
    ensures NewRow(AuditLeadInput(form, language), id, at).company_name == None
  {
  }

  /** The success toast, in the UI language. */
  function SuccessToast(language: Language): (t: Toast)
    ensures language == Fr ==> t.title == "Demande envoyée !"
    ensures language == Nl ==> t.title == "Aanvraag verzonden!"
    ensures language == En ==> t.title == "Request sent!"
  {
    match language
    case Fr => Toast("Demande envoyée !", "Nous vous contacterons sous 24h pour planifier votre audit.")
    case Nl => Toast("Aanvraag verzonden!", "We nemen binnen 24 uur contact met u op om uw audit te plannen.")
    case En => Toast("Request sent!", "We will contact you within 24h to schedule your audit.")
  }

  /** The page's state: the flag, the form's current fields and the toasts it has shown. */
  class AuditPageState {
    var isSubmitting: bool
    var form: AuditForm
    var toasts: seq<Toast>

    constructor ()
      ensures !isSubmitting && form == EmptyForm && toasts == []
    {
      isSubmitting := false;
      form := EmptyForm;
      toasts := [];
    }

    /**
     * `handleSubmit`: raise the flag, create the lead from the form, and on
     * success show the toast and reset the form; a failure is left to the
     * store hook. The flag is lowered on both paths.
     */
    method HandleSubmit(language: Language, store: LeadStore, reply: InsertReply)
      requires store.Valid()
      modifies this, store
      ensures store.Valid() && !isSubmitting
      ensures InsertSucceeds(old(store.rows), reply) ==>
        && store.rows == old(store.rows)[reply.id := NewRow(AuditLeadInput(old(form), language), reply.id, reply.at)]
        && store.dispatched == old(store.dispatched) + [DispatchPayload(AuditLeadInput(old(form), language))]
        && form == EmptyForm && toasts == old(toasts) + [SuccessToast(language)]
      ensures !InsertSucceeds(old(store.rows), reply) ==>
        && store.rows == old(store.rows) && store.dispatched == old(store.dispatched)
        && form == old(form) && toasts == old(toasts)
    {
      Submit(AuditLeadInput(form, language), SuccessToast(language), store, reply);
    }

    /** The body of `handleSubmit` for a given intake input and success toast. */
    method Submit(input: CreateLeadInput, toast: Toast, store: LeadStore, reply: InsertReply)
      requires store.Valid()
      modifies this, store
      ensures store.Valid() && !isSubmitting
      ensures InsertSucceeds(old(store.rows), reply) ==>
        && store.rows == old(store.rows)[reply.id := NewRow(input, reply.id, reply.at)]
        && store.dispatched == old(store.dispatched) + [DispatchPayload(input)]
        && form == EmptyForm && toasts == old(toasts) + [toast]
      ensures !InsertSucceeds(old(store.rows), reply) ==>
        && store.rows == old(store.rows) && store.dispatched == old(store.dispatched)
        && form == old(form) && toasts == old(toasts)
    {
      isSubmitting := true;
      var created := store.CreateLead(input, reply);
      if created.Ok? {
        toasts := toasts + [toast];
        form := EmptyForm;
      }
      isSubmitting := false;
    }
  }
}
