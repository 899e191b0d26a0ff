/**
 * The contact form of src/pages/Contact.tsx: its mapping from form fields
 * to a `createLead` input and its `handleSubmit` around the `isSubmitting`
 * flag.
 */
module ContactPage {
  import opened Wrappers
  import opened Js
  import opened LanguageContext
  import opened LeadService
  import opened Leads
  import opened PageForms

  /** The submitted form fields. */
  datatype ContactForm = ContactForm(name: string, email: string, company: string, phone: string, message: string)

  const EmptyForm: ContactForm := ContactForm("", "", "", "", "")
  const Source: string := "contact_page"

  /**
   * The intake input: source 'contact_page'; company and phone are
   * `undefined` when empty; name and message are passed on unchanged.
   */
  function ContactLeadInput(form: ContactForm, language: Language): (input: CreateLeadInput)
    ensures input.source == Source && input.email == form.email
    ensures input.language == LeadLanguageOf(language)
    ensures input.contact_name == Some(form.name) && input.message == Some(form.message)
    ensures input.company_name == (if form.company == "" then None else Some(form.company))
    ensures input.phone == (if form.phone == "" then None else Some(form.phone))
    ensures input.nb_users_estimate == None
  {
    CreateLeadInput(
      NonEmpty(Some(form.company)),
      Some(form.name),
      form.email,
      NonEmpty(Some(form.phone)),
      LeadLanguageOf(language),
      Source,
      None,
      Some(form.message))
  }

  /** 'contact_page' contains neither "audit" nor "expert", so every contact-page lead is a `contact` lead. */
  lemma ContactSubmissionIsContactLead(form: ContactForm, language: Language)
    ensures Classify(ContactLeadInput(form, language).source) == Contact
  {
    forall i ensures !OccursAt("audit", Source, i) {
      if 0 <= i && i + 5 <= |Source| {
        assert Source[i..i + 5][0] == Source[i] && Source[i..i + 5][1] == Source[i + 1];
      }
    }
    forall i ensures !OccursAt("expert", Source, i) {
      if 0 <= i && i + 6 <= |Source| {
        assert Source[i..i + 6][0] == Source[i];
      }
    }
  }

  /** The page's state: the flag, the form's fields and the toasts shown. */
  class ContactPageState {
    var isSubmitting: bool
    var form: ContactForm
    var toasts: seq<Toast>
    const i18n: LanguageProvider

    constructor (i18n: LanguageProvider)
      ensures !isSubmitting && form == EmptyForm && toasts == [] && this.i18n == i18n
    {
      isSubmitting := false;
      form := EmptyForm;
      toasts := [];
      this.i18n := i18n;
    }

    /**
     * `handleSubmit`: raise the flag, create the lead; on success show the
     * toast titled through `t` and reset the form; lower the flag on both paths.
     */
    method HandleSubmit(store: LeadStore, reply: InsertReply)
      requires store.Valid()
      modifies this, store
      ensures store.Valid() && !isSubmitting
      ensures InsertSucceeds(old(store.rows), reply) ==>
        && store.rows == old(store.rows)[reply.id := NewRow(ContactLeadInput(old(form), i18n.language), reply.id, reply.at)]
        && store.dispatched == old(store.dispatched) + [DispatchPayload(ContactLeadInput(old(form), i18n.language))]
        && form == EmptyForm
        && toasts == old(toasts) + [Toast(i18n.T("contact.toast.success.title"), i18n.T("contact.toast.success.desc"))]
      ensures !InsertSucceeds(old(store.rows), reply) ==>
        && store.rows == old(store.rows) && store.dispatched == old(store.dispatched)
        && form == old(form) && toasts == old(toasts)
    {
      isSubmitting := true;
      var input := ContactLeadInput(form, i18n.language);
      var created := store.CreateLead(input, reply);
      if created.Ok? {
        toasts := toasts + [Toast(i18n.T("contact.toast.success.title"), i18n.T("contact.toast.success.desc"))];
        form := EmptyForm;
      }
      isSubmitting := false;
    }
  }
}
