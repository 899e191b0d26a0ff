/**
 * The admin detail view of src/pages/admin/LeadDetail.tsx: the one-shot
 * initialisation of the notes and AI-reply cells, the id guard on the
 * status and notes mutations, generate-then-save for the AI suggestion, and
 * the title and label fallbacks.
 */
module LeadDetail {
  import opened Wrappers
  import opened Js
  import opened Leads

  /** The header title: the company, else the contact, else the e-mail. */
  function Title(lead: Lead): (t: string)
    ensures Present(lead.company_name) ==> t == lead.company_name.value
    ensures !Present(lead.company_name) && Present(lead.contact_name) ==> t == lead.contact_name.value
    ensures !Present(lead.company_name) && !Present(lead.contact_name) ==> t == lead.email
  {
    OrElse(lead.company_name, OrElse(lead.contact_name, lead.email))
  }

  /** A lead that went through intake is never titled `""` unless its e-mail is. */
  lemma TitleOfStoredLead(lead: Lead)
    requires IntakeNormalised(lead) && lead.email != ""
    ensures Title(lead) != ""
  {
  }

  /** The generate button's label in the lead's language, French by default. */
  function GenerateLabel(l: LeadLanguage): (text: string)
    ensures l == NL ==> text == "Antwoord genereren"
    ensures l == EN ==> text == "Generate reply"
    ensures l == FR ==> text == "Générer une réponse"
  {
    if l == NL then "Antwoord genereren" else if l == EN then "Generate reply" else "Générer une réponse"
  }

  const SourceLabels: map<string, string> :=
    map["home" := "Accueil", "audit_page" := "Page Audit", "contact_page" := "Page Contact", "pricing_page" := "Page Tarifs"]

  /** `sourceLabels[lead.source] || lead.source`. */
  function SourceLabel(source: string): (text: string)
    ensures source in SourceLabels ==> text == SourceLabels[source]
    ensures source !in SourceLabels ==> text == source
  {
    if source in SourceLabels && SourceLabels[source] != "" then SourceLabels[source] else source
  }

  /** `lead.id.slice(0, 8)`. */
  function ShortId(id: string): (short: string)
    ensures short <= id
    ensures |short| == if |id| < 8 then |id| else 8
  {
    Prefix(id, 8)
  }

  /** The view's state cells, and the `id` route parameter (None when absent). */
  class LeadDetailView {
    const id: Option<string>
    var notes: string
    var notesInitialized: bool
    var aiReply: string

    constructor (id: Option<string>)
      ensures this.id == id && notes == "" && !notesInitialized && aiReply == ""
    {
      this.id := id;
      notes := "";
      notesInitialized := false;
      aiReply := "";
    }

    /** The initialisation block run on every render: copies the lead's fields once, `null` becoming `""`. */
    method Render(lead: Option<Lead>)
      modifies this
      ensures lead.Some? && !old(notesInitialized) ==>
        notes == OrElse(lead.value.notes, "") && aiReply == OrElse(lead.value.ai_suggestion, "") && notesInitialized
      ensures !(lead.Some? && !old(notesInitialized)) ==>
        notes == old(notes) && aiReply == old(aiReply) && notesInitialized == old(notesInitialized)
    {
      if lead.Some? && !notesInitialized {
        notes := OrElse(lead.value.notes, "");
        aiReply := OrElse(lead.value.ai_suggestion, "");
        notesInitialized := true;
      }
    }

    /** Typing in the notes field. */
    method EditNotes(text: string)
      modifies this
      ensures notes == text && aiReply == old(aiReply) && notesInitialized == old(notesInitialized)
    {
      notes := text;
    }

    /** `handleStatusChange`: update the status only when there is an id. */
    method HandleStatusChange(newStatus: LeadStatus, store: LeadStore, fault: Option<StoreError>)
      requires store.Valid()
      modifies store
      ensures store.Valid() && store.dispatched == old(store.dispatched)
      ensures Present(id) && fault.None? && id.value in old(store.rows) ==>
        store.rows == old(store.rows)[id.value := old(store.rows)[id.value].(status := newStatus)]
      ensures !(Present(id) && fault.None? && id.value in old(store.rows)) ==> store.rows == old(store.rows)
    {
      if Present(id) {
        var _ := store.UpdateStatus(id.value, newStatus, fault);
      }
    }

    /** `handleSaveNotes`: save the notes field only when there is an id. */
    method HandleSaveNotes(store: LeadStore, fault: Option<StoreError>)
      requires store.Valid()
      modifies store
      ensures store.Valid() && store.dispatched == old(store.dispatched)
      ensures Present(id) && fault.None? && id.value in old(store.rows) ==>
        store.rows == old(store.rows)[id.value := old(store.rows)[id.value].(notes := Some(notes))]
      ensures !(Present(id) && fault.None? && id.value in old(store.rows)) ==> store.rows == old(store.rows)
    {
      if Present(id) {
        var _ := store.UpdateNotes(id.value, notes, fault);
      }
    }

    /**
     * `handleGenerateReply`: nothing without a lead; a failed generation
     * rejects and saves nothing; otherwise the same text is shown and, when
     * there is an id, saved as the lead's AI suggestion.
     */
    method HandleGenerateReply(lead: Option<Lead>, invoke: InvokeResult, store: LeadStore, fault: Option<StoreError>)
      returns (r: Result<(), string>)
      requires store.Valid()
      modifies this, store
      ensures store.Valid() && store.dispatched == old(store.dispatched)
      ensures notes == old(notes) && notesInitialized == old(notesInitialized)
      ensures lead.None? ==> r == Ok(()) && aiReply == old(aiReply) && store.rows == old(store.rows)
      ensures lead.Some? && GenerateReply(invoke).Err? ==>
        r == Err(GenerateReply(invoke).error) && aiReply == old(aiReply) && store.rows == old(store.rows)
      ensures lead.Some? && GenerateReply(invoke).Ok? ==> r == Ok(()) && aiReply == GenerateReply(invoke).value
      ensures lead.Some? && GenerateReply(invoke).Ok? && Present(id) && fault.None? && id.value in old(store.rows) ==>
        store.rows == old(store.rows)[id.value := old(store.rows)[id.value].(ai_suggestion := Some(aiReply))]
      ensures !(lead.Some? && GenerateReply(invoke).Ok? && Present(id) && fault.None? && id.value in old(store.rows)) ==>
        store.rows == old(store.rows)
    {
      if lead.None? {
        return Ok(());
      }
      var reply := GenerateReply(invoke);
      if reply.Err? {
        return Err(reply.error);
      }
      aiReply := reply.value;
      if Present(id) {
        var _ := store.UpdateAiSuggestion(id.value, reply.value, fault);
      }
      r := Ok(());
    }
  }
}
