# Tekio lead pipeline — a Dafny model

This project models the lead intake and triage pipeline of the Tekio marketing site.

- **Intake.** Visitors submit the audit or contact form. The page turns the form into a `CreateLeadInput`. The lead hook inserts a normalised row (status `new`) into the `leads` table. It classifies the lead as `audit`, `expert` or `contact` from its source, and fires one webhook dispatch towards n8n.
- **Dispatch.** The webhook service adds the site name and a timestamp and makes one POST, whose failures it swallows.
- **Edge functions.** Two functions handle an AI reply suggestion and an operator e-mail notification.
- **Admin views.** The list view offers per-status counts and a toggle filter. The detail view offers notes, status changes, and generate-then-save of the AI suggestion.
- **Translation.** A lookup that falls back to the key itself.

Module layout, one module per source file:

- `Wrappers`: `Option` and `Result`.
- `Js`: the JavaScript semantics the code relies on. This covers `||` truthiness, `includes`, `trim`, `slice`, `response.ok` and number-to-string.
- `Leads` (`src/hooks/useLeads.ts`): the table as a class `LeadStore` holding the id-keyed rows and an outbox of dispatched payloads.
- `LeadService` (`src/services/leadService.ts`): the payload builders, and a class `Dispatcher` with its POST and console logs.
- `GenerateLeadReply` and `LeadNotification`: the two edge-function handlers, as pure functions of the request and the upstream reply.
- `LanguageContext`: `t`, the provider's language cell and the `useLanguage` guard.
- `AuditPage`, `ContactPage`, `LeadsList`, `LeadDetail`: the pages' input mappings and their state cells, as classes.
- `PageForms`: the UI-language map and the toast that the audit and contact pages share.

Remote calls become outcome parameters:

- The database's answer to an insert is `InsertReply`: the assigned id and creation time, or an error.
- A fault of any other query is `Option<StoreError>`.
- The webhook's answer is `HttpReply`.
- The AI gateway's and e-mail provider's answers are `GatewayReply` and `ProviderReply`.
- The function invocation result is `InvokeResult`.

Timestamps are opaque strings, or naturals where only their order matters.

## Model

| member | source | states |
|---|---|---|
| Js.OrElse | src/pages/admin/LeadDetail.tsx:159 | `a \|\| b` on an optional string: the value when it is present and non-empty, the fallback otherwise |
| Js.NonEmpty | src/pages/Audit.tsx:60-62 | `x \|\| undefined`: absent exactly when the string is absent or empty, otherwise unchanged |
| Js.Contains | src/hooks/useLeads.ts:102-104 | `includes` is true exactly when the needle occurs at some index of the string |
| Js.Trim | src/pages/Audit.tsx:57 | the result has no ECMAScript white space at either end and is the input with its leading and trailing white-space runs removed |
| Js.TrimKeepsBareString | src/pages/Audit.tsx:57 | a string with no white space at its ends is left unchanged by trim |
| Js.TrimIdempotent | src/pages/Audit.tsx:57 | trimming twice is trimming once |
| Js.TrimAllSpaces | src/pages/Audit.tsx:57 | a string made only of white space trims to the empty string |
| Js.Prefix | src/pages/admin/LeadDetail.tsx:162 | `slice(0, n)` is a prefix of length min(n, length) |
| Js.Digit | supabase/functions/generate-lead-reply/index.ts:96 | the digit character for a value below 10 stands for that value |
| Js.DecimalString | supabase/functions/generate-lead-reply/index.ts:96 | `${n}` is a string of decimal digits whose value is `n`, with no leading zero (a lone `0` exactly for 0) and one digit exactly below 10 |
| Js.DecimalStringReadsBack | supabase/functions/generate-lead-reply/index.ts:96 | two statuses with the same rendering are the same status |
| Leads.LanguageCode | src/hooks/useLeads.ts:6 | a lead language is one of `FR`, `NL`, `EN` |
| Leads.NewRow | src/hooks/useLeads.ts:84-94 | the inserted row stores null for each optional field that is undefined or empty, any other value unchanged, the email, language and source verbatim, status `new`, and no notes or AI suggestion |
| Leads.Classify | src/hooks/useLeads.ts:102-104 | type `audit` exactly when the source contains "audit"; `expert` exactly when it does not but contains "expert"; `contact` exactly when it contains neither |
| Leads.Raw | src/hooks/useLeads.ts:109-114 | an absent input field is sent as undefined, a present one as its own string |
| Leads.DispatchPayload | src/hooks/useLeads.ts:106-115 | the dispatched payload has exactly the nine keys, the classified type, and the raw input fields rather than the normalised row values |
| Leads.PayloadCarriesRawInput | src/hooks/useLeads.ts:84-115 | an empty contact name is dispatched as `""` while the row stores null |
| Leads.Apply | src/hooks/useLeads.ts:143-151 | an update sets its one field and leaves every other field of the lead unchanged |
| Leads.ApplyIdempotent | src/hooks/useLeads.ts:143-151 | applying the same update twice is applying it once |
| Leads.LastStatusWins | src/hooks/useLeads.ts:143-151 | two status updates in a row leave the second status |
| Leads.UpdatesOfDistinctFieldsCommute | src/hooks/useLeads.ts:143-185 | a status update and a notes update commute |
| Leads.InsertNewestFirst | src/hooks/useLeads.ts:44 | inserting a row into the answer adds exactly that row |
| Leads.InsertKeepsNewestFirst | src/hooks/useLeads.ts:44 | the insertion keeps the answer ordered by `created_at` descending |
| Leads.InsertKeepsDistinct | src/hooks/useLeads.ts:44 | the insertion of a new row keeps the answer free of duplicates |
| Leads.LeadStore.constructor | src/hooks/useLeads.ts:41-44 | the table starts empty, with nothing dispatched |
| Leads.LeadStore.CreateLead | src/hooks/useLeads.ts:80-121 | on an insert error that error is returned and neither the table nor the outbox changes; on success the normalised row is stored under its id, exactly one dispatch payload is appended, and the row is returned |
| Leads.LeadStore.Update | src/hooks/useLeads.ts:143-151 | a store fault is returned unchanged; a missing id yields the single-row error; otherwise only the row with that id is replaced by the updated row, which is returned |
| Leads.LeadStore.UpdateStatus | src/hooks/useLeads.ts:143-151 | only the status of the row with that id changes; the updated row is returned; errors leave the table unchanged |
| Leads.LeadStore.UpdateNotes | src/hooks/useLeads.ts:177-185 | only the notes of the row with that id change; the updated row is returned; errors leave the table unchanged |
| Leads.LeadStore.UpdateAiSuggestion | src/hooks/useLeads.ts:210-218 | only the AI suggestion of the row with that id changes; the updated row is returned; errors leave the table unchanged |
| Leads.LeadStore.ListLeads | src/hooks/useLeads.ts:41-53 | a fault is propagated; otherwise the answer holds every stored row matching the status filter (all rows without one), each once, ordered by `created_at` descending |
| Leads.LeadStore.GetLead | src/hooks/useLeads.ts:62-69 | the row with that id, or null when there is none; a fault is propagated |
| Leads.UpdatedRows | src/hooks/useLeads.ts:143-218 | an update keeps the table's ids and every other row, and changes only its field on the one row |
| Leads.UpdateIdempotent | src/hooks/useLeads.ts:143-218 | repeating an update on the table changes nothing more |
| Leads.CreatedThenReadCompany | src/hooks/useLeads.ts:85 | an empty or absent company is stored as null |
| Leads.GenerateReply | src/hooks/useLeads.ts:230-238 | fails with the transport error, or with `data.error` when it is set; succeeds exactly otherwise, with `data.reply` |
| LeadService.TypeName | src/services/leadService.ts:11 | the lead type names are `audit`, `expert`, `contact` |
| LeadService.WithSiteInfo | src/services/leadService.ts:53-57 | the posted payload has the input's keys plus `website` = `tekio.be` and `timestamp`, every other input field preserved |
| LeadService.Spread | src/services/leadService.ts:82-112 | object spread: fields of the later object win, the others keep the earlier value |
| LeadService.Field | src/services/leadService.ts:82-101 | `data?.key` is the field when `data` has it, undefined otherwise |
| LeadService.HelperPayload | src/services/leadService.ts:82-112 | a helper payload has the default type, source and (when the helper has one) message unless the caller's data overrides them; every field of the data is kept |
| LeadService.AuditPayload | src/services/leadService.ts:82-89 | type `audit` and the default audit message unless the data supplies them; every data field overrides |
| LeadService.ExpertPayload | src/services/leadService.ts:94-101 | type `expert` and the default expert message unless the data supplies them; every data field overrides |
| LeadService.ContactPayload | src/services/leadService.ts:106-112 | type `contact` unless overridden; a message appears only when the data has one |
| LeadService.AuditHelperDefaults | src/services/leadService.ts:82-89 | without data the audit payload is exactly type, source and the default message |
| LeadService.HelperKeepsTruthyMessage | src/services/leadService.ts:82-101 | a truthy caller message is the one sent |
| LeadService.DataOverridesHelperDefaults | src/services/leadService.ts:86-88 | an explicitly empty message and an explicit type in the data override the helper's defaults |
| LeadService.DeliveryLog | src/services/leadService.ts:68-76 | the success line is logged exactly for a 2xx answer; a non-2xx answer or a network error is logged as a failure |
| LeadService.Dispatcher.constructor | src/services/leadService.ts:31 | the dispatcher starts with its configured URL and no POST and no log line |
| LeadService.Dispatcher.SendLead | src/services/leadService.ts:40-77 | without a URL only the warning is logged and nothing is posted; otherwise exactly one POST of the payload with site info, and its outcome only reaches the log, never the caller |
| LeadService.Dispatcher.SendAuditLead | src/services/leadService.ts:82-89 | posts the audit payload once, or nothing without a URL |
| LeadService.Dispatcher.SendExpertLead | src/services/leadService.ts:94-101 | posts the expert payload once, or nothing without a URL |
| LeadService.Dispatcher.SendContactLead | src/services/leadService.ts:106-112 | posts the contact payload once, or nothing without a URL |
| GenerateLeadReply.LanguageName | supabase/functions/generate-lead-reply/index.ts:23-29 | French for FR, Dutch for NL, English for EN, French for anything else |
| GenerateLeadReply.LeadLanguageNames | supabase/functions/generate-lead-reply/index.ts:23-29 | every lead language gets its own language name |
| GenerateLeadReply.Information | supabase/functions/generate-lead-reply/index.ts:53-60 | falsy company, contact, phone and user count become 'Not provided', a falsy message 'No message provided'; email and source verbatim |
| GenerateLeadReply.GatewayFailure | supabase/functions/generate-lead-reply/index.ts:79-97 | upstream 429 gives 429, 402 gives 402, any other failure 500 with the status in the message |
| GenerateLeadReply.Handle | supabase/functions/generate-lead-reply/index.ts:8-113 | OPTIONS gives the bare preflight; the gateway is called exactly for a lead with a configured key; a missing key gives 500 without a call; the reply body appears exactly for a 2xx gateway answer; every thrown error (an unreadable body, a body without lead, an unreachable gateway) is a 500 with an error body; the status is 200, 402, 429 or 500 |
| GenerateLeadReply.MissingKeyIgnoresGateway | supabase/functions/generate-lead-reply/index.ts:15-19 | without a key the response does not depend on the gateway, which is never called |
| GenerateLeadReply.GatewayFailuresAreDistinguished | supabase/functions/generate-lead-reply/index.ts:83-96 | for a lead request, 429 and 402 pass through and other failures become 500 |
| LeadNotification.Content | supabase/functions/send-lead-notification/index.ts:58-91 | name, company, phone and employee cells fall back to 'Non renseigné'; the message block appears exactly when the message is truthy |
| LeadNotification.Subject | supabase/functions/send-lead-notification/index.ts:112 | the subject is the prefix, the contact name or the e-mail, " - ", and the company or 'Particulier' |
| LeadNotification.EmailFor | supabase/functions/send-lead-notification/index.ts:109-115 | the mail always goes to `info@tekio.be` alone, with that subject and content |
| LeadNotification.Handle | supabase/functions/send-lead-notification/index.ts:28-140 | OPTIONS gives the preflight only; a missing key gives 500 before the body is read; an e-mail is sent exactly for a parsed request with a key; success with 200 exactly on a 2xx provider answer; a non-2xx answer gives 500 with the provider message or 'Failed to send email'; every other outcome (an unreadable body, an unreachable provider) is a 500 with an error body |
| LeadNotification.AnonymousLeadSubject | supabase/functions/send-lead-notification/index.ts:112 | a lead without name or company is announced by e-mail as 'Particulier' |
| LanguageContext.Translate | src/contexts/LanguageContext.tsx:418-420 | the current table's entry when present and non-empty, the key itself otherwise |
| LanguageContext.TranslateNeverBlank | src/contexts/LanguageContext.tsx:418-420 | a non-empty key never translates to the empty string |
| LanguageContext.TranslateReadsCurrentTable | src/contexts/LanguageContext.tsx:418-420 | the translation depends only on the current language's table |
| LanguageContext.SampleTranslations | src/contexts/LanguageContext.tsx:11-20 | every sample table holds `nav.home` and `contact.title` |
| LanguageContext.MissingKeyIsShownAsKey | src/pages/Contact.tsx:45 | the contact toast's title key, absent from the tables, is shown as the key itself |
| LanguageContext.LanguageProvider.constructor | src/contexts/LanguageContext.tsx:416 | the language starts as `fr` |
| LanguageContext.LanguageProvider.T | src/contexts/LanguageContext.tsx:418-420 | `t` looks up the current language with the key fallback |
| LanguageContext.LanguageProvider.SetLanguage | src/contexts/LanguageContext.tsx:416-420 | after `setLanguage(l)` every `t` reads table `l` |
| LanguageContext.UseLanguage | src/contexts/LanguageContext.tsx:429-435 | fails with its message exactly when there is no provider, else returns it |
| PageForms.LeadLanguageOf | src/pages/Audit.tsx:17-21 | fr, nl and en map to FR, NL and EN, one to one (the contact page's identical map at src/pages/Contact.tsx lines 20-24 is the same function) |
| AuditPage.AuditLeadInput | src/pages/Audit.tsx:55-65 | source `audit_page`; contact name the trimmed joined names; company passed through; phone, employees and needs undefined when empty |
| AuditPage.AuditSubmissionIsAuditLead | src/pages/Audit.tsx:64 | an audit-page submission is classified `audit` |
| AuditPage.ContactNameJoinsNames | src/pages/Audit.tsx:57 | names without outer white space are joined by one space |
| AuditPage.EmptyNamesStoreNoContact | src/pages/Audit.tsx:57 | two empty names store a null contact |
| AuditPage.EmptyCompanyStoredAsNull | src/pages/Audit.tsx:59 | an empty company is passed as `""` and stored as null |
| AuditPage.SuccessToast | src/pages/Audit.tsx:67-74 | the success toast in French, Dutch or English |
| AuditPage.AuditPageState.constructor | src/pages/Audit.tsx:15 | not submitting, empty form, no toast |
| AuditPage.AuditPageState.HandleSubmit | src/pages/Audit.tsx:42-82 | on success the lead is stored and dispatched, the toast shown and the form reset; on failure nothing of these; the flag is lowered on both paths |
| AuditPage.AuditPageState.Submit | src/pages/Audit.tsx:44-80 | for a given intake input and toast: on success the row is stored, one payload dispatched, the toast shown and the form reset; on failure none of these; the flag ends lowered |
| ContactPage.ContactLeadInput | src/pages/Contact.tsx:35-43 | source `contact_page`; name and message passed through; company and phone undefined when empty |
| ContactPage.ContactSubmissionIsContactLead | src/pages/Contact.tsx:42 | a contact-page submission is classified `contact`, its source containing neither "audit" nor "expert" |
| ContactPage.ContactPageState.constructor | src/pages/Contact.tsx:19 | not submitting, empty form, no toast |
| ContactPage.ContactPageState.HandleSubmit | src/pages/Contact.tsx:25-54 | on success the lead is stored and dispatched, the toast with the translated keys shown and the form reset; on failure nothing of these; the flag is lowered on both paths |
| LeadsList.CardsCoverEveryStatus | src/pages/admin/LeadsList.tsx:75 | the five cards cover every status |
| LeadsList.Toggle | src/pages/admin/LeadsList.tsx:81 | a card click gives 'all' exactly when the filter was that card, the card's status otherwise |
| LeadsList.ToggleTwice | src/pages/admin/LeadsList.tsx:81 | clicking the same card twice restores the filter exactly when it was 'all' or that card, and gives 'all' otherwise |
| LeadsList.QueryFilter | src/pages/admin/LeadsList.tsx:50-52 | 'all' queries with no status, any other filter with its status |
| LeadsList.WithStatus | src/pages/admin/LeadsList.tsx:76 | the loaded leads with that status, each exactly as often as it was loaded and in the loaded order (a subsequence), and no other lead |
| LeadsList.CardCount | src/pages/admin/LeadsList.tsx:76 | the number of loaded leads with that status, 0 when nothing is loaded |
| LeadsList.CountsCoverEveryLead | src/pages/admin/LeadsList.tsx:75-76 | the five counts sum to the number of loaded leads |
| LeadsList.CountStep | src/pages/admin/LeadsList.tsx:76 | each loaded lead adds one to its own status's count and nothing to the others |
| LeadsList.FilteredCounts | src/pages/admin/LeadsList.tsx:50-76 | under a status filter that card counts every loaded lead and the others show 0 |
| LeadsList.UniformCounts | src/pages/admin/LeadsList.tsx:76 | when every loaded lead has one status, that card counts them all and every other card shows 0 |
| LeadsList.LeadsListView.constructor | src/pages/admin/LeadsList.tsx:49 | the filter starts as 'all' |
| LeadsList.LeadsListView.ClickCard | src/pages/admin/LeadsList.tsx:81 | a card click applies the toggle |
| LeadsList.LeadsListView.SelectFilter | src/pages/admin/LeadsList.tsx:93-96 | the dropdown sets the filter |
| LeadsList.LeadsListView.Reset | src/pages/admin/LeadsList.tsx:109-113 | reset sets 'all', after which it is no longer offered |
| LeadsList.LeadsListView.Load | src/pages/admin/LeadsList.tsx:50-52 | the view's list is the store's listing for its filter |
| LeadDetail.Title | src/pages/admin/LeadDetail.tsx:159 | the company if truthy, else the contact if truthy, else the e-mail |
| LeadDetail.TitleOfStoredLead | src/pages/admin/LeadDetail.tsx:159 | a stored lead with an e-mail never has a blank title |
| LeadDetail.GenerateLabel | src/pages/admin/LeadDetail.tsx:279-281 | Dutch for NL, English for EN, French otherwise |
| LeadDetail.SourceLabel | src/pages/admin/LeadDetail.tsx:246 | the mapped label for a known source, the raw source otherwise |
| LeadDetail.ShortId | src/pages/admin/LeadDetail.tsx:162 | the first eight characters of the id, or the whole id when shorter |
| LeadDetail.LeadDetailView.constructor | src/pages/admin/LeadDetail.tsx:78-80 | empty notes and reply, not initialised |
| LeadDetail.LeadDetailView.Render | src/pages/admin/LeadDetail.tsx:84-88 | notes and reply are copied from the lead once, null becoming `""`; afterwards nothing is overwritten |
| LeadDetail.LeadDetailView.EditNotes | src/pages/admin/LeadDetail.tsx:342 | typing changes only the notes |
| LeadDetail.LeadDetailView.HandleStatusChange | src/pages/admin/LeadDetail.tsx:90-94 | the status is updated only when an id is present |
| LeadDetail.LeadDetailView.HandleSaveNotes | src/pages/admin/LeadDetail.tsx:96-100 | the notes are saved only when an id is present |
| LeadDetail.LeadDetailView.HandleGenerateReply | src/pages/admin/LeadDetail.tsx:102-112 | nothing without a lead; a failed generation rejects and changes nothing; on success the same text is shown and, with an id, saved as the AI suggestion |

## Left out

- I/O: the database client, the n8n webhook `fetch`, the e-mail provider and the AI gateway. Each is replaced by the outcome parameter it would deliver.
- Timestamps: the `new Date().toISOString()` of the webhook payload is a parameter. The store-assigned `created_at` is a natural used only for ordering. The store-side `updated_at` maintenance is not modelled: `updated_at` keeps its insert value.
- Concurrency: the unawaited dispatch in `createLead` is an outbox append, `LeadStore.dispatched`. Its delivery by `Dispatcher.SendLead` is modelled separately, because `createLead` never reads its outcome.
- `Dispatcher.SendLead`: its documentation comment says it throws when the URL is missing or the POST fails. The code warns or logs in both cases and resolves, and the model follows the code.
- `Dispatcher.SendLead`: the `statusText` of a failed response, the JSON headers and the console wording are not modelled. Only which kind of line is logged is modelled.
- `LeadStore.ListLeads`: the database's sort is modelled as insertion by `created_at`. Rows with equal `created_at` may come in any order.
- `LeadStore.CreateLead`: a store-assigned id that collides with an existing row is modelled as a unique-key error.
- React Query: cache invalidation, `isPending`, the `enabled: !!id` guard of `useLead`, and the error toasts of the mutations are library behaviour.
- `AuditPageState.HandleSubmit` and `ContactPageState.HandleSubmit`: `isSubmitting` being true while the create is awaited is internal to the method. Only its final value is stated.
- Toasts as UI: only their title and text are modelled. Clipboard copy, `setTimeout`, date-fns formatting, badges, colours and markup are presentation.
- `GenerateLeadReply.Handle`: the prompt text and the system prompt are not modelled. Only the field fallbacks and the reply language that go into the prompt are. The gateway's first-choice content is taken as a string; an undefined content is not modelled.
- `GenerateLeadReply.Handle`: runtime exceptions are one `RuntimeMessage` error text. These cover an unreadable body and a body without a lead.
- `LeadNotification.Content`: the e-mail HTML markup is not modelled. Only the cell values and the presence of the message block are.
- Translate: `translations[language][key] || key` on a key that names an inherited `Object.prototype` member (e.g. `constructor`, `toString`) returns that member in the source; the model returns the key, since its tables hold only their own entries.
- T (`LanguageContext.LanguageProvider.T`): the same inherited-prototype-key case as `Translate`; the model returns the key.
- LanguageName (`GenerateLeadReply.LanguageName`): a language code naming an inherited prototype member would yield that member rather than 'French'; not modelled.
- SourceLabel (`LeadDetail.SourceLabel`): a source naming an inherited prototype member would yield that member rather than the raw source; not modelled.
- `GenerateLeadReply.Handle`: a gateway answer whose body cannot be read (`response.text()` on a failure, `response.json()` on a success) throws and is a 500 in the source; the model passes it as `Unreachable`, which gives that 500.
- `LanguageContext`: the full translation tables are abstract. `SampleTranslations` holds three keys from them.
- The lead type `expert` is reachable only from sources containing "expert". No core page sends one, so only the classifier covers it.
