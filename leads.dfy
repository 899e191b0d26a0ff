/**
 * The lead store client and intake of src/hooks/useLeads.ts.
 *
 * The remote `leads` table is the map `rows` of class LeadStore, keyed by
 * id; every answer of the remote store (an assigned id and timestamp, or an
 * error) is a parameter. `dispatched` is the outbox of `sendLead` calls that
 * `createLead` starts and never awaits.
 */
module Leads {
  import opened Wrappers
  import opened Js
  import opened LeadService

  datatype LeadLanguage = FR | NL | EN
  datatype LeadStatus = New | Contacted | Proposal | Won | Lost

  /** The stored and transmitted form of a lead language. */
  function LanguageCode(l: LeadLanguage): (code: string)
    ensures code in {"FR", "NL", "EN"}
  {
    match l
    case FR => "FR"
    case NL => "NL"
    case EN => "EN"
  }

  /**
   * A row of the `leads` table. A nullable column is an Option (None is
   * `null`); timestamps are modelled by their order only.
   */
  datatype Lead = Lead(
    id: string,
    company_name: Option<string>,
    contact_name: Option<string>,
    email: string,
    phone: Option<string>,
    language: LeadLanguage,
    source: string,
    nb_users_estimate: Option<string>,
    message: Option<string>,
    notes: Option<string>,
    status: LeadStatus,
    ai_suggestion: Option<string>,
    created_at: nat,
    updated_at: nat)

  /** The argument of `createLead`; an optional field is None when `undefined`. */
  datatype CreateLeadInput = CreateLeadInput(
    company_name: Option<string>,
    contact_name: Option<string>,
    email: string,
    phone: Option<string>,
    language: LeadLanguage,
    source: string,
    nb_users_estimate: Option<string>,
    message: Option<string>)

  /** Errors of the remote store, propagated as they are. */
  datatype StoreError =
    | Transport(detail: string)   // the request failed or the store refused it
    | NoSingleRow                 // `.single()` matched no row
    | UniqueViolation             // the assigned id is already taken

  /** The store's answer to an insert: the id and creation time it assigned, or a failure. */
  datatype InsertReply = Assigned(id: string, at: nat) | Rejected(error: StoreError)

  /** The optional intake columns of a row never hold `""`: `createLead` stores `null` instead. */
  ghost predicate IntakeNormalised(l: Lead) {
    && l.company_name != Some("") && l.contact_name != Some("") && l.phone != Some("")
    && l.nb_users_estimate != Some("") && l.message != Some("")
  }

  /**
   * The row `createLead` inserts: each optional field that is `undefined` or
   * `""` becomes `null`, the others are stored unchanged, and the status is
   * `new` whatever the input.
   */
  function NewRow(input: CreateLeadInput, id: string, at: nat): (l: Lead)
    ensures l.id == id && l.created_at == at && l.status == New
    ensures l.email == input.email && l.language == input.language && l.source == input.source
    ensures l.company_name.None? <==> !Present(input.company_name)
    ensures l.company_name.Some? ==> l.company_name == input.company_name
    ensures l.contact_name.None? <==> !Present(input.contact_name)
    ensures l.contact_name.Some? ==> l.contact_name == input.contact_name
    ensures l.phone.None? <==> !Present(input.phone)
    ensures l.phone.Some? ==> l.phone == input.phone
    ensures l.nb_users_estimate.None? <==> !Present(input.nb_users_estimate)
    ensures l.nb_users_estimate.Some? ==> l.nb_users_estimate == input.nb_users_estimate
    ensures l.message.None? <==> !Present(input.message)
    ensures l.message.Some? ==> l.message == input.message
    ensures l.notes.None? && l.ai_suggestion.None?
    ensures IntakeNormalised(l)
  {
    Lead(id, NonEmpty(input.company_name), NonEmpty(input.contact_name), input.email,
         NonEmpty(input.phone), input.language, input.source, NonEmpty(input.nb_users_estimate),
         NonEmpty(input.message), None, New, None, at, at)
  }

  /** The lead type of a source: the substring tests run in order, `audit` first, then `expert`. */
  function Classify(source: string): (t: LeadType)
    ensures t == Audit <==> Occurs("audit", source)
    ensures t == Expert <==> !Occurs("audit", source) && Occurs("expert", source)
    ensures t == Contact <==> !Occurs("audit", source) && !Occurs("expert", source)
  {
    if Contains(source, "audit") then Audit
    else if Contains(source, "expert") then Expert
    else Contact
  }

  /** An optional input field as it appears in the payload object: absent becomes `undefined`. */
  function Raw(o: Option<string>): (v: JsVal)
    ensures v.Undefined? <==> o.None?
    ensures o.Some? ==> v == Str(o.value)
  {
    if o.Some? then Str(o.value) else Undefined
  }

  /**
   * The payload `createLead` hands to `sendLead`: the classified type and
   * the RAW input fields, not the null-normalised row values.
   */
  function DispatchPayload(input: CreateLeadInput): (p: Payload)
    ensures p.Keys == {"type", "source", "name", "email", "phone", "company", "message", "nb_users_estimate", "language"}
    ensures p["type"] == Str(TypeName(Classify(input.source)))
    ensures p["source"] == Str(input.source) && p["email"] == Str(input.email)
    ensures p["language"] == Str(LanguageCode(input.language))
    ensures p["name"] == Raw(input.contact_name) && p["company"] == Raw(input.company_name)
    ensures p["phone"] == Raw(input.phone) && p["message"] == Raw(input.message)
    ensures p["nb_users_estimate"] == Raw(input.nb_users_estimate)
  {
    map[
      "type" := Str(TypeName(Classify(input.source))),
      "source" := Str(input.source),
      "name" := Raw(input.contact_name),
      "email" := Str(input.email),
      "phone" := Raw(input.phone),
      "company" := Raw(input.company_name),
      "message" := Raw(input.message),
      "nb_users_estimate" := Raw(input.nb_users_estimate),
      "language" := Str(LanguageCode(input.language))]
  }

  /** The payload keeps an empty contact name that the stored row turns into `null`. */
  lemma PayloadCarriesRawInput(input: CreateLeadInput, id: string, at: nat)
    requires input.contact_name == Some("")
    ensures DispatchPayload(input)["name"] == Str("")
    ensures NewRow(input, id, at).contact_name == None
  {
  }

  /** A single-field update, as issued by the three update mutations. */
  datatype Patch = SetStatus(status: LeadStatus) | SetNotes(notes: string) | SetAiSuggestion(text: string)

  /** The two leads agree on every column the patch does not name. */
  ghost predicate SameExcept(a: Lead, b: Lead, p: Patch) {
    && a.id == b.id && a.company_name == b.company_name && a.contact_name == b.contact_name
    && a.email == b.email && a.phone == b.phone && a.language == b.language && a.source == b.source
    && a.nb_users_estimate == b.nb_users_estimate && a.message == b.message
    && a.created_at == b.created_at && a.updated_at == b.updated_at
    && (!p.SetStatus? ==> a.status == b.status)
    && (!p.SetNotes? ==> a.notes == b.notes)
    && (!p.SetAiSuggestion? ==> a.ai_suggestion == b.ai_suggestion)
  }

  /** The lead holds the value the patch writes. */
  ghost predicate Holds(l: Lead, p: Patch) {
    match p
    case SetStatus(s) => l.status == s
    case SetNotes(n) => l.notes == Some(n)
    case SetAiSuggestion(t) => l.ai_suggestion == Some(t)
  }

  /** The row after `.update({field})`: the named field holds the new value, nothing else changes. */
  function Apply(l: Lead, p: Patch): (r: Lead)
    ensures Holds(r, p) && SameExcept(l, r, p)
  {
    match p
    case SetStatus(s) => l.(status := s)
    case SetNotes(n) => l.(notes := Some(n))
    case SetAiSuggestion(t) => l.(ai_suggestion := Some(t))
  }

  /** Applying the same update twice is applying it once. */
  lemma ApplyIdempotent(l: Lead, p: Patch)
    ensures Apply(Apply(l, p), p) == Apply(l, p)
  {
    var once := Apply(l, p);
    var twice := Apply(once, p);
    assert SameExcept(once, twice, p) && Holds(twice, p) && Holds(once, p);
  }

  /** Status transitions are unconstrained and the last write wins. */
  lemma LastStatusWins(l: Lead, a: LeadStatus, b: LeadStatus)
    ensures Apply(Apply(l, SetStatus(a)), SetStatus(b)) == Apply(l, SetStatus(b))
  {
  }

  /** Updates of different fields commute. */
  lemma UpdatesOfDistinctFieldsCommute(l: Lead, s: LeadStatus, n: string)
    ensures Apply(Apply(l, SetStatus(s)), SetNotes(n)) == Apply(Apply(l, SetNotes(n)), SetStatus(s))
  {
    var a := Apply(Apply(l, SetStatus(s)), SetNotes(n));
    var b := Apply(Apply(l, SetNotes(n)), SetStatus(s));
    assert a.status == s == b.status && a.notes == Some(n) == b.notes;
  }

  /** The list query's filter: `eq('status', s)` when a status is given. */
  predicate Matches(l: Lead, statusFilter: Option<LeadStatus>) {
    statusFilter.None? || l.status == statusFilter.value
  }

  /** Ordered by `created_at`, newest first. */
  ghost predicate NewestFirst(s: seq<Lead>) {
    forall i, j :: 0 <= i < j < |s| ==> s[i].created_at >= s[j].created_at
  }

  ghost predicate Distinct(s: seq<Lead>) {
    forall i, j :: 0 <= i < j < |s| ==> s[i] != s[j]
  }

  /** `s` is the answer of the list query over `rows`: exactly the matching rows, once each, newest first. */
  ghost predicate IsListing(rows: map<string, Lead>, statusFilter: Option<LeadStatus>, s: seq<Lead>) {
    && NewestFirst(s)
    && Distinct(s)
    && forall l :: l in s <==> (l.id in rows && rows[l.id] == l && Matches(l, statusFilter))
  }

  /** Inserts `x` into a newest-first sequence before the first lead that is not newer. */
  function InsertNewestFirst(s: seq<Lead>, x: Lead): (r: seq<Lead>)
    ensures |r| == |s| + 1
    ensures forall y :: y in r <==> y in s || y == x
  {
    if s == [] || x.created_at >= s[0].created_at then [x] + s
    else [s[0]] + InsertNewestFirst(s[1..], x)
  }

  /** The head of a newest-first sequence is at least as new as every lead in it. */
  lemma HeadIsNewest(s: seq<Lead>)
    requires NewestFirst(s) && s != []
    ensures forall y :: y in s ==> s[0].created_at >= y.created_at
  {
    forall y | y in s ensures s[0].created_at >= y.created_at {
      var k :| 0 <= k < |s| && s[k] == y;
    }
  }

  /** A lead at least as new as every lead of a newest-first sequence can go in front of it. */
  lemma ConsNewestFirst(h: Lead, t: seq<Lead>)
    requires NewestFirst(t)
    requires forall y :: y in t ==> h.created_at >= y.created_at
    ensures NewestFirst([h] + t)
  {
    var r := [h] + t;
    forall i, j | 0 <= i < j < |r| ensures r[i].created_at >= r[j].created_at {
      if i == 0 {
        assert r[j] == t[j - 1] && t[j - 1] in t;
      } else {
        assert r[i] == t[i - 1] && r[j] == t[j - 1];
      }
    }
  }

  /** Insertion keeps a newest-first sequence newest first. */
  lemma {:induction false} InsertKeepsNewestFirst(s: seq<Lead>, x: Lead)
    requires NewestFirst(s)
    ensures NewestFirst(InsertNewestFirst(s, x))
  {
    if s == [] {
      ConsNewestFirst(x, s);
    } else if x.created_at >= s[0].created_at {
      HeadIsNewest(s);
      ConsNewestFirst(x, s);
    } else {
      assert NewestFirst(s[1..]) by {
        forall i, j | 0 <= i < j < |s[1..]| ensures s[1..][i].created_at >= s[1..][j].created_at {
          assert s[1..][i] == s[i + 1] && s[1..][j] == s[j + 1];
        }
      }
      InsertKeepsNewestFirst(s[1..], x);
      HeadIsNewest(s);
      var tail := InsertNewestFirst(s[1..], x);
      assert forall y :: y in tail ==> y in s || y == x by {
        forall y | y in tail ensures y in s || y == x {
          if y != x {
            var k :| 0 <= k < |s[1..]| && s[1..][k] == y;
            assert s[k + 1] == y;
          }
        }
      }
      ConsNewestFirst(s[0], tail);
    }
  }

  /** Inserting a lead that is not yet there keeps the sequence free of repetitions. */
  lemma {:induction false} InsertKeepsDistinct(s: seq<Lead>, x: Lead)
    requires Distinct(s) && x !in s
    ensures Distinct(InsertNewestFirst(s, x))
  {
    var r := InsertNewestFirst(s, x);
    if s == [] || x.created_at >= s[0].created_at {
      forall i, j | 0 <= i < j < |r| ensures r[i] != r[j] {
        if i == 0 {
          assert r[j] == s[j - 1];
        } else {
          assert r[i] == s[i - 1] && r[j] == s[j - 1];
        }
      }
    } else {
      var tail := InsertNewestFirst(s[1..], x);
      assert Distinct(s[1..]) by {
        forall i, j | 0 <= i < j < |s[1..]| ensures s[1..][i] != s[1..][j] {
          assert s[1..][i] == s[i + 1] && s[1..][j] == s[j + 1];
        }
      }
      InsertKeepsDistinct(s[1..], x);
      assert s[0] !in tail;
      forall i, j | 0 <= i < j < |r| ensures r[i] != r[j] {
        if i == 0 {
          assert r[j] in tail;
        } else {
          assert r[i] == tail[i - 1] && r[j] == tail[j - 1];
        }
      }
    }
  }

  /** Every row is filed under its own id and was normalised at intake. */
  ghost predicate TableInvariant(rows: map<string, Lead>) {
    forall id :: id in rows ==> rows[id].id == id && IntakeNormalised(rows[id])
  }

  /** `createLead` writes exactly when the store assigned an id that is not taken. */
  predicate InsertSucceeds(rows: map<string, Lead>, reply: InsertReply) {
    reply.Assigned? && reply.id !in rows
  }

  /** The `leads` table and the outbox of dispatches that `createLead` started. */
  class LeadStore {
    var rows: map<string, Lead>
    var dispatched: seq<Payload>

    ghost predicate Valid()
      reads this
    {
      TableInvariant(rows)
    }

    constructor ()
      ensures Valid() && rows == map[] && dispatched == []
    {
      rows := map[];
      dispatched := [];
    }

    /**
     * `createLead(input)`: insert the normalised row with status `new`; on a
     * store error, propagate it and dispatch nothing; on success append one
     * dispatch of the classified payload and return the inserted row. The
     * dispatch is never awaited, so its outcome cannot reach the result.
     */
    method CreateLead(input: CreateLeadInput, reply: InsertReply) returns (r: Result<Lead, StoreError>)
      requires Valid()
      modifies this
      ensures Valid()
      ensures reply.Rejected? ==> r == Err(reply.error)
      ensures reply.Assigned? && reply.id in old(rows) ==> r == Err(UniqueViolation)
      ensures !InsertSucceeds(old(rows), reply) ==> rows == old(rows) && dispatched == old(dispatched)
      ensures InsertSucceeds(old(rows), reply) ==>
        && r == Ok(NewRow(input, reply.id, reply.at))
        && rows == old(rows)[reply.id := r.value]
        && dispatched == old(dispatched) + [DispatchPayload(input)]
    {
      if reply.Rejected? {
        return Err(reply.error);
      }
      if reply.id in rows {
        return Err(UniqueViolation);
      }
      var row := NewRow(input, reply.id, reply.at);
      rows := rows[reply.id := row];
      dispatched := dispatched + [DispatchPayload(input)];
      r := Ok(row);
    }

    /** The three update mutations: a single-field update of the row with that id, returned by `.single()`. */
    method Update(id: string, p: Patch, fault: Option<StoreError>) returns (r: Result<Lead, StoreError>)
      requires Valid()
      modifies this
      ensures Valid() && dispatched == old(dispatched)
      ensures fault.Some? ==> r == Err(fault.value) && rows == old(rows)
      ensures fault.None? && id !in old(rows) ==> r == Err(NoSingleRow) && rows == old(rows)
      ensures fault.None? && id in old(rows) ==>
        r == Ok(Apply(old(rows)[id], p)) && rows == old(rows)[id := r.value]
    {
      if fault.Some? {
        return Err(fault.value);
      }
      if id !in rows {
        return Err(NoSingleRow);
      }
      var updated := Apply(rows[id], p);
      rows := rows[id := updated];
      r := Ok(updated);
    }

    /** `useUpdateLeadStatus`'s mutation. */
    method UpdateStatus(id: string, status: LeadStatus, fault: Option<StoreError>) returns (r: Result<Lead, StoreError>)
      requires Valid()
      modifies this
      ensures Valid() && dispatched == old(dispatched)
      ensures fault.Some? ==> r == Err(fault.value) && rows == old(rows)
      ensures fault.None? && id !in old(rows) ==> r == Err(NoSingleRow) && rows == old(rows)
      ensures fault.None? && id in old(rows) ==>
        r == Ok(old(rows)[id].(status := status)) && rows == old(rows)[id := r.value]
    {
      r := Update(id, SetStatus(status), fault);
    }

    /** `useUpdateLeadNotes`'s mutation. */
    method UpdateNotes(id: string, notes: string, fault: Option<StoreError>) returns (r: Result<Lead, StoreError>)
      requires Valid()
      modifies this
      ensures Valid() && dispatched == old(dispatched)
      ensures fault.Some? ==> r == Err(fault.value) && rows == old(rows)
      ensures fault.None? && id !in old(rows) ==> r == Err(NoSingleRow) && rows == old(rows)
      ensures fault.None? && id in old(rows) ==>
        r == Ok(old(rows)[id].(notes := Some(notes))) && rows == old(rows)[id := r.value]
    {
      r := Update(id, SetNotes(notes), fault);
    }

    /** `useUpdateLeadAISuggestion`'s mutation. */
    method UpdateAiSuggestion(id: string, text: string, fault: Option<StoreError>) returns (r: Result<Lead, StoreError>)
      requires Valid()
      modifies this
      ensures Valid() && dispatched == old(dispatched)
      ensures fault.Some? ==> r == Err(fault.value) && rows == old(rows)
      ensures fault.None? && id !in old(rows) ==> r == Err(NoSingleRow) && rows == old(rows)
      ensures fault.None? && id in old(rows) ==>
        r == Ok(old(rows)[id].(ai_suggestion := Some(text))) && rows == old(rows)[id := r.value]
    {
      r := Update(id, SetAiSuggestion(text), fault);
    }

    /**
     * `useLeads(statusFilter)`'s query: every row matching the filter, once,
     * newest first. The store's sort is modelled as an insertion of each
     * matching row into the answer.
     */
    method ListLeads(statusFilter: Option<LeadStatus>, fault: Option<StoreError>) returns (r: Result<seq<Lead>, StoreError>)
      requires Valid()
      ensures fault.Some? ==> r == Err(fault.value)
      ensures fault.None? ==> r.Ok? && IsListing(rows, statusFilter, r.value)
    {
      if fault.Some? {
        return Err(fault.value);
      }
      var pending := rows.Keys;
      var answer: seq<Lead> := [];
      while pending != {}
        invariant pending <= rows.Keys
        invariant NewestFirst(answer) && Distinct(answer)
        invariant forall l :: l in answer <==> (l.id in rows.Keys - pending && rows[l.id] == l && Matches(l, statusFilter))
        decreases pending
      {
        var id :| id in pending;
        pending := pending - {id};
        var row := rows[id];
        if Matches(row, statusFilter) {
          InsertKeepsNewestFirst(answer, row);
          InsertKeepsDistinct(answer, row);
          answer := InsertNewestFirst(answer, row);
        }
      }
      r := Ok(answer);
    }

    /** `useLead(id)`'s query: `.maybeSingle()` answers `null` when no row has that id. */
    method GetLead(id: string, fault: Option<StoreError>) returns (r: Result<Option<Lead>, StoreError>)
      requires Valid()
      ensures fault.Some? ==> r == Err(fault.value)
      ensures fault.None? && id in rows ==> r == Ok(Some(rows[id])) && r.value.value.id == id
      ensures fault.None? && id !in rows ==> r == Ok(None)
    {
      if fault.Some? {
        return Err(fault.value);
      }
      if id in rows {
        r := Ok(Some(rows[id]));
      } else {
        r := Ok(None);
      }
    }
  }

  /** The id-keyed table after an update: one row replaced, every other row unchanged. */
  function UpdatedRows(rows: map<string, Lead>, id: string, p: Patch): (r: map<string, Lead>)
    requires id in rows
    ensures r.Keys == rows.Keys
    ensures forall k :: k in rows && k != id ==> r[k] == rows[k]
    ensures Holds(r[id], p) && SameExcept(rows[id], r[id], p)
  {
    rows[id := Apply(rows[id], p)]
  }

  /** Repeating an update leaves the table as one update did. */
  lemma UpdateIdempotent(rows: map<string, Lead>, id: string, p: Patch)
    requires id in rows
    ensures UpdatedRows(UpdatedRows(rows, id, p), id, p) == UpdatedRows(rows, id, p)
  {
    ApplyIdempotent(rows[id], p);
  }

  /** A lead created with an empty or missing company reads back with `null`, not `""`. */
  lemma CreatedThenReadCompany(input: CreateLeadInput, id: string, at: nat)
    requires !Present(input.company_name)
    ensures NewRow(input, id, at).company_name == None
  {
  }

  /**
   * The reply-generation mutation of `useGenerateLeadReply`: what
   * `supabase.functions.invoke` delivered, either a failure or the decoded
   * response body (`error` present when it holds one).
   */
  datatype InvokeResult = InvokeFailed(message: string) | InvokeData(error: Option<string>, reply: string)

  /** Fails on a transport error or a truthy `data.error`; otherwise the text is `data.reply`. */
  function GenerateReply(invoke: InvokeResult): (r: Result<string, string>)
    ensures invoke.InvokeFailed? ==> r == Err(invoke.message)
    ensures invoke.InvokeData? && Present(invoke.error) ==> r == Err(invoke.error.value)
    ensures r.Ok? <==> invoke.InvokeData? && !Present(invoke.error)
    ensures r.Ok? ==> r.value == invoke.reply
  {
    match invoke
    case InvokeFailed(m) => Err(m)
    case InvokeData(e, reply) => if Present(e) then Err(e.value) else Ok(reply)
  }
}
