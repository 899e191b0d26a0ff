/**
 * What the audit and contact pages (src/pages/Audit.tsx, src/pages/Contact.tsx)
 * have in common: both declare the same `languageMap` from the UI language to
 * a lead language, and both report a successful submission with a toast.
 */
module PageForms {
  import opened LanguageContext
  import opened Leads

  /** `languageMap`: the UI language as a lead language. */
  function LeadLanguageOf(l: Language): (r: LeadLanguage)
    ensures l == Fr <==> r == FR
    ensures l == Nl <==> r == NL
    ensures l == En <==> r == EN
  {
    match l
    case Fr => FR
    case Nl => NL
    case En => EN
  }

  /** A toast's title and description. */
  datatype Toast = Toast(title: string, description: string)
}
