/** The wizard's pages and the checks `validateAndNext` runs before leaving
    each one. Every violation on the page is reported, in field order within
    entry order, and list entries are numbered from 1. */
module Validation {
  import opened ResumeTypes
  import opened Text

  datatype Page =
    | ProfileInfoPage | ContactInfoPage | WorkExperiencePage | EducationInfoPage
    | SkillsPage | ProjectsPage | CertificationsPage | AdditionalInfoPage

  /** The eight pages in wizard order. */
  const Pages: seq<Page> := [ProfileInfoPage, ContactInfoPage, WorkExperiencePage, EducationInfoPage,
                             SkillsPage, ProjectsPage, CertificationsPage, AdditionalInfoPage]

  /** `pages.indexOf(currentPage)`: every page is in the list, exactly once. */
  function PageIndex(p: Page): (i: nat)
    ensures i < |Pages| && Pages[i] == p
  {
    match p
    case ProfileInfoPage => 0
    case ContactInfoPage => 1
    case WorkExperiencePage => 2
    case EducationInfoPage => 3
    case SkillsPage => 4
    case ProjectsPage => 5
    case CertificationsPage => 6
    case AdditionalInfoPage => 7
  }

  /** `PageIndex` and `Pages` are inverse: no page appears twice. */
  lemma PageIndexOfPages(i: nat)
    requires i < |Pages|
    ensures PageIndex(Pages[i]) == i
  {
  }

  /* ---------- the contact patterns ---------- */

  /** `/^\S+@\S+\.\S+$/`: three non-empty runs of non-space characters joined by
      an `@` and then a `.`. The runs may themselves hold `@` and `.`. */
  predicate EmailPattern(s: string) {
    exists i, j | 0 < i && i + 1 < j && j + 1 < |s| ::
      s[i] == '@' && s[j] == '.' && NoSpace(s[..i]) && NoSpace(s[i + 1..j]) && NoSpace(s[j + 1..])
  }

  /** `/^\d{10}$/`: exactly ten decimal digits. */
  predicate PhonePattern(s: string) {
    |s| == 10 && forall k | 0 <= k < |s| :: IsDigit(s[k])
  }

  /** An address the email pattern accepts has no white space at all, so it
      also survives `trim()`: the source's separate blank test adds nothing. */
  lemma EmailPatternHasText(s: string)
    requires EmailPattern(s)
    ensures NoSpace(s) && HasText(s)
  {
    var i, j :| 0 < i && i + 1 < j && j + 1 < |s| && s[i] == '@' && s[j] == '.'
                && NoSpace(s[..i]) && NoSpace(s[i + 1..j]) && NoSpace(s[j + 1..]);
    forall k | 0 <= k < |s|
      ensures !IsSpace(s[k])
    {
      if k < i {
        assert s[k] == s[..i][k];
      } else if i < k < j {
        assert s[k] == s[i + 1..j][k - i - 1];
      } else if j < k {
        assert s[k] == s[j + 1..][k - j - 1];
      }
    }
    HasTextIffNonSpace(s);
    assert !IsSpace(s[0]);
  }

  /** Likewise ten digits contain no white space. */
  lemma PhonePatternHasText(s: string)
    requires PhonePattern(s)
    ensures HasText(s)
  {
    HasTextIffNonSpace(s);
    assert !IsSpace(s[0]);
  }

  /* ---------- the messages ---------- */

  const FullNameRequired := "Full Name is required"
  const DesignationRequired := "Designation is required"
  const SummaryRequired := "Summary is required"
  const EmailRequired := "Valid email is required."
  const PhoneRequired := "Valid 10-digit phone number is required"
  const LanguageRequired := "At least one language is required"
  const InterestRequired := "At least one interest is required"

  /** Messages about list entry `at` (its number, from 1, in decimal). */
  function CompanyRequired(at: string): string { "Company is required in experience " + at }
  function RoleRequired(at: string): string { "Role is required in experience " + at }
  function WorkDatesRequired(at: string): string { "Start and End dates are required in experience " + at }
  function DegreeRequired(at: string): string { "Degree is required in education " + at }
  function InstitutionRequired(at: string): string { "Institution is required in education " + at }
  function EducationDatesRequired(at: string): string { "Start and End dates are required in education " + at }
  function SkillNameRequired(at: string): string { "Skill name is required in skill " + at }
  function SkillProgressRange(at: string): string { "Skill progress must be between 1 and 100 in skill " + at }
  function ProjectTitleRequired(at: string): string { "Project Title is required in project " + at }
  function ProjectDescriptionRequired(at: string): string { "Project description is required in project " + at }
  function CertificationTitleRequired(at: string): string { "Certification Title is required in certification " + at }
  function IssuerRequired(at: string): string { "Issuer is required in certification " + at }

  /** `if (cond) errors.push(message)` */
  function Push(errors: seq<string>, cond: bool, message: string): seq<string> {
    if cond then errors + [message] else errors
  }

  /* ---------- per-page checks, each pushing onto the messages found so far ---------- */

  function ProfileChecks(errors: seq<string>, p: Profile): seq<string> {
    var errors := Push(errors, !HasText(p.fullName), FullNameRequired);
    var errors := Push(errors, !HasText(p.designation), DesignationRequired);
    Push(errors, !HasText(p.summary), SummaryRequired)
  }

  function ContactChecks(errors: seq<string>, c: Contact): seq<string> {
    var errors := Push(errors, !HasText(c.email) || !EmailPattern(c.email), EmailRequired);
    Push(errors, !HasText(c.phone) || !PhonePattern(c.phone), PhoneRequired)
  }

  /** The checks on list entry number `n` (counted from 1). */
  function WorkChecks(errors: seq<string>, w: Work, n: nat): seq<string> {
    var at := NatToString(n);
    var errors := Push(errors, !HasText(w.company), CompanyRequired(at));
    var errors := Push(errors, !HasText(w.role), RoleRequired(at));
    Push(errors, !IsSet(w.startDate) || !IsSet(w.endDate), WorkDatesRequired(at))
  }

  function EducationChecks(errors: seq<string>, e: Education, n: nat): seq<string> {
    var at := NatToString(n);
    var errors := Push(errors, !HasText(e.degree), DegreeRequired(at));
    var errors := Push(errors, !HasText(e.institution), InstitutionRequired(at));
    Push(errors, !IsSet(e.startDate) || !IsSet(e.endDate), EducationDatesRequired(at))
  }

  function SkillChecks(errors: seq<string>, s: Skill, n: nat): seq<string> {
    var at := NatToString(n);
    var errors := Push(errors, !HasText(s.name), SkillNameRequired(at));
    Push(errors, s.progress < 1 || s.progress > 100, SkillProgressRange(at))
  }

  function ProjectChecks(errors: seq<string>, p: Project, n: nat): seq<string> {
    var at := NatToString(n);
    var errors := Push(errors, !HasText(p.title), ProjectTitleRequired(at));
    Push(errors, !HasText(p.description), ProjectDescriptionRequired(at))
  }

  function CertificationChecks(errors: seq<string>, c: Certification, n: nat): seq<string> {
    var at := NatToString(n);
    var errors := Push(errors, !HasText(c.title), CertificationTitleRequired(at));
    Push(errors, !HasText(c.issuer), IssuerRequired(at))
  }

  /** `s.forEach((x, index) => check(x, index + 1))`: every entry in turn. */
  function EntriesErrors<T>(s: seq<T>, check: (seq<string>, T, nat) -> seq<string>): seq<string> {
    if s == [] then [] else check(EntriesErrors(s[..|s| - 1], check), s[|s| - 1], |s|)
  }

  /** Only the first language and the first interest are looked at. */
  function AdditionalChecks(errors: seq<string>, ls: seq<Language>, ins: seq<string>): seq<string> {
    var errors := Push(errors, |ls| == 0 || !HasText(ls[0].name), LanguageRequired);
    Push(errors, |ins| == 0 || !HasText(ins[0]), InterestRequired)
  }

  /** Everything wrong with page `page` of draft `d`. */
  function PageErrors(page: Page, d: Draft): seq<string> {
    match page
    case ProfileInfoPage => ProfileChecks([], d.profileInfo)
    case ContactInfoPage => ContactChecks([], d.contactInfo)
    case WorkExperiencePage => EntriesErrors(d.workExperience, WorkChecks)
    case EducationInfoPage => EntriesErrors(d.education, EducationChecks)
    case SkillsPage => EntriesErrors(d.skills, SkillChecks)
    case ProjectsPage => EntriesErrors(d.projects, ProjectChecks)
    case CertificationsPage => EntriesErrors(d.certifications, CertificationChecks)
    case AdditionalInfoPage => AdditionalChecks([], d.languages, d.interests)
  }

  /* ---------- the checks as the source runs them ---------- */

  /** The `switch` in `validateAndNext`: push each violation as it is found. */
  method CollectErrors(page: Page, d: Draft) returns (errors: seq<string>)
    ensures errors == PageErrors(page, d)
  {
    errors := [];
    match page {
      case ProfileInfoPage =>
        var p := d.profileInfo;
        if !HasText(p.fullName) { errors := errors + [FullNameRequired]; }
        if !HasText(p.designation) { errors := errors + [DesignationRequired]; }
        if !HasText(p.summary) { errors := errors + [SummaryRequired]; }
      case ContactInfoPage =>
        var c := d.contactInfo;
        if !HasText(c.email) || !EmailPattern(c.email) { errors := errors + [EmailRequired]; }
        if !HasText(c.phone) || !PhonePattern(c.phone) { errors := errors + [PhoneRequired]; }
      case WorkExperiencePage =>
        errors := CollectWorkErrors(d.workExperience);
      case EducationInfoPage =>
        errors := CollectEducationErrors(d.education);
      case SkillsPage =>
        errors := CollectSkillErrors(d.skills);
      case ProjectsPage =>
        errors := CollectProjectErrors(d.projects);
      case CertificationsPage =>
        errors := CollectCertificationErrors(d.certifications);
      case AdditionalInfoPage =>
        if |d.languages| == 0 || !HasText(d.languages[0].name) { errors := errors + [LanguageRequired]; }
        if |d.interests| == 0 || !HasText(d.interests[0]) { errors := errors + [InterestRequired]; }
    }
  }

  /** `workExperience.forEach(..., index)` on the work page. */
  method CollectWorkErrors(ws: seq<Work>) returns (errors: seq<string>)
    ensures errors == EntriesErrors(ws, WorkChecks)
  {
    errors := [];
    for i := 0 to |ws|
      invariant errors == EntriesErrors(ws[..i], WorkChecks)
    {
      var w, at := ws[i], NatToString(i + 1);
      assert ws[..i + 1][..i] == ws[..i];
      ghost var before := errors;
      if !HasText(w.company) { errors := errors + [CompanyRequired(at)]; }
      if !HasText(w.role) { errors := errors + [RoleRequired(at)]; }
      if !IsSet(w.startDate) || !IsSet(w.endDate) {
        errors := errors + [WorkDatesRequired(at)];
      }
      assert errors == WorkChecks(before, w, i + 1);
    }
    assert ws[..|ws|] == ws;
  }

  method CollectEducationErrors(es: seq<Education>) returns (errors: seq<string>)
    ensures errors == EntriesErrors(es, EducationChecks)
  {
    errors := [];
    for i := 0 to |es|
      invariant errors == EntriesErrors(es[..i], EducationChecks)
    {
      var e, at := es[i], NatToString(i + 1);
      assert es[..i + 1][..i] == es[..i];
      ghost var before := errors;
      if !HasText(e.degree) { errors := errors + [DegreeRequired(at)]; }
      if !HasText(e.institution) { errors := errors + [InstitutionRequired(at)]; }
      if !IsSet(e.startDate) || !IsSet(e.endDate) {
        errors := errors + [EducationDatesRequired(at)];
      }
      assert errors == EducationChecks(before, e, i + 1);
    }
    assert es[..|es|] == es;
  }

  method CollectSkillErrors(ss: seq<Skill>) returns (errors: seq<string>)
    ensures errors == EntriesErrors(ss, SkillChecks)
  {
    errors := [];
    for i := 0 to |ss|
      invariant errors == EntriesErrors(ss[..i], SkillChecks)
    {
      var s, at := ss[i], NatToString(i + 1);
      assert ss[..i + 1][..i] == ss[..i];
      ghost var before := errors;
      if !HasText(s.name) { errors := errors + [SkillNameRequired(at)]; }
      if s.progress < 1 || s.progress > 100 {
        errors := errors + [SkillProgressRange(at)];
      }
      assert errors == SkillChecks(before, s, i + 1);
    }
    assert ss[..|ss|] == ss;
  }

  method CollectProjectErrors(ps: seq<Project>) returns (errors: seq<string>)
    ensures errors == EntriesErrors(ps, ProjectChecks)
  {
    errors := [];
    for i := 0 to |ps|
      invariant errors == EntriesErrors(ps[..i], ProjectChecks)
    {
      var p, at := ps[i], NatToString(i + 1);
      assert ps[..i + 1][..i] == ps[..i];
      ghost var before := errors;
      if !HasText(p.title) { errors := errors + [ProjectTitleRequired(at)]; }
      if !HasText(p.description) { errors := errors + [ProjectDescriptionRequired(at)]; }
      assert errors == ProjectChecks(before, p, i + 1);
    }
    assert ps[..|ps|] == ps;
  }

  method CollectCertificationErrors(cs: seq<Certification>) returns (errors: seq<string>)
    ensures errors == EntriesErrors(cs, CertificationChecks)
  {
    errors := [];
    for i := 0 to |cs|
      invariant errors == EntriesErrors(cs[..i], CertificationChecks)
    {
      var c, at := cs[i], NatToString(i + 1);
      assert cs[..i + 1][..i] == cs[..i];
      ghost var before := errors;
      if !HasText(c.title) { errors := errors + [CertificationTitleRequired(at)]; }
      if !HasText(c.issuer) { errors := errors + [IssuerRequired(at)]; }
      assert errors == CertificationChecks(before, c, i + 1);
    }
    assert cs[..|cs|] == cs;
  }
}
