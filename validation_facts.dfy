/** What the step validators promise, proved about `Validation.PageErrors`. */
module ValidationFacts {
  import opened ResumeTypes
  import opened Text
  import opened Validation
  import Completion

  /** A push only ever adds at the end. */
  lemma PushAppends(errors: seq<string>, cond: bool, message: string)
    ensures Push(errors, cond, message) == errors + Push([], cond, message)
  {
  }

  /* ---------- profile page ---------- */

  /** Each profile message is reported exactly when its field is blank, and
      nothing else is reported. */
  lemma ProfileMessagesIff(d: Draft)
    ensures var errs, p := PageErrors(ProfileInfoPage, d), d.profileInfo;
            && (FullNameRequired in errs <==> !HasText(p.fullName))
            && (DesignationRequired in errs <==> !HasText(p.designation))
            && (SummaryRequired in errs <==> !HasText(p.summary))
            && (forall m | m in errs :: m == FullNameRequired || m == DesignationRequired || m == SummaryRequired)
            && |errs| == Completion.Flag(!HasText(p.fullName)) + Completion.Flag(!HasText(p.designation))
                         + Completion.Flag(!HasText(p.summary))
  {
    var p := d.profileInfo;
    var a, b, c := Push([], !HasText(p.fullName), FullNameRequired),
                   Push([], !HasText(p.designation), DesignationRequired),
                   Push([], !HasText(p.summary), SummaryRequired);
    assert PageErrors(ProfileInfoPage, d) == a + b + c by {
      PushAppends([], !HasText(p.fullName), FullNameRequired);
      PushAppends(a, !HasText(p.designation), DesignationRequired);
      PushAppends(a + b, !HasText(p.summary), SummaryRequired);
    }
    assert FullNameRequired != DesignationRequired && FullNameRequired != SummaryRequired
           && DesignationRequired != SummaryRequired;
    assert forall m :: m in a + b + c <==> m in a || m in b || m in c;
  }

  /** Only the full name blank: exactly one message. */
  lemma OnlyFullNameBlank(d: Draft)
    requires !HasText(d.profileInfo.fullName)
    requires HasText(d.profileInfo.designation) && HasText(d.profileInfo.summary)
    ensures PageErrors(ProfileInfoPage, d) == ["Full Name is required"]
  {
  }

  /* ---------- contact page ---------- */

  /** The contact page passes exactly when the email matches the email
      pattern and the phone is ten digits. */
  lemma ContactPassesIff(d: Draft)
    ensures PageErrors(ContactInfoPage, d) == []
            <==> EmailPattern(d.contactInfo.email) && PhonePattern(d.contactInfo.phone)
  {
    var c := d.contactInfo;
    if EmailPattern(c.email) { EmailPatternHasText(c.email); }
    if PhonePattern(c.phone) { PhonePatternHasText(c.phone); }
  }

  lemma EmailExamples()
    ensures EmailPattern("a@b.co")
    ensures !EmailPattern("a@b")
    ensures !EmailPattern("a b@c.d")
  {
    var s := "a@b.co";
    assert s[1] == '@' && s[3] == '.' && NoSpace(s[..1]) && NoSpace(s[2..3]) && NoSpace(s[4..]);
    var t := "a b@c.d";
    if EmailPattern(t) {
      EmailPatternHasText(t);
      assert IsSpace(t[1]);
    }
  }

  lemma PhoneExamples()
    ensures PhonePattern("0123456789")
    ensures !PhonePattern("012345678x")
    ensures !PhonePattern("123456789")
  {
    assert !IsDigit("012345678x"[9]);
  }

  /* ---------- list pages ---------- */

  /** A check that only appends to the messages already found. */
  ghost predicate OnlyAppends<T(!new)>(check: (seq<string>, T, nat) -> seq<string>) {
    forall errors, x, n :: check(errors, x, n) == errors + check([], x, n)
  }

  /** A list page passes exactly when every entry passes on its own. */
  lemma {:induction false} EntriesPassIff<T(!new)>(s: seq<T>, check: (seq<string>, T, nat) -> seq<string>)
    requires OnlyAppends(check)
    ensures EntriesErrors(s, check) == [] <==> forall k | 0 <= k < |s| :: check([], s[k], k + 1) == []
  {
    if s != [] {
      var init := s[..|s| - 1];
      EntriesPassIff(init, check);
      assert forall k | 0 <= k < |init| :: init[k] == s[k];
      assert EntriesErrors(s, check) == EntriesErrors(init, check) + check([], s[|s| - 1], |s|);
    }
  }

  /** Every message about entry `k` ends up in the page's list: errors
      accumulate over all entries rather than stopping at the first. */
  lemma {:induction false} EntryMessagesKept<T(!new)>(s: seq<T>, check: (seq<string>, T, nat) -> seq<string>, k: nat)
    requires OnlyAppends(check)
    requires k < |s|
    ensures forall m | m in check([], s[k], k + 1) :: m in EntriesErrors(s, check)
  {
    var init := s[..|s| - 1];
    assert EntriesErrors(s, check) == EntriesErrors(init, check) + check([], s[|s| - 1], |s|);
    if k < |init| {
      EntryMessagesKept(init, check, k);
      assert init[k] == s[k];
    }
  }

  lemma WorkChecksAppend()
    ensures OnlyAppends(WorkChecks)
  {
    forall errors, w, n ensures WorkChecks(errors, w, n) == errors + WorkChecks([], w, n) {
      var at := NatToString(n);
      PushAppends(errors, !HasText(w.company), CompanyRequired(at));
      PushAppends(Push(errors, !HasText(w.company), CompanyRequired(at)), !HasText(w.role), RoleRequired(at));
      PushAppends(Push(Push(errors, !HasText(w.company), CompanyRequired(at)), !HasText(w.role), RoleRequired(at)),
                  !IsSet(w.startDate) || !IsSet(w.endDate), WorkDatesRequired(at));
    }
  }

  lemma EducationChecksAppend()
    ensures OnlyAppends(EducationChecks)
  {
    forall errors, e, n ensures EducationChecks(errors, e, n) == errors + EducationChecks([], e, n) {
      var at := NatToString(n);
      var e1 := Push(errors, !HasText(e.degree), DegreeRequired(at));
      var e2 := Push(e1, !HasText(e.institution), InstitutionRequired(at));
      PushAppends(errors, !HasText(e.degree), DegreeRequired(at));
      PushAppends(e1, !HasText(e.institution), InstitutionRequired(at));
      PushAppends(e2, !IsSet(e.startDate) || !IsSet(e.endDate), EducationDatesRequired(at));
    }
  }

  lemma SkillChecksAppend()
    ensures OnlyAppends(SkillChecks)
  {
    forall errors, s, n ensures SkillChecks(errors, s, n) == errors + SkillChecks([], s, n) {
      var at := NatToString(n);
      PushAppends(errors, !HasText(s.name), SkillNameRequired(at));
      PushAppends(Push(errors, !HasText(s.name), SkillNameRequired(at)),
                  s.progress < 1 || s.progress > 100, SkillProgressRange(at));
    }
  }

  lemma ProjectChecksAppend()
    ensures OnlyAppends(ProjectChecks)
  {
    forall errors, p, n ensures ProjectChecks(errors, p, n) == errors + ProjectChecks([], p, n) {
      var at := NatToString(n);
      PushAppends(errors, !HasText(p.title), ProjectTitleRequired(at));
      PushAppends(Push(errors, !HasText(p.title), ProjectTitleRequired(at)),
                  !HasText(p.description), ProjectDescriptionRequired(at));
    }
  }

  lemma CertificationChecksAppend()
    ensures OnlyAppends(CertificationChecks)
  {
    forall errors, c, n ensures CertificationChecks(errors, c, n) == errors + CertificationChecks([], c, n) {
      var at := NatToString(n);
      PushAppends(errors, !HasText(c.title), CertificationTitleRequired(at));
      PushAppends(Push(errors, !HasText(c.title), CertificationTitleRequired(at)),
                  !HasText(c.issuer), IssuerRequired(at));
    }
  }

  /** Entry number `n` raises no message exactly when it is complete. */
  predicate WorkComplete(w: Work) {
    HasText(w.company) && HasText(w.role) && IsSet(w.startDate) && IsSet(w.endDate)
  }

  lemma WorkEntryPassesIff(w: Work, n: nat)
    ensures WorkChecks([], w, n) == [] <==> WorkComplete(w)
  {
  }

  /** The work page passes exactly when every experience has a company, a
      role and both dates. */
  lemma WorkPagePassesIff(d: Draft)
    ensures PageErrors(WorkExperiencePage, d) == [] <==> forall k | 0 <= k < |d.workExperience| :: WorkComplete(d.workExperience[k])
  {
    var xs := d.workExperience;
    assert PageErrors(WorkExperiencePage, d) == EntriesErrors(xs, WorkChecks);
    assert EntriesErrors(xs, WorkChecks) == [] <==> forall k | 0 <= k < |xs| :: WorkChecks([], xs[k], k + 1) == [] by {
      WorkChecksAppend();
      EntriesPassIff(xs, WorkChecks);
    }
    forall k | 0 <= k < |xs|
      ensures WorkChecks([], xs[k], k + 1) == [] <==> WorkComplete(xs[k])
    {
      WorkEntryPassesIff(xs[k], k + 1);
    }
  }

  /** Entry number `n` raises no message exactly when it is complete. */
  predicate EducationComplete(e: Education) {
    HasText(e.degree) && HasText(e.institution) && IsSet(e.startDate) && IsSet(e.endDate)
  }

  lemma EducationEntryPassesIff(e: Education, n: nat)
    ensures EducationChecks([], e, n) == [] <==> EducationComplete(e)
  {
  }

  /** The education page passes exactly when every entry has a degree, an
      institution and both dates. */
  lemma EducationPagePassesIff(d: Draft)
    ensures PageErrors(EducationInfoPage, d) == [] <==> forall k | 0 <= k < |d.education| :: EducationComplete(d.education[k])
  {
    var xs := d.education;
    assert PageErrors(EducationInfoPage, d) == EntriesErrors(xs, EducationChecks);
    assert EntriesErrors(xs, EducationChecks) == [] <==> forall k | 0 <= k < |xs| :: EducationChecks([], xs[k], k + 1) == [] by {
      EducationChecksAppend();
      EntriesPassIff(xs, EducationChecks);
    }
    forall k | 0 <= k < |xs|
      ensures EducationChecks([], xs[k], k + 1) == [] <==> EducationComplete(xs[k])
    {
      EducationEntryPassesIff(xs[k], k + 1);
    }
  }

  /** Entry number `n` raises no message exactly when it is complete. */
  predicate SkillComplete(s: Skill) {
    HasText(s.name) && 1 <= s.progress <= 100
  }

  lemma SkillEntryPassesIff(s: Skill, n: nat)
    ensures SkillChecks([], s, n) == [] <==> SkillComplete(s)
  {
  }

  /** The skills page passes exactly when every skill is named and its
      progress lies in [1,100]. */
  lemma SkillsPagePassesIff(d: Draft)
    ensures PageErrors(SkillsPage, d) == [] <==> forall k | 0 <= k < |d.skills| :: SkillComplete(d.skills[k])
  {
    var xs := d.skills;
    assert PageErrors(SkillsPage, d) == EntriesErrors(xs, SkillChecks);
    assert EntriesErrors(xs, SkillChecks) == [] <==> forall k | 0 <= k < |xs| :: SkillChecks([], xs[k], k + 1) == [] by {
      SkillChecksAppend();
      EntriesPassIff(xs, SkillChecks);
    }
    forall k | 0 <= k < |xs|
      ensures SkillChecks([], xs[k], k + 1) == [] <==> SkillComplete(xs[k])
    {
      SkillEntryPassesIff(xs[k], k + 1);
    }
  }

  /** Entry number `n` raises no message exactly when it is complete. */
  predicate ProjectComplete(p: Project) {
    HasText(p.title) && HasText(p.description)
  }

  lemma ProjectEntryPassesIff(p: Project, n: nat)
    ensures ProjectChecks([], p, n) == [] <==> ProjectComplete(p)
  {
  }

  /** The projects page passes exactly when every project has a title and a
      description. */
  lemma ProjectsPagePassesIff(d: Draft)
    ensures PageErrors(ProjectsPage, d) == [] <==> forall k | 0 <= k < |d.projects| :: ProjectComplete(d.projects[k])
  {
    var xs := d.projects;
    assert PageErrors(ProjectsPage, d) == EntriesErrors(xs, ProjectChecks);
    assert EntriesErrors(xs, ProjectChecks) == [] <==> forall k | 0 <= k < |xs| :: ProjectChecks([], xs[k], k + 1) == [] by {
      ProjectChecksAppend();
      EntriesPassIff(xs, ProjectChecks);
    }
    forall k | 0 <= k < |xs|
      ensures ProjectChecks([], xs[k], k + 1) == [] <==> ProjectComplete(xs[k])
    {
      ProjectEntryPassesIff(xs[k], k + 1);
    }
  }

  /** Entry number `n` raises no message exactly when it is complete. */
  predicate CertificationComplete(c: Certification) {
    HasText(c.title) && HasText(c.issuer)
  }

  lemma CertificationEntryPassesIff(c: Certification, n: nat)
    ensures CertificationChecks([], c, n) == [] <==> CertificationComplete(c)
  {
  }

  /** The certifications page passes exactly when every certification has a
      title and an issuer. */
  lemma CertificationsPagePassesIff(d: Draft)
    ensures PageErrors(CertificationsPage, d) == [] <==> forall k | 0 <= k < |d.certifications| :: CertificationComplete(d.certifications[k])
  {
    var xs := d.certifications;
    assert PageErrors(CertificationsPage, d) == EntriesErrors(xs, CertificationChecks);
    assert EntriesErrors(xs, CertificationChecks) == [] <==> forall k | 0 <= k < |xs| :: CertificationChecks([], xs[k], k + 1) == [] by {
      CertificationChecksAppend();
      EntriesPassIff(xs, CertificationChecks);
    }
    forall k | 0 <= k < |xs|
      ensures CertificationChecks([], xs[k], k + 1) == [] <==> CertificationComplete(xs[k])
    {
      CertificationEntryPassesIff(xs[k], k + 1);
    }
  }

  /** The last page passes exactly when the first language is named and the
      first interest is not blank; later entries are never looked at. */
  lemma AdditionalPagePassesIff(d: Draft)
    ensures PageErrors(AdditionalInfoPage, d) == []
            <==> && |d.languages| > 0 && HasText(d.languages[0].name)
                 && |d.interests| > 0 && HasText(d.interests[0])
  {
  }

  /** A blank company in entry `k` is reported under the number k + 1, however
      many other entries have problems. */
  lemma MissingCompanyReported(d: Draft, k: nat)
    requires k < |d.workExperience| && !HasText(d.workExperience[k].company)
    ensures CompanyRequired(NatToString(k + 1)) in PageErrors(WorkExperiencePage, d)
  {
    var w, at := d.workExperience[k], NatToString(k + 1);
    assert CompanyRequired(at) in WorkChecks([], w, k + 1) by {
      var e1 := Push([], true, CompanyRequired(at));
      var e2 := Push(e1, !HasText(w.role), RoleRequired(at));
      assert e1 == [CompanyRequired(at)];
      assert CompanyRequired(at) in e2;
      PushAppends(e2, !IsSet(w.startDate) || !IsSet(w.endDate), WorkDatesRequired(at));
    }
    assert CompanyRequired(at) in EntriesErrors(d.workExperience, WorkChecks) by {
      WorkChecksAppend();
      EntryMessagesKept(d.workExperience, WorkChecks, k);
    }
  }

  /** A progress outside [1,100] in skill `k` is reported under the number k + 1. */
  lemma SkillProgressReported(d: Draft, k: nat)
    requires k < |d.skills| && (d.skills[k].progress < 1 || d.skills[k].progress > 100)
    ensures SkillProgressRange(NatToString(k + 1)) in PageErrors(SkillsPage, d)
  {
    SkillChecksAppend();
    EntryMessagesKept(d.skills, SkillChecks, k);
  }

  /** A first experience in order and a second one without a role: the one
      message names experience 2. */
  lemma SecondExperienceWithoutRole(d: Draft)
    requires d.workExperience == [Work("Acme", "Dev", Some("2020"), Some("2021"), ""),
                                  Work("Initech", "", Some("2021"), Some("2022"), "")]
    ensures PageErrors(WorkExperiencePage, d) == ["Role is required in experience 2"]
  {
    var ws := d.workExperience;
    FirstExperiencePasses(ws[0]);
    SecondExperienceLacksRole(ws[1]);
    assert ws[..1][..0] == [];
    assert EntriesErrors(ws[..1], WorkChecks) == [];
  }

  lemma FirstExperiencePasses(w: Work)
    requires w == Work("Acme", "Dev", Some("2020"), Some("2021"), "")
    ensures WorkChecks([], w, 1) == []
  {
    assert WorkComplete(w) by {
      StartsWithText("Acme");
      StartsWithText("Dev");
    }
    WorkEntryPassesIff(w, 1);
  }

  lemma SecondExperienceLacksRole(w: Work)
    requires w == Work("Initech", "", Some("2021"), Some("2022"), "")
    ensures WorkChecks([], w, 2) == ["Role is required in experience 2"]
  {
    var at := NatToString(2);
    assert at == "2";
    var company := Push([], !HasText(w.company), CompanyRequired(at));
    assert company == [] by { StartsWithText("Initech"); }
    var role := Push(company, !HasText(w.role), RoleRequired(at));
    assert role == [RoleRequired("2")] by { assert !HasText(""); }
    assert WorkChecks([], w, 2) == role;
    assert RoleRequired("2") == "Role is required in experience 2";
  }

  /** A blank first language fails the last page even when a later language
      is named, although the completion score counts that later language. */
  lemma LaterLanguageIgnored(d: Draft)
    requires d.languages == [Language("", 0), Language("English", 80)]
    requires d.interests == ["Chess"]
    ensures PageErrors(AdditionalInfoPage, d) == [LanguageRequired]
    ensures exists k | 0 <= k < |d.languages| :: Completion.LanguageHasName(d.languages[k])
  {
    assert HasText("Chess") by { StartsWithText("Chess"); }
    assert HasText("English") by { StartsWithText("English"); }
    assert Completion.LanguageHasName(d.languages[1]);
    assert !HasText("");
  }
}
