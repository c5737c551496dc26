/** What the draft edits, the save payload and the hydration promise. */
module DraftFacts {
  import opened ResumeTypes
  import opened Text
  import opened Seqs
  import opened Completion
  import opened CompletionFacts
  import opened DraftEdits

  /* ---------- the section view loses nothing ---------- */

  /** Each typed list can be read back from its view. */
  lemma Unwrap(d: Draft)
    ensures Map(Items(d, WorkSection), WorkOf) == d.workExperience
    ensures Map(Items(d, EducationSection), EducationOf) == d.education
    ensures Map(Items(d, SkillsSection), SkillOf) == d.skills
    ensures Map(Items(d, ProjectsSection), ProjectOf) == d.projects
    ensures Map(Items(d, CertificationsSection), CertificationOf) == d.certifications
    ensures Map(Items(d, LanguagesSection), LanguageOf) == d.languages
    ensures Map(Items(d, InterestsSection), InterestOf) == d.interests
  {
    MapRoundTrip(d.workExperience, AsWorkItem, WorkOf);
    MapRoundTrip(d.education, AsEducationItem, EducationOf);
    MapRoundTrip(d.skills, AsSkillItem, SkillOf);
    MapRoundTrip(d.projects, AsProjectItem, ProjectOf);
    MapRoundTrip(d.certifications, AsCertificationItem, CertificationOf);
    MapRoundTrip(d.languages, AsLanguageItem, LanguageOf);
    MapRoundTrip(d.interests, AsInterestItem, InterestOf);
  }

  /** Two drafts with the same header fields and the same entries in every
      section are the same draft. */
  lemma SameViewSameDraft(d: Draft, r: Draft)
    requires SameInfo(d, r) && forall sec :: Items(r, sec) == Items(d, sec)
    ensures r == d
  {
    Unwrap(d);
    Unwrap(r);
    assert Items(r, WorkSection) == Items(d, WorkSection);
    assert Items(r, EducationSection) == Items(d, EducationSection);
    assert Items(r, SkillsSection) == Items(d, SkillsSection);
    assert Items(r, ProjectsSection) == Items(d, ProjectsSection);
    assert Items(r, CertificationsSection) == Items(d, CertificationsSection);
    assert Items(r, LanguagesSection) == Items(d, LanguagesSection);
    assert Items(r, InterestsSection) == Items(d, InterestsSection);
  }

  /** Removing the entry just added gives back the draft as it was. */
  lemma RemoveUndoesAdd(d: Draft, sec: Section, item: Item)
    requires Fits(sec, item)
    ensures RemoveItem(AddItem(d, sec, item), sec, |Items(d, sec)|) == d
  {
    var a := AddItem(d, sec, item);
    var r := RemoveItem(a, sec, |Items(d, sec)|);
    assert Items(r, sec) == Items(d, sec);
    forall other ensures Items(r, other) == Items(d, other) {
    }
    SameViewSameDraft(d, r);
  }

  /** `splice(-1, 1)` removes the last entry. */
  lemma SpliceMinusOneDropsLast<T>(s: seq<T>)
    requires s != []
    ensures Spliced(s, -1) == s[..|s| - 1]
  {
  }

  /** An index past the end removes nothing. */
  lemma SplicePastEndKeepsAll<T>(s: seq<T>, index: int)
    requires index >= |s|
    ensures Spliced(s, index) == s
  {
  }

  /* ---------- edits and the completion score ---------- */

  /** The lists of the sections an edit did not touch are unchanged. */
  lemma OtherListsKept(d: Draft, r: Draft, sec: Section)
    requires OnlySectionChanged(d, r, sec)
    ensures sec != WorkSection ==> r.workExperience == d.workExperience
    ensures sec != EducationSection ==> r.education == d.education
    ensures sec != SkillsSection ==> r.skills == d.skills
    ensures sec != ProjectsSection ==> r.projects == d.projects
    ensures sec != CertificationsSection ==> r.certifications == d.certifications
    ensures sec != LanguagesSection ==> r.languages == d.languages
    ensures sec != InterestsSection ==> r.interests == d.interests
  {
    Unwrap(d);
    Unwrap(r);
    if sec != WorkSection { assert Items(r, WorkSection) == Items(d, WorkSection); }
    if sec != EducationSection { assert Items(r, EducationSection) == Items(d, EducationSection); }
    if sec != SkillsSection { assert Items(r, SkillsSection) == Items(d, SkillsSection); }
    if sec != ProjectsSection { assert Items(r, ProjectsSection) == Items(d, ProjectsSection); }
    if sec != CertificationsSection { assert Items(r, CertificationsSection) == Items(d, CertificationsSection); }
    if sec != LanguagesSection { assert Items(r, LanguagesSection) == Items(d, LanguagesSection); }
    if sec != InterestsSection { assert Items(r, InterestsSection) == Items(d, InterestsSection); }
  }

  /** The entry a form adds when the user asks for one more: every field
      empty, dates null, progress 0. */
  function BlankItem(sec: Section): (item: Item)
    ensures Fits(sec, item)
  {
    match sec
    case WorkSection => WorkItem(BlankWork)
    case EducationSection => EducationItem(BlankEducation)
    case SkillsSection => SkillItem(BlankSkill)
    case ProjectsSection => ProjectItem(BlankProject)
    case CertificationsSection => CertificationItem(BlankCertification)
    case LanguagesSection => LanguageItem(BlankLanguage)
    case InterestsSection => InterestItem("")
  }

  /** Only the sections and the profile and contact feed the score. */
  lemma ScoreOfLists(d: Draft, r: Draft)
    requires r.profileInfo == d.profileInfo && r.contactInfo == d.contactInfo
    requires WorkShare(r.workExperience) == WorkShare(d.workExperience)
    requires EducationShare(r.education) == EducationShare(d.education)
    requires SkillsShare(r.skills) == SkillsShare(d.skills)
    requires ProjectsShare(r.projects) == ProjectsShare(d.projects)
    requires ExtraDone(r.certifications, r.languages, r.interests) == ExtraDone(d.certifications, d.languages, d.interests)
    ensures Score(ToDocument(r)) == Score(ToDocument(d))
  {
  }

  /** Adding a blank entry to any section leaves the completion score as it was. */
  lemma AddBlankKeepsScore(d: Draft, sec: Section)
    ensures Score(ToDocument(AddItem(d, sec, BlankItem(sec)))) == Score(ToDocument(d))
  {
    var r := AddItem(d, sec, BlankItem(sec));
    OtherListsKept(d, r, sec);
    Unwrap(d);
    Unwrap(r);
    assert !HasText("");
    match sec {
      case WorkSection =>
        MapAppend(Items(d, sec), BlankItem(sec), WorkOf);
        WorkIgnoresInvalid(d.workExperience, BlankWork);
      case EducationSection =>
        MapAppend(Items(d, sec), BlankItem(sec), EducationOf);
        EducationIgnoresInvalid(d.education, BlankEducation);
      case SkillsSection =>
        MapAppend(Items(d, sec), BlankItem(sec), SkillOf);
        SkillsIgnoreInvalid(d.skills, BlankSkill);
      case ProjectsSection =>
        MapAppend(Items(d, sec), BlankItem(sec), ProjectOf);
        ProjectsIgnoreInvalid(d.projects, BlankProject);
      case CertificationsSection =>
        MapAppend(Items(d, sec), BlankItem(sec), CertificationOf);
        ExtraIgnoresEmpty(d.certifications, d.languages, d.interests, BlankCertification, BlankLanguage, "");
      case LanguagesSection =>
        MapAppend(Items(d, sec), BlankItem(sec), LanguageOf);
        ExtraIgnoresEmpty(d.certifications, d.languages, d.interests, BlankCertification, BlankLanguage, "");
      case InterestsSection =>
        MapAppend(Items(d, sec), BlankItem(sec), InterestOf);
        ExtraIgnoresEmpty(d.certifications, d.languages, d.interests, BlankCertification, BlankLanguage, "");
    }
    ScoreOfLists(d, r);
  }

  /** Filling a blank profile or contact field, or editing one that already
      has text so that it keeps some, never lowers the score. */
  lemma UpdateInfoNeverLowers(d: Draft, f: InfoField, v: string)
    requires HasText(InfoValue(d, f)) ==> HasText(v)
    ensures Score(ToDocument(d)) <= Score(ToDocument(UpdateInfo(d, f, v)))
  {
    var r := UpdateInfo(d, f, v);
    Unwrap(d);
    Unwrap(r);
    assert r.workExperience == d.workExperience by { assert Items(r, WorkSection) == Items(d, WorkSection); }
    assert r.education == d.education by { assert Items(r, EducationSection) == Items(d, EducationSection); }
    assert r.skills == d.skills by { assert Items(r, SkillsSection) == Items(d, SkillsSection); }
    assert r.projects == d.projects by { assert Items(r, ProjectsSection) == Items(d, ProjectsSection); }
    assert r.certifications == d.certifications by { assert Items(r, CertificationsSection) == Items(d, CertificationsSection); }
    assert r.languages == d.languages by { assert Items(r, LanguagesSection) == Items(d, LanguagesSection); }
    assert r.interests == d.interests by { assert Items(r, InterestsSection) == Items(d, InterestsSection); }
    var doc := ToDocument(d);
    assert ToDocument(r) == doc.(profileInfo := Some(r.profileInfo), contactInfo := Some(r.contactInfo));
    FillingInfoNeverLowers(doc, r.profileInfo, r.contactInfo);
  }

  /* ---------- the save payload ---------- */

  /** The payload keeps exactly the entries with content, in every section. */
  lemma SaveKeepsExactlyContent(d: Draft, thumbnailLink: Option<string>, completion: int)
    ensures var saved := SavePayload(d, thumbnailLink, completion).resume;
            && (forall w :: w in saved.workExperience <==> w in d.workExperience && WorkHasContent(w))
            && (forall e :: e in saved.education <==> e in d.education && EducationHasContent(e))
            && (forall s :: s in saved.skills <==> s in d.skills && SkillIsValid(s))
            && (forall p :: p in saved.projects <==> p in d.projects && ProjectHasContent(p))
            && (forall c :: c in saved.certifications <==> c in d.certifications && CertificationHasValue(c))
            && (forall l :: l in saved.languages <==> l in d.languages && LanguageHasName(l))
            && (forall i :: i in saved.interests <==> i in d.interests && HasText(i))
  {
    forall w { FilterMembership(d.workExperience, WorkHasContent, w); }
    forall e { FilterMembership(d.education, EducationHasContent, e); }
    forall s { FilterMembership(d.skills, SkillIsValid, s); }
    forall p { FilterMembership(d.projects, ProjectHasContent, p); }
    forall c { FilterMembership(d.certifications, CertificationHasValue, c); }
    forall l { FilterMembership(d.languages, LanguageHasName, l); }
    forall i { FilterMembership(d.interests, HasText, i); }
  }

  /** Saving what was saved, with the same thumbnail and completion, sends
      the same payload again. */
  lemma SaveIdempotent(d: Draft, thumbnailLink: Option<string>, completion: int)
    ensures var once := SavePayload(d, thumbnailLink, completion);
            SavePayload(once.resume, thumbnailLink, completion) == once
  {
    var p, c := d.profileInfo, d.contactInfo;
    TrimIdempotent(p.fullName);
    TrimIdempotent(p.designation);
    TrimIdempotent(p.summary);
    TrimIdempotent(c.email);
    TrimIdempotent(c.phone);
    TrimIdempotent(c.location);
    TrimIdempotent(c.linkedIn);
    TrimIdempotent(c.github);
    TrimIdempotent(c.website);
    FilterIdempotent(d.workExperience, WorkHasContent);
    FilterIdempotent(d.education, EducationHasContent);
    FilterIdempotent(d.skills, SkillIsValid);
    FilterIdempotent(d.projects, ProjectHasContent);
    FilterIdempotent(d.certifications, CertificationHasValue);
    FilterIdempotent(d.languages, LanguageHasName);
    FilterIdempotent(d.interests, HasText);
  }

  /** Narrowing a list to the entries with content drops only entries that
      the score counts as valid but empty: the share can only grow. */
  lemma NarrowedWorkShare(ws: seq<Work>)
    ensures WorkShare(ws) <= WorkShare(Filter(ws, WorkHasContent))
  {
    var keep, valid := Filter(ws, WorkHasContent), Filter(ws, WorkIsValid);
    forall w | WorkHasContent(w) ensures WorkIsValid(w) { }
    NarrowerFilterDropsZeros(ws, WorkHasContent, WorkIsValid, WorkFilled);
    FilterKeepsAll(keep, WorkIsValid);
    ShareFewerEntries(WorkWeight, SumOf(valid, WorkFilled), |keep|, |valid|, 5);
  }

  lemma NarrowedEducationShare(es: seq<Education>)
    ensures EducationShare(es) <= EducationShare(Filter(es, EducationHasContent))
  {
    var keep, valid := Filter(es, EducationHasContent), Filter(es, EducationIsValid);
    forall e | EducationHasContent(e) ensures EducationIsValid(e) { }
    NarrowerFilterDropsZeros(es, EducationHasContent, EducationIsValid, EducationFilled);
    FilterKeepsAll(keep, EducationIsValid);
    ShareFewerEntries(EducationWeight, SumOf(valid, EducationFilled), |keep|, |valid|, 4);
  }

  lemma NarrowedProjectsShare(ps: seq<Project>)
    ensures ProjectsShare(ps) <= ProjectsShare(Filter(ps, ProjectHasContent))
  {
    var keep, valid := Filter(ps, ProjectHasContent), Filter(ps, ProjectIsValid);
    forall p | ProjectHasContent(p) ensures ProjectIsValid(p) { }
    NarrowerFilterDropsZeros(ps, ProjectHasContent, ProjectIsValid, ProjectFilled);
    FilterKeepsAll(keep, ProjectIsValid);
    ShareFewerEntries(ProjectsWeight, SumOf(valid, ProjectFilled), |keep|, |valid|, 4);
  }

  /** Filtering by the test that `some` applies keeps the answer of `some`. */
  lemma FilterKeepsSome<T>(s: seq<T>, p: T -> bool)
    ensures (exists k | 0 <= k < |Filter(s, p)| :: p(Filter(s, p)[k])) <==> (exists k | 0 <= k < |s| :: p(s[k]))
  {
    if k :| 0 <= k < |s| && p(s[k]) {
      FilterMembership(s, p, s[k]);
      var j :| 0 <= j < |Filter(s, p)| && Filter(s, p)[j] == s[k];
    }
  }

  /** A document that does no worse in any of the seven categories does no
      worse overall. */
  lemma ScoreByCategories(a: Document, b: Document)
    requires ProfileShare(a.profileInfo) <= ProfileShare(b.profileInfo)
    requires ContactShare(a.contactInfo) <= ContactShare(b.contactInfo)
    requires WorkShare(OrEmpty(a.workExperience)) <= WorkShare(OrEmpty(b.workExperience))
    requires EducationShare(OrEmpty(a.education)) <= EducationShare(OrEmpty(b.education))
    requires SkillsShare(OrEmpty(a.skills)) <= SkillsShare(OrEmpty(b.skills))
    requires ProjectsShare(OrEmpty(a.projects)) <= ProjectsShare(OrEmpty(b.projects))
    requires ExtraShare(OrEmpty(a.certifications), OrEmpty(a.languages), OrEmpty(a.interests))
             <= ExtraShare(OrEmpty(b.certifications), OrEmpty(b.languages), OrEmpty(b.interests))
    ensures Score(a) <= Score(b)
  {
    RoundMonotone(RawScore(a), RawScore(b));
  }

  /** Trimming the profile and contact text changes none of the tests the
      score makes on it. */
  lemma SavedInfoScoresTheSame(d: Draft, saved: Draft)
    requires saved.profileInfo.fullName == Trim(d.profileInfo.fullName)
    requires saved.profileInfo.designation == Trim(d.profileInfo.designation)
    requires saved.profileInfo.summary == Trim(d.profileInfo.summary)
    requires saved.contactInfo.email == Trim(d.contactInfo.email)
    requires saved.contactInfo.phone == Trim(d.contactInfo.phone)
    ensures ProfileShare(Some(saved.profileInfo)) == ProfileShare(Some(d.profileInfo))
    ensures ContactShare(Some(saved.contactInfo)) == ContactShare(Some(d.contactInfo))
  {
    TrimKeepsText(d.profileInfo.fullName);
    TrimKeepsText(d.profileInfo.designation);
    TrimKeepsText(d.profileInfo.summary);
    TrimKeepsText(d.contactInfo.email);
    TrimKeepsText(d.contactInfo.phone);
  }

  /** The completion of what is saved is at least the completion of the draft:
      trimming changes no test, and the dropped entries only ever lowered an
      average. It can be higher, when an entry of white space is dropped. */
  lemma SaveNeverLowersScore(d: Draft, thumbnailLink: Option<string>, completion: int)
    ensures Score(ToDocument(d)) <= Score(ToDocument(SavePayload(d, thumbnailLink, completion).resume))
  {
    var saved := SavePayload(d, thumbnailLink, completion).resume;
    var a, b := ToDocument(d), ToDocument(saved);
    assert ProfileShare(a.profileInfo) <= ProfileShare(b.profileInfo)
           && ContactShare(a.contactInfo) <= ContactShare(b.contactInfo) by {
      SavedInfoScoresTheSame(d, saved);
    }
    assert WorkShare(OrEmpty(a.workExperience)) <= WorkShare(OrEmpty(b.workExperience)) by {
      NarrowedWorkShare(d.workExperience);
    }
    assert EducationShare(OrEmpty(a.education)) <= EducationShare(OrEmpty(b.education)) by {
      NarrowedEducationShare(d.education);
    }
    assert SkillsShare(OrEmpty(a.skills)) <= SkillsShare(OrEmpty(b.skills)) by {
      FilterIdempotent(d.skills, SkillIsValid);
    }
    assert ProjectsShare(OrEmpty(a.projects)) <= ProjectsShare(OrEmpty(b.projects)) by {
      NarrowedProjectsShare(d.projects);
    }
    assert ExtraShare(OrEmpty(a.certifications), OrEmpty(a.languages), OrEmpty(a.interests))
           <= ExtraShare(OrEmpty(b.certifications), OrEmpty(b.languages), OrEmpty(b.interests)) by {
      SaveKeepsExtra(d.certifications, d.languages, d.interests);
    }
    ScoreByCategories(a, b);
  }

  /** The save filters keep some certification, language or interest
      exactly when there was one before. */
  lemma SaveKeepsExtra(cs: seq<Certification>, ls: seq<Language>, ins: seq<string>)
    ensures ExtraDone(Filter(cs, CertificationHasValue), Filter(ls, LanguageHasName), Filter(ins, HasText))
            == ExtraDone(cs, ls, ins)
  {
    FilterKeepsSome(cs, CertificationHasValue);
    FilterKeepsSome(ls, LanguageHasName);
    FilterKeepsSome(ins, HasText);
  }

  /* ---------- hydration ---------- */

  /** Fetching a resume that was saved from draft `d` (with a title) brings
      back `d`, except that the editor keeps its own thumbnail link. */
  lemma HydrateRestoresDraft(prev: Draft, d: Draft)
    requires d.title != ""
    ensures Hydrated(prev, ToDocument(d)) == d.(thumbnailLink := prev.thumbnailLink)
  {
  }

  /** Sections missing from the response keep the editor's values, sections
      present in it replace them, and the title is never left empty. */
  lemma HydrateKeepsMissing(prev: Draft, r: Document)
    ensures var h := Hydrated(prev, r);
            && h.title != ""
            && (r.title.None? ==> h.title == "Untitled")
            && (r.title == Some("") ==> h.title == "Untitled")
            && (r.title.Some? && r.title.value != "" ==> h.title == r.title.value)
            && h.thumbnailLink == prev.thumbnailLink
            && (if r.template.Some? then h.template == r.template.value else h.template == prev.template)
            && (if r.profileInfo.Some? then h.profileInfo == r.profileInfo.value else h.profileInfo == prev.profileInfo)
            && (if r.contactInfo.Some? then h.contactInfo == r.contactInfo.value else h.contactInfo == prev.contactInfo)
            && (if r.workExperience.Some? then h.workExperience == r.workExperience.value
                else h.workExperience == prev.workExperience)
            && (if r.education.Some? then h.education == r.education.value else h.education == prev.education)
            && (if r.skills.Some? then h.skills == r.skills.value else h.skills == prev.skills)
            && (if r.projects.Some? then h.projects == r.projects.value else h.projects == prev.projects)
            && (if r.certifications.Some? then h.certifications == r.certifications.value
                else h.certifications == prev.certifications)
            && (if r.languages.Some? then h.languages == r.languages.value else h.languages == prev.languages)
            && (if r.interests.Some? then h.interests == r.interests.value else h.interests == prev.interests)
  {
  }
}
