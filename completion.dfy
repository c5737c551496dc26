/** The completion score of a resume: seven weighted categories, summed
    exactly, rounded once with `Math.round` and clamped to [0,100]. */
module Completion {
  import opened ResumeTypes
  import opened Text
  import opened Seqs

  const ProfileWeight: nat := 20
  const ContactWeight: nat := 15
  const WorkWeight: nat := 25
  const EducationWeight: nat := 15
  const SkillsWeight: nat := 10
  const ProjectsWeight: nat := 10
  const ExtraWeight: nat := 5

  function Flag(b: bool): nat {
    if b then 1 else 0
  }

  /** `hasAnyValue` on one string key: `safeTrim(v) || v`. Because the raw
      string is tested too, white space alone already counts. */
  predicate AnyValue(v: string) {
    HasText(v) || v != ""
  }

  /* ---------- validity of list entries and their filled sub-fields ---------- */

  predicate WorkIsValid(w: Work) {
    AnyValue(w.company) || AnyValue(w.role) || AnyValue(w.description)
    || IsSet(w.startDate) || IsSet(w.endDate)
  }

  function WorkFilled(w: Work): nat {
    Flag(HasText(w.company)) + Flag(HasText(w.role)) + Flag(IsSet(w.startDate))
    + Flag(IsSet(w.endDate)) + Flag(HasText(w.description))
  }

  predicate EducationIsValid(e: Education) {
    AnyValue(e.degree) || AnyValue(e.institution) || IsSet(e.startDate) || IsSet(e.endDate)
  }

  function EducationFilled(e: Education): nat {
    Flag(HasText(e.degree)) + Flag(HasText(e.institution)) + Flag(IsSet(e.startDate))
    + Flag(IsSet(e.endDate))
  }

  predicate SkillIsValid(s: Skill) {
    HasText(s.name)
  }

  /** `(s.progress || 0) > 0` counts as the second sub-field. */
  function SkillFilled(s: Skill): nat {
    Flag(HasText(s.name)) + Flag(s.progress > 0)
  }

  predicate ProjectIsValid(p: Project) {
    AnyValue(p.title) || AnyValue(p.description) || AnyValue(p.githubLink) || AnyValue(p.liveDemo)
  }

  function ProjectFilled(p: Project): nat {
    Flag(HasText(p.title)) + Flag(HasText(p.description)) + Flag(HasText(p.githubLink))
    + Flag(HasText(p.liveDemo))
  }

  predicate CertificationHasValue(c: Certification) {
    HasText(c.title) || HasText(c.issuer) || IsSet(c.year)
  }

  predicate LanguageHasName(l: Language) {
    HasText(l.name)
  }

  /* ---------- the seven category contributions ---------- */

  /** `(filled / (entries * perEntry)) * weight`, or nothing when no entry is valid. */
  function Share(weight: nat, filled: nat, entries: nat, perEntry: nat): real
    requires perEntry > 0
  {
    if entries == 0 then 0.0 else (filled as real / (entries * perEntry) as real) * weight as real
  }

  function ProfileDone(p: Option<Profile>): nat {
    match p
    case None => 0
    case Some(p) => Flag(HasText(p.fullName)) + Flag(HasText(p.designation)) + Flag(HasText(p.summary))
  }

  function ContactDone(c: Option<Contact>): nat {
    match c
    case None => 0
    case Some(c) => Flag(HasText(c.email)) + Flag(HasText(c.phone))
  }

  function WorkShare(ws: seq<Work>): real {
    var valid := Filter(ws, WorkIsValid);
    Share(WorkWeight, SumOf(valid, WorkFilled), |valid|, 5)
  }

  function EducationShare(es: seq<Education>): real {
    var valid := Filter(es, EducationIsValid);
    Share(EducationWeight, SumOf(valid, EducationFilled), |valid|, 4)
  }

  function SkillsShare(ss: seq<Skill>): real {
    var valid := Filter(ss, SkillIsValid);
    Share(SkillsWeight, SumOf(valid, SkillFilled), |valid|, 2)
  }

  function ProjectsShare(ps: seq<Project>): real {
    var valid := Filter(ps, ProjectIsValid);
    Share(ProjectsWeight, SumOf(valid, ProjectFilled), |valid|, 4)
  }

  /** How many of the three extra conditions hold: a certification with
      something in it, a named language, a non-blank interest. */
  function ExtraDone(cs: seq<Certification>, ls: seq<Language>, interests: seq<string>): nat {
    Flag(exists k | 0 <= k < |cs| :: CertificationHasValue(cs[k]))
    + Flag(exists k | 0 <= k < |ls| :: LanguageHasName(ls[k]))
    + Flag(exists k | 0 <= k < |interests| :: HasText(interests[k]))
  }

  function ProfileShare(p: Option<Profile>): real {
    (ProfileDone(p) as real / 3.0) * ProfileWeight as real
  }

  function ContactShare(c: Option<Contact>): real {
    (ContactDone(c) as real / 2.0) * ContactWeight as real
  }

  function ExtraShare(cs: seq<Certification>, ls: seq<Language>, interests: seq<string>): real {
    (ExtraDone(cs, ls, interests) as real / 3.0) * ExtraWeight as real
  }

  /** The unrounded score: the sum of the seven contributions, in the
      order the source adds them. Missing sections count as empty. */
  function RawScore(r: Document): real {
    ProfileShare(r.profileInfo)
    + ContactShare(r.contactInfo)
    + WorkShare(OrEmpty(r.workExperience))
    + EducationShare(OrEmpty(r.education))
    + SkillsShare(OrEmpty(r.skills))
    + ProjectsShare(OrEmpty(r.projects))
    + ExtraShare(OrEmpty(r.certifications), OrEmpty(r.languages), OrEmpty(r.interests))
  }

  /** `Math.round`: halves round up. */
  function Round(x: real): int {
    (x + 0.5).Floor
  }

  /** `Math.min(100, Math.max(0, n))` */
  function Clamp(n: int): int {
    if n < 0 then 0 else if n > 100 then 100 else n
  }

  /** The completion percentage of a resume document. */
  function Score(r: Document): int {
    Clamp(Round(RawScore(r)))
  }

  /* ---------- one method per list category: filter, count, weigh ---------- */

  method WorkContribution(workArr: seq<Work>) returns (contribution: real)
    ensures contribution == WorkShare(workArr)
  {
    contribution := 0.0;
    var validWork := Filter(workArr, WorkIsValid);
    if |validWork| > 0 {
      var workFilled := 0;
      for i := 0 to |validWork|
        invariant workFilled == SumOf(validWork[..i], WorkFilled)
      {
        var exp := validWork[i];
        assert validWork[..i + 1][..i] == validWork[..i];
        if HasText(exp.company) { workFilled := workFilled + 1; }
        if HasText(exp.role) { workFilled := workFilled + 1; }
        if IsSet(exp.startDate) { workFilled := workFilled + 1; }
        if IsSet(exp.endDate) { workFilled := workFilled + 1; }
        if HasText(exp.description) { workFilled := workFilled + 1; }
      }
      assert validWork[..|validWork|] == validWork;
      contribution := (workFilled as real / (|validWork| * 5) as real) * WorkWeight as real;
    }
  }

  method EducationContribution(eduArr: seq<Education>) returns (contribution: real)
    ensures contribution == EducationShare(eduArr)
  {
    contribution := 0.0;
    var validEdu := Filter(eduArr, EducationIsValid);
    if |validEdu| > 0 {
      var eduFilled := 0;
      for i := 0 to |validEdu|
        invariant eduFilled == SumOf(validEdu[..i], EducationFilled)
      {
        var edu := validEdu[i];
        assert validEdu[..i + 1][..i] == validEdu[..i];
        if HasText(edu.degree) { eduFilled := eduFilled + 1; }
        if HasText(edu.institution) { eduFilled := eduFilled + 1; }
        if IsSet(edu.startDate) { eduFilled := eduFilled + 1; }
        if IsSet(edu.endDate) { eduFilled := eduFilled + 1; }
      }
      assert validEdu[..|validEdu|] == validEdu;
      contribution := (eduFilled as real / (|validEdu| * 4) as real) * EducationWeight as real;
    }
  }

  method SkillsContribution(skillsArr: seq<Skill>) returns (contribution: real)
    ensures contribution == SkillsShare(skillsArr)
  {
    contribution := 0.0;
    var validSkills := Filter(skillsArr, SkillIsValid);
    if |validSkills| > 0 {
      var skillsFilled := 0;
      for i := 0 to |validSkills|
        invariant skillsFilled == SumOf(validSkills[..i], SkillFilled)
      {
        var s := validSkills[i];
        assert validSkills[..i + 1][..i] == validSkills[..i];
        if HasText(s.name) { skillsFilled := skillsFilled + 1; }
        if s.progress > 0 { skillsFilled := skillsFilled + 1; }
      }
      assert validSkills[..|validSkills|] == validSkills;
      contribution := (skillsFilled as real / (|validSkills| * 2) as real) * SkillsWeight as real;
    }
  }

  method ProjectsContribution(projArr: seq<Project>) returns (contribution: real)
    ensures contribution == ProjectsShare(projArr)
  {
    contribution := 0.0;
    var validProj := Filter(projArr, ProjectIsValid);
    if |validProj| > 0 {
      var projFilled := 0;
      for i := 0 to |validProj|
        invariant projFilled == SumOf(validProj[..i], ProjectFilled)
      {
        var p := validProj[i];
        assert validProj[..i + 1][..i] == validProj[..i];
        if HasText(p.title) { projFilled := projFilled + 1; }
        if HasText(p.description) { projFilled := projFilled + 1; }
        if HasText(p.githubLink) { projFilled := projFilled + 1; }
        if HasText(p.liveDemo) { projFilled := projFilled + 1; }
      }
      assert validProj[..|validProj|] == validProj;
      contribution := (projFilled as real / (|validProj| * 4) as real) * ProjectsWeight as real;
    }
  }

  method ProfileContribution(profile: Option<Profile>) returns (contribution: real)
    ensures contribution == ProfileShare(profile)
  {
    var profileDone := 0;
    if profile.Some? {
      var p := profile.value;
      if HasText(p.fullName) { profileDone := profileDone + 1; }
      if HasText(p.designation) { profileDone := profileDone + 1; }
      if HasText(p.summary) { profileDone := profileDone + 1; }
    }
    assert profileDone == ProfileDone(profile);
    contribution := (profileDone as real / 3.0) * ProfileWeight as real;
  }

  method ContactContribution(contact: Option<Contact>) returns (contribution: real)
    ensures contribution == ContactShare(contact)
  {
    var contactDone := 0;
    if contact.Some? {
      var c := contact.value;
      if HasText(c.email) { contactDone := contactDone + 1; }
      if HasText(c.phone) { contactDone := contactDone + 1; }
    }
    assert contactDone == ContactDone(contact);
    contribution := (contactDone as real / 2.0) * ContactWeight as real;
  }

  method ExtraContribution(certArr: seq<Certification>, langArr: seq<Language>, interestArr: seq<string>)
    returns (contribution: real)
    ensures contribution == ExtraShare(certArr, langArr, interestArr)
  {
    var extraDone := 0;
    var hasCert := exists k | 0 <= k < |certArr| :: CertificationHasValue(certArr[k]);
    if hasCert { extraDone := extraDone + 1; }
    var hasLang := exists k | 0 <= k < |langArr| :: LanguageHasName(langArr[k]);
    if hasLang { extraDone := extraDone + 1; }
    var hasInterest := exists k | 0 <= k < |interestArr| :: HasText(interestArr[k]);
    if hasInterest { extraDone := extraDone + 1; }
    assert extraDone == ExtraDone(certArr, langArr, interestArr);
    contribution := (extraDone as real / 3.0) * ExtraWeight as real;
  }

  /** `calculateCompletion(resume)`: the percentage, accumulated category by
      category in the source's order. */
  method CalculateCompletion(resume: Document) returns (percentage: int)
    ensures percentage == Score(resume)
  {
    var score: real := 0.0;
    var profile := ProfileContribution(resume.profileInfo);
    score := score + profile;
    var contact := ContactContribution(resume.contactInfo);
    score := score + contact;
    var work := WorkContribution(OrEmpty(resume.workExperience));
    score := score + work;
    var education := EducationContribution(OrEmpty(resume.education));
    score := score + education;
    var skills := SkillsContribution(OrEmpty(resume.skills));
    score := score + skills;
    var projects := ProjectsContribution(OrEmpty(resume.projects));
    score := score + projects;
    var extra := ExtraContribution(OrEmpty(resume.certifications), OrEmpty(resume.languages), OrEmpty(resume.interests));
    score := score + extra;
    percentage := Clamp(Round(score));
  }
}
