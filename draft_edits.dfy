/** The editor's edits to its draft (`updateSection`, `updateArrayItem`,
    `addArrayItem`, `removeArrayItem`), the sanitised payload it sends on save
    and the merge of a fetched resume into the draft. Each is the updater the
    editor hands to `setResumeData`: a new draft computed from the previous one. */
module DraftEdits {
  import opened ResumeTypes
  import opened Text
  import opened Seqs
  import Completion

  /* ---------- a uniform view of the seven list sections ---------- */

  datatype Section =
    | WorkSection | EducationSection | SkillsSection | ProjectsSection
    | CertificationsSection | LanguagesSection | InterestsSection

  /** One entry of any list section. */
  datatype Item =
    | WorkItem(work: Work)
    | EducationItem(education: Education)
    | SkillItem(skill: Skill)
    | ProjectItem(project: Project)
    | CertificationItem(certification: Certification)
    | LanguageItem(language: Language)
    | InterestItem(interest: string)

  /** `item` has the shape of an entry of `sec`. */
  predicate Fits(sec: Section, item: Item) {
    match sec
    case WorkSection => item.WorkItem?
    case EducationSection => item.EducationItem?
    case SkillsSection => item.SkillItem?
    case ProjectsSection => item.ProjectItem?
    case CertificationsSection => item.CertificationItem?
    case LanguagesSection => item.LanguageItem?
    case InterestsSection => item.InterestItem?
  }

  function AsWorkItem(w: Work): Item { WorkItem(w) }
  function AsEducationItem(e: Education): Item { EducationItem(e) }
  function AsSkillItem(s: Skill): Item { SkillItem(s) }
  function AsProjectItem(p: Project): Item { ProjectItem(p) }
  function AsCertificationItem(c: Certification): Item { CertificationItem(c) }
  function AsLanguageItem(l: Language): Item { LanguageItem(l) }
  function AsInterestItem(i: string): Item { InterestItem(i) }

  /** `prev[section]` */
  function Items(d: Draft, sec: Section): (r: seq<Item>)
    ensures forall k | 0 <= k < |r| :: Fits(sec, r[k])
  {
    match sec
    case WorkSection => Map(d.workExperience, AsWorkItem)
    case EducationSection => Map(d.education, AsEducationItem)
    case SkillsSection => Map(d.skills, AsSkillItem)
    case ProjectsSection => Map(d.projects, AsProjectItem)
    case CertificationsSection => Map(d.certifications, AsCertificationItem)
    case LanguagesSection => Map(d.languages, AsLanguageItem)
    case InterestsSection => Map(d.interests, AsInterestItem)
  }

  /** Title, thumbnail, template, profile and contact are the same. */
  predicate SameInfo(d: Draft, r: Draft) {
    && r.title == d.title && r.thumbnailLink == d.thumbnailLink && r.template == d.template
    && r.profileInfo == d.profileInfo && r.contactInfo == d.contactInfo
  }

  /** Nothing but section `sec` differs between `d` and `r`. */
  predicate OnlySectionChanged(d: Draft, r: Draft, sec: Section) {
    SameInfo(d, r) && forall other | other != sec :: Items(r, other) == Items(d, other)
  }

  /* ---------- keys and values of entries ---------- */

  /** The sub-field names the forms pass to `updateArrayItem`. */
  datatype Key =
    | Company | Role | StartDate | EndDate | Description | Degree | Institution
    | Name | Progress | Title | GithubLink | LiveDemo | Issuer | Year

  datatype Value = Text(text: string) | DateValue(date: Date) | Number(number: int) | Whole(item: Item)

  /** `item[key]`, or `None` when entries of this kind have no such key. */
  function Field(item: Item, key: Key): Option<Value> {
    match (item, key)
    case (WorkItem(w), Company) => Some(Text(w.company))
    case (WorkItem(w), Role) => Some(Text(w.role))
    case (WorkItem(w), StartDate) => Some(DateValue(w.startDate))
    case (WorkItem(w), EndDate) => Some(DateValue(w.endDate))
    case (WorkItem(w), Description) => Some(Text(w.description))
    case (EducationItem(e), Degree) => Some(Text(e.degree))
    case (EducationItem(e), Institution) => Some(Text(e.institution))
    case (EducationItem(e), StartDate) => Some(DateValue(e.startDate))
    case (EducationItem(e), EndDate) => Some(DateValue(e.endDate))
    case (SkillItem(s), Name) => Some(Text(s.name))
    case (SkillItem(s), Progress) => Some(Number(s.progress))
    case (ProjectItem(p), Title) => Some(Text(p.title))
    case (ProjectItem(p), Description) => Some(Text(p.description))
    case (ProjectItem(p), GithubLink) => Some(Text(p.githubLink))
    case (ProjectItem(p), LiveDemo) => Some(Text(p.liveDemo))
    case (CertificationItem(c), Title) => Some(Text(c.title))
    case (CertificationItem(c), Issuer) => Some(Text(c.issuer))
    case (CertificationItem(c), Year) => Some(DateValue(c.year))
    case (LanguageItem(l), Name) => Some(Text(l.name))
    case (LanguageItem(l), Progress) => Some(Number(l.progress))
    case _ => None
  }

  predicate SameKind(a: Value, b: Value) {
    (a.Text? && b.Text?) || (a.DateValue? && b.DateValue?) || (a.Number? && b.Number?)
  }

  /** `key` is a key of `item` and `value` has the type stored there. */
  predicate KeyAccepts(item: Item, key: Key, value: Value) {
    Field(item, key).Some? && SameKind(Field(item, key).value, value)
  }

  /** `{ ...item, [key]: value }` */
  function SetField(item: Item, key: Key, value: Value): (r: Item)
    requires KeyAccepts(item, key, value)
    ensures Field(r, key) == Some(value)
    ensures forall other | other != key :: Field(r, other) == Field(item, other)
    ensures r.WorkItem? == item.WorkItem? && r.EducationItem? == item.EducationItem?
    ensures r.SkillItem? == item.SkillItem? && r.ProjectItem? == item.ProjectItem?
    ensures r.CertificationItem? == item.CertificationItem? && r.LanguageItem? == item.LanguageItem?
    ensures r.InterestItem? == item.InterestItem?
  {
    match (item, key)
    case (WorkItem(w), Company) => WorkItem(w.(company := value.text))
    case (WorkItem(w), Role) => WorkItem(w.(role := value.text))
    case (WorkItem(w), StartDate) => WorkItem(w.(startDate := value.date))
    case (WorkItem(w), EndDate) => WorkItem(w.(endDate := value.date))
    case (WorkItem(w), Description) => WorkItem(w.(description := value.text))
    case (EducationItem(e), Degree) => EducationItem(e.(degree := value.text))
    case (EducationItem(e), Institution) => EducationItem(e.(institution := value.text))
    case (EducationItem(e), StartDate) => EducationItem(e.(startDate := value.date))
    case (EducationItem(e), EndDate) => EducationItem(e.(endDate := value.date))
    case (SkillItem(s), Name) => SkillItem(s.(name := value.text))
    case (SkillItem(s), Progress) => SkillItem(s.(progress := value.number))
    case (ProjectItem(p), Title) => ProjectItem(p.(title := value.text))
    case (ProjectItem(p), Description) => ProjectItem(p.(description := value.text))
    case (ProjectItem(p), GithubLink) => ProjectItem(p.(githubLink := value.text))
    case (ProjectItem(p), LiveDemo) => ProjectItem(p.(liveDemo := value.text))
    case (CertificationItem(c), Title) => CertificationItem(c.(title := value.text))
    case (CertificationItem(c), Issuer) => CertificationItem(c.(issuer := value.text))
    case (CertificationItem(c), Year) => CertificationItem(c.(year := value.date))
    case (LanguageItem(l), Name) => LanguageItem(l.(name := value.text))
    case (LanguageItem(l), Progress) => LanguageItem(l.(progress := value.number))
  }

  /* ---------- the list edits ---------- */

  function WorkOf(i: Item): Work { if i.WorkItem? then i.work else BlankWork }
  function EducationOf(i: Item): Education { if i.EducationItem? then i.education else BlankEducation }
  function SkillOf(i: Item): Skill { if i.SkillItem? then i.skill else BlankSkill }
  function ProjectOf(i: Item): Project { if i.ProjectItem? then i.project else BlankProject }
  function CertificationOf(i: Item): Certification { if i.CertificationItem? then i.certification else BlankCertification }
  function LanguageOf(i: Item): Language { if i.LanguageItem? then i.language else BlankLanguage }
  function InterestOf(i: Item): string { if i.InterestItem? then i.interest else "" }

  /** `{ ...prev, [section]: updatedArray }` */
  function WithItems(d: Draft, sec: Section, items: seq<Item>): (r: Draft)
    requires forall k | 0 <= k < |items| :: Fits(sec, items[k])
    ensures Items(r, sec) == items
    ensures OnlySectionChanged(d, r, sec)
  {
    match sec
    case WorkSection =>
      assert forall k | 0 <= k < |items| :: Fits(sec, items[k]) && AsWorkItem(WorkOf(items[k])) == items[k];
      MapRoundTrip(items, WorkOf, AsWorkItem);
      d.(workExperience := Map(items, WorkOf))
    case EducationSection =>
      assert forall k | 0 <= k < |items| :: Fits(sec, items[k]) && AsEducationItem(EducationOf(items[k])) == items[k];
      MapRoundTrip(items, EducationOf, AsEducationItem);
      d.(education := Map(items, EducationOf))
    case SkillsSection =>
      assert forall k | 0 <= k < |items| :: Fits(sec, items[k]) && AsSkillItem(SkillOf(items[k])) == items[k];
      MapRoundTrip(items, SkillOf, AsSkillItem);
      d.(skills := Map(items, SkillOf))
    case ProjectsSection =>
      assert forall k | 0 <= k < |items| :: Fits(sec, items[k]) && AsProjectItem(ProjectOf(items[k])) == items[k];
      MapRoundTrip(items, ProjectOf, AsProjectItem);
      d.(projects := Map(items, ProjectOf))
    case CertificationsSection =>
      assert forall k | 0 <= k < |items| :: Fits(sec, items[k]) && AsCertificationItem(CertificationOf(items[k])) == items[k];
      MapRoundTrip(items, CertificationOf, AsCertificationItem);
      d.(certifications := Map(items, CertificationOf))
    case LanguagesSection =>
      assert forall k | 0 <= k < |items| :: Fits(sec, items[k]) && AsLanguageItem(LanguageOf(items[k])) == items[k];
      MapRoundTrip(items, LanguageOf, AsLanguageItem);
      d.(languages := Map(items, LanguageOf))
    case InterestsSection =>
      assert forall k | 0 <= k < |items| :: Fits(sec, items[k]) && AsInterestItem(InterestOf(items[k])) == items[k];
      MapRoundTrip(items, InterestOf, AsInterestItem);
      d.(interests := Map(items, InterestOf))
  }

  /** `addArrayItem(section, newItem)`: `[...prev[section], newItem]`. */
  function AddItem(d: Draft, sec: Section, item: Item): (r: Draft)
    requires Fits(sec, item)
    ensures Items(r, sec) == Items(d, sec) + [item]
    ensures OnlySectionChanged(d, r, sec)
  {
    WithItems(d, sec, Items(d, sec) + [item])
  }

  /** `removeArrayItem(section, index)`: `splice(index, 1)` on a copy. */
  function RemoveItem(d: Draft, sec: Section, index: int): (r: Draft)
    ensures Items(r, sec) == Spliced(Items(d, sec), index)
    ensures OnlySectionChanged(d, r, sec)
  {
    WithItems(d, sec, Spliced(Items(d, sec), index))
  }

  /** What `updateArrayItem` may be called with: an index of the section, and
      either no key and a whole entry of the section's kind, or a key the
      entry has and a value of that key's type. */
  predicate CanUpdate(d: Draft, sec: Section, index: nat, key: Option<Key>, value: Value) {
    && index < |Items(d, sec)|
    && (key.None? ==> value.Whole? && Fits(sec, value.item))
    && (key.Some? ==> KeyAccepts(Items(d, sec)[index], key.value, value))
  }

  /** The new entry: `value` itself when `key === null`, else `{ ...entry, [key]: value }`. */
  function UpdatedEntry(entry: Item, key: Option<Key>, value: Value): Item
    requires key.None? ==> value.Whole?
    requires key.Some? ==> KeyAccepts(entry, key.value, value)
  {
    if key.None? then value.item else SetField(entry, key.value, value)
  }

  /** `updateArrayItem(section, index, key, value)` */
  function UpdateItem(d: Draft, sec: Section, index: nat, key: Option<Key>, value: Value): (r: Draft)
    requires CanUpdate(d, sec, index, key, value)
    ensures |Items(r, sec)| == |Items(d, sec)|
    ensures forall k | 0 <= k < |Items(d, sec)| && k != index :: Items(r, sec)[k] == Items(d, sec)[k]
    ensures key.None? ==> Items(r, sec)[index] == value.item
    ensures key.Some? ==> Field(Items(r, sec)[index], key.value) == Some(value)
    ensures key.Some? ==> forall other | other != key.value ::
              Field(Items(r, sec)[index], other) == Field(Items(d, sec)[index], other)
    ensures OnlySectionChanged(d, r, sec)
  {
    var entry := UpdatedEntry(Items(d, sec)[index], key, value);
    WithItems(d, sec, Items(d, sec)[index := entry])
  }

  /* ---------- the profile and contact edits ---------- */

  /** The keys `updateSection` is called with, for "profileInfo" and "contactInfo". */
  datatype InfoField =
    | ProfilePreviewUrl | FullName | Designation | Summary
    | Email | Phone | Location | LinkedIn | Github | Website

  function InfoValue(d: Draft, f: InfoField): string {
    match f
    case ProfilePreviewUrl => d.profileInfo.profilePreviewUrl
    case FullName => d.profileInfo.fullName
    case Designation => d.profileInfo.designation
    case Summary => d.profileInfo.summary
    case Email => d.contactInfo.email
    case Phone => d.contactInfo.phone
    case Location => d.contactInfo.location
    case LinkedIn => d.contactInfo.linkedIn
    case Github => d.contactInfo.github
    case Website => d.contactInfo.website
  }

  /** `updateSection(section, key, value)`: `{ ...prev, [section]: { ...prev[section], [key]: value } }`. */
  function UpdateInfo(d: Draft, f: InfoField, v: string): (r: Draft)
    ensures InfoValue(r, f) == v
    ensures forall g | g != f :: InfoValue(r, g) == InfoValue(d, g)
    ensures forall sec :: Items(r, sec) == Items(d, sec)
    ensures r.title == d.title && r.thumbnailLink == d.thumbnailLink && r.template == d.template
  {
    var p, c := d.profileInfo, d.contactInfo;
    match f
    case ProfilePreviewUrl => d.(profileInfo := p.(profilePreviewUrl := v))
    case FullName => d.(profileInfo := p.(fullName := v))
    case Designation => d.(profileInfo := p.(designation := v))
    case Summary => d.(profileInfo := p.(summary := v))
    case Email => d.(contactInfo := c.(email := v))
    case Phone => d.(contactInfo := c.(phone := v))
    case Location => d.(contactInfo := c.(location := v))
    case LinkedIn => d.(contactInfo := c.(linkedIn := v))
    case Github => d.(contactInfo := c.(github := v))
    case Website => d.(contactInfo := c.(website := v))
  }

  /* ---------- the save payload ---------- */

  /** The entries `updateResumeDetails` keeps: some sub-field is non-blank
      after trimming, or a date is set. Unlike the completion score, white
      space alone does not keep an entry. */
  predicate WorkHasContent(w: Work) {
    HasText(w.company) || HasText(w.role) || IsSet(w.startDate) || IsSet(w.endDate) || HasText(w.description)
  }

  predicate EducationHasContent(e: Education) {
    HasText(e.degree) || HasText(e.institution) || IsSet(e.startDate) || IsSet(e.endDate)
  }

  predicate ProjectHasContent(p: Project) {
    HasText(p.title) || HasText(p.description) || HasText(p.githubLink) || HasText(p.liveDemo)
  }

  /** The body of the update request, and the `completion` field sent with it. */
  datatype Payload = Payload(resume: Draft, completion: int)

  /** The payload `updateResumeDetails(thumbnailLink)` sends: the uploaded
      thumbnail if there is one, the theme defaulting to "modern", profile and
      contact text trimmed, and every list reduced to its entries with content. */
  function SavePayload(d: Draft, thumbnailLink: Option<string>, completion: int): Payload {
    var p, c := d.profileInfo, d.contactInfo;
    Payload(
      Draft(
        d.title,
        if thumbnailLink.Some? && thumbnailLink.value != "" then thumbnailLink.value else d.thumbnailLink,
        Template(if d.template.theme != "" then d.template.theme else "modern", d.template.colorPalette),
        Profile(p.profilePreviewUrl, Trim(p.fullName), Trim(p.designation), Trim(p.summary)),
        Contact(Trim(c.email), Trim(c.phone), Trim(c.location), Trim(c.linkedIn), Trim(c.github), Trim(c.website)),
        Filter(d.workExperience, WorkHasContent),
        Filter(d.education, EducationHasContent),
        Filter(d.skills, Completion.SkillIsValid),
        Filter(d.projects, ProjectHasContent),
        Filter(d.certifications, Completion.CertificationHasValue),
        Filter(d.languages, Completion.LanguageHasName),
        Filter(d.interests, HasText)),
      completion)
  }

  /* ---------- hydration from a fetched resume ---------- */

  /** `x || fallback` for a field that is an object or an array: any value
      that is present is truthy, even an empty array. */
  function OrElse<T>(x: Option<T>, fallback: T): T {
    if x.Some? then x.value else fallback
  }

  /** The updater `fetchResumeDetailsById` applies once the response has a
      profile: the title falls back to "Untitled", every other section to the
      draft's own, and the thumbnail link is never taken from the response. */
  function Hydrated(prev: Draft, r: Document): Draft {
    Draft(
      if r.title.Some? && r.title.value != "" then r.title.value else "Untitled",
      prev.thumbnailLink,
      OrElse(r.template, prev.template),
      OrElse(r.profileInfo, prev.profileInfo),
      OrElse(r.contactInfo, prev.contactInfo),
      OrElse(r.workExperience, prev.workExperience),
      OrElse(r.education, prev.education),
      OrElse(r.skills, prev.skills),
      OrElse(r.projects, prev.projects),
      OrElse(r.certifications, prev.certifications),
      OrElse(r.languages, prev.languages),
      OrElse(r.interests, prev.interests))
  }
}
