/** The resume document shared by the editor, the dashboard and the store.

    `Draft` is the complete document the editor holds: its twelve fields are
    exactly the fields the server lets a client overwrite. `Document` is the
    same document as JSON received from elsewhere (a fetched record, an update
    body), where any top-level field may be missing (`None`). */
module ResumeTypes {

  datatype Option<T> = None | Some(value: T)

  /** A date input: `null` or the string the form or the server supplied. */
  type Date = Option<string>

  /** A date is set when it is truthy in JavaScript: not null and not "". */
  predicate IsSet(d: Date) {
    d.Some? && d.value != ""
  }

  datatype Template = Template(theme: string, colorPalette: seq<string>)

  datatype Profile = Profile(profilePreviewUrl: string, fullName: string, designation: string, summary: string)

  datatype Contact = Contact(email: string, phone: string, location: string,
                             linkedIn: string, github: string, website: string)

  datatype Work = Work(company: string, role: string, startDate: Date, endDate: Date, description: string)

  datatype Education = Education(degree: string, institution: string, startDate: Date, endDate: Date)

  datatype Skill = Skill(name: string, progress: int)

  datatype Project = Project(title: string, description: string, githubLink: string, liveDemo: string)

  datatype Certification = Certification(title: string, issuer: string, year: Date)

  datatype Language = Language(name: string, progress: int)

  datatype Draft = Draft(
    title: string,
    thumbnailLink: string,
    template: Template,
    profileInfo: Profile,
    contactInfo: Contact,
    workExperience: seq<Work>,
    education: seq<Education>,
    skills: seq<Skill>,
    projects: seq<Project>,
    certifications: seq<Certification>,
    languages: seq<Language>,
    interests: seq<string>)

  datatype Document = Document(
    title: Option<string>,
    thumbnailLink: Option<string>,
    template: Option<Template>,
    profileInfo: Option<Profile>,
    contactInfo: Option<Contact>,
    workExperience: Option<seq<Work>>,
    education: Option<seq<Education>>,
    skills: Option<seq<Skill>>,
    projects: Option<seq<Project>>,
    certifications: Option<seq<Certification>>,
    languages: Option<seq<Language>>,
    interests: Option<seq<string>>)

  /** A complete draft seen as a document in which every field is present. */
  function ToDocument(d: Draft): Document {
    Document(Some(d.title), Some(d.thumbnailLink), Some(d.template), Some(d.profileInfo),
             Some(d.contactInfo), Some(d.workExperience), Some(d.education), Some(d.skills),
             Some(d.projects), Some(d.certifications), Some(d.languages), Some(d.interests))
  }

  /** `x || []` for a section that may be missing. */
  function OrEmpty<T>(s: Option<seq<T>>): seq<T> {
    if s.Some? then s.value else []
  }

  const BlankWork := Work("", "", None, None, "")
  const BlankEducation := Education("", "", None, None)
  const BlankSkill := Skill("", 0)
  const BlankProject := Project("", "", "", "")
  const BlankCertification := Certification("", "", None)
  const BlankLanguage := Language("", 0)

  /** The editor's starting state: one blank entry in every list section and
      a single empty interest. The source leaves `profilePreviewUrl` out of
      this literal; here it is "". */
  const InitialDraft := Draft(
    "Professional Resume",
    "",
    Template("modern", []),
    Profile("", "", "", ""),
    Contact("", "", "", "", "", ""),
    [BlankWork],
    [BlankEducation],
    [BlankSkill],
    [BlankProject],
    [BlankCertification],
    [BlankLanguage],
    [""])
}
