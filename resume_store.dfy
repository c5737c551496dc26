/** The server's resume collection, reduced to a table from id to record.
    Every request names the signed-in user; a record is visible to that user
    only if the user owns it. */
module ResumeStore {
  import opened ResumeTypes
  import opened Text
  import Completion
  import Validation

  type UserId = nat
  type ResumeId = nat

  /** A stored record: its owner and the document. */
  datatype StoredResume = StoredResume(userId: UserId, doc: Draft)

  const Ok := 200
  const Created := 201
  const BadRequest := 400
  const NotFound := 404

  /* ---------- create ---------- */

  /** The record `createResume` writes for a title. The placeholders " " let
      the record pass the schema's required checks. */
  function NewResume(title: string): Draft {
    Draft(
      title,
      "",
      Template("", []),
      Profile("", " ", " ", ""),
      Contact(" ", "", "", "", "", ""),
      [], [], [], [], [], [], [])
  }

  /** The placeholders count as blank: a new resume scores 0. */
  lemma NewResumeScoresZero(title: string)
    ensures Completion.Score(ToDocument(NewResume(title))) == 0
  {
    assert Trim(" ") == "" by {
      assert TrimStart(" ") == "";
    }
  }

  /** The placeholders count as blank to the editor too: the first page of a
      new resume reports a missing name, designation and summary. */
  lemma NewResumeFailsProfilePage(title: string)
    ensures Validation.PageErrors(Validation.ProfileInfoPage, NewResume(title))
            == [Validation.FullNameRequired, Validation.DesignationRequired, Validation.SummaryRequired]
  {
    assert Trim(" ") == "" by {
      assert TrimStart(" ") == "";
    }
  }

  /* ---------- update ---------- */

  /** The names in `allowedFields`. */
  datatype Field =
    | TitleField | TemplateField | ProfileInfoField | ContactInfoField
    | WorkExperienceField | EducationField | SkillsField | ProjectsField
    | CertificationsField | LanguagesField | InterestsField | ThumbnailLinkField

  const AllowedFields: seq<Field> := [
    TitleField, TemplateField, ProfileInfoField, ContactInfoField,
    WorkExperienceField, EducationField, SkillsField, ProjectsField,
    CertificationsField, LanguagesField, InterestsField, ThumbnailLinkField]

  /** `if (body[field] !== undefined) resume[field] = body[field]` for one field. */
  function Assign(d: Draft, body: Document, f: Field): Draft {
    match f
    case TitleField => if body.title.Some? then d.(title := body.title.value) else d
    case TemplateField => if body.template.Some? then d.(template := body.template.value) else d
    case ProfileInfoField => if body.profileInfo.Some? then d.(profileInfo := body.profileInfo.value) else d
    case ContactInfoField => if body.contactInfo.Some? then d.(contactInfo := body.contactInfo.value) else d
    case WorkExperienceField =>
      if body.workExperience.Some? then d.(workExperience := body.workExperience.value) else d
    case EducationField => if body.education.Some? then d.(education := body.education.value) else d
    case SkillsField => if body.skills.Some? then d.(skills := body.skills.value) else d
    case ProjectsField => if body.projects.Some? then d.(projects := body.projects.value) else d
    case CertificationsField =>
      if body.certifications.Some? then d.(certifications := body.certifications.value) else d
    case LanguagesField => if body.languages.Some? then d.(languages := body.languages.value) else d
    case InterestsField => if body.interests.Some? then d.(interests := body.interests.value) else d
    case ThumbnailLinkField =>
      if body.thumbnailLink.Some? then d.(thumbnailLink := body.thumbnailLink.value) else d
  }

  /** The record after the `forEach` has visited `fields` in order. */
  function Assigned(d: Draft, body: Document, fields: seq<Field>): Draft
    decreases |fields|
  {
    if |fields| == 0 then d
    else Assign(Assigned(d, body, fields[..|fields| - 1]), body, fields[|fields| - 1])
  }

  /** `x` when the body defines it, otherwise the record's own value. */
  function Pick<T>(named: bool, x: Option<T>, own: T): T {
    if named && x.Some? then x.value else own
  }

  /** Reference definition, field by field: a field takes the body's value when
      it is among `fields` and defined in the body; every other field keeps the
      record's value. */
  function Overwritten(d: Draft, body: Document, fields: seq<Field>): Draft {
    Draft(
      Pick(TitleField in fields, body.title, d.title),
      Pick(ThumbnailLinkField in fields, body.thumbnailLink, d.thumbnailLink),
      Pick(TemplateField in fields, body.template, d.template),
      Pick(ProfileInfoField in fields, body.profileInfo, d.profileInfo),
      Pick(ContactInfoField in fields, body.contactInfo, d.contactInfo),
      Pick(WorkExperienceField in fields, body.workExperience, d.workExperience),
      Pick(EducationField in fields, body.education, d.education),
      Pick(SkillsField in fields, body.skills, d.skills),
      Pick(ProjectsField in fields, body.projects, d.projects),
      Pick(CertificationsField in fields, body.certifications, d.certifications),
      Pick(LanguagesField in fields, body.languages, d.languages),
      Pick(InterestsField in fields, body.interests, d.interests))
  }

  /** The update as a whole: every field the body defines is taken from it. */
  function Merged(d: Draft, body: Document): Draft {
    Overwritten(d, body, AllowedFields)
  }

  /** Assigning one more field extends the reference by that field. */
  lemma AssignOneMore(d: Draft, body: Document, init: seq<Field>, f: Field)
    ensures Assign(Overwritten(d, body, init), body, f) == Overwritten(d, body, init + [f])
  {
    assert forall g :: g in init + [f] <==> g in init || g == f;
    match f
    case TitleField =>
    case TemplateField =>
    case ProfileInfoField =>
    case ContactInfoField =>
    case WorkExperienceField =>
    case EducationField =>
    case SkillsField =>
    case ProjectsField =>
    case CertificationsField =>
    case LanguagesField =>
    case InterestsField =>
    case ThumbnailLinkField =>
  }

  /** Visiting the fields one at a time builds the field-by-field result. */
  lemma {:induction false} AssignedIsOverwritten(d: Draft, body: Document, fields: seq<Field>)
    ensures Assigned(d, body, fields) == Overwritten(d, body, fields)
    decreases |fields|
  {
    if |fields| > 0 {
      var init, f := fields[..|fields| - 1], fields[|fields| - 1];
      AssignedIsOverwritten(d, body, init);
      assert fields == init + [f];
      AssignOneMore(d, body, init, f);
    }
  }

  /** The whole `forEach` is the merge. */
  lemma AssignedAllIsMerged(d: Draft, body: Document)
    ensures Assigned(d, body, AllowedFields) == Merged(d, body)
  {
    AssignedIsOverwritten(d, body, AllowedFields);
  }

  /** Sending the same body twice leaves the record as sending it once. */
  lemma MergeIdempotent(d: Draft, body: Document)
    ensures Merged(Merged(d, body), body) == Merged(d, body)
  {
  }

  /** A body that defines none of the twelve fields changes nothing. */
  lemma EmptyBodyKeepsRecord(d: Draft, body: Document)
    requires body == Document(None, None, None, None, None, None, None, None, None, None, None, None)
    ensures Merged(d, body) == d
  {
  }

  /** A body that defines all twelve fields, like the editor's full save,
      replaces the record's document entirely. */
  lemma FullBodyReplacesRecord(d: Draft, saved: Draft)
    ensures Merged(d, ToDocument(saved)) == saved
  {
  }

  /** A field the body leaves undefined keeps its stored value. */
  lemma UndefinedFieldKept(d: Draft, body: Document)
    requires body.title.None? && body.profileInfo.None?
    ensures Merged(d, body).title == d.title && Merged(d, body).profileInfo == d.profileInfo
  {
  }

  /* ---------- the collection ---------- */

  /** A request may see record `id` only when it exists and `user` owns it
      (`findOne({ _id, userId })`). */
  predicate Owned(resumes: map<ResumeId, StoredResume>, id: ResumeId, user: UserId) {
    id in resumes && resumes[id].userId == user
  }

  class Store {
    var resumes: map<ResumeId, StoredResume>
    var nextId: ResumeId

    /** Ids are handed out in increasing order, so a fresh id is unused. */
    ghost predicate Valid()
      reads this
    {
      forall id | id in resumes :: id < nextId
    }

    constructor()
      ensures Valid() && resumes == map[] && nextId == 0
    {
      resumes := map[];
      nextId := 0;
    }

    /** `createResume`: a missing or empty title is refused with 400 and
        nothing is written; otherwise a new record owned by `user` is added
        under a fresh id and answered with 201. */
    method CreateResume(user: UserId, title: Option<string>) returns (status: int, id: Option<ResumeId>)
      requires Valid()
      modifies this
      ensures Valid()
      ensures title.None? || title.value == "" ==>
                status == BadRequest && id.None? && resumes == old(resumes) && nextId == old(nextId)
      ensures title.Some? && title.value != "" ==>
                && status == Created && id == Some(old(nextId))
                && old(nextId) !in old(resumes)
                && resumes == old(resumes)[old(nextId) := StoredResume(user, NewResume(title.value))]
    {
      if title.None? || title.value == "" {
        return BadRequest, None;
      }
      id := Some(nextId);
      resumes := resumes[nextId := StoredResume(user, NewResume(title.value))];
      nextId := nextId + 1;
      status := Created;
    }

    /** `getResumeById`: the record when `user` owns it, 404 otherwise. */
    method GetResumeById(user: UserId, id: ResumeId) returns (status: int, resume: Option<Draft>)
      ensures Owned(resumes, id, user) ==> status == Ok && resume == Some(resumes[id].doc)
      ensures !Owned(resumes, id, user) ==> status == NotFound && resume.None?
    {
      if id in resumes && resumes[id].userId == user {
        return Ok, Some(resumes[id].doc);
      }
      return NotFound, None;
    }

    /** `updateResume`: 404 and no change unless `user` owns the record;
        otherwise the whitelisted fields the body defines are copied onto it,
        field by field, and its owner stays the same. */
    method UpdateResume(user: UserId, id: ResumeId, body: Document) returns (status: int, saved: Option<Draft>)
      requires Valid()
      modifies this
      ensures Valid() && nextId == old(nextId)
      ensures Owned(old(resumes), id, user) ==>
                && status == Ok
                && saved == Some(Merged(old(resumes)[id].doc, body))
                && resumes == old(resumes)[id := StoredResume(user, Merged(old(resumes)[id].doc, body))]
      ensures !Owned(old(resumes), id, user) ==>
                status == NotFound && saved.None? && resumes == old(resumes)
    {
      if !(id in resumes && resumes[id].userId == user) {
        return NotFound, None;
      }
      var stored := resumes[id].doc;
      var doc := stored;
      for i := 0 to |AllowedFields|
        invariant doc == Assigned(stored, body, AllowedFields[..i])
      {
        assert AllowedFields[..i + 1][..i] == AllowedFields[..i];
        doc := Assign(doc, body, AllowedFields[i]);
      }
      assert AllowedFields[..|AllowedFields|] == AllowedFields;
      AssignedAllIsMerged(stored, body);
      resumes := resumes[id := StoredResume(user, doc)];
      return Ok, Some(doc);
    }

    /** `deleteResume`: 404 and no change unless `user` owns the record;
        otherwise the record is removed and nothing else. */
    method DeleteResume(user: UserId, id: ResumeId) returns (status: int)
      requires Valid()
      modifies this
      ensures Valid() && nextId == old(nextId)
      ensures Owned(old(resumes), id, user) ==> status == Ok && resumes == old(resumes) - {id}
      ensures !Owned(old(resumes), id, user) ==> status == NotFound && resumes == old(resumes)
    {
      if !(id in resumes && resumes[id].userId == user) {
        return NotFound;
      }
      resumes := resumes - {id};
      status := Ok;
    }
  }
}
