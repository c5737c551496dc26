/** What the completion score promises, proved about `Completion.Score`. */
module CompletionFacts {
  import opened ResumeTypes
  import opened Text
  import opened Seqs
  import opened Completion

  /* ---------- bounds: the clamp never bites ---------- */

  /** A category share lies between nothing and its full weight whenever the
      filled count cannot exceed the number of sub-fields. */
  lemma ShareWithin(weight: nat, filled: nat, entries: nat, perEntry: nat)
    requires perEntry > 0 && filled <= entries * perEntry
    ensures 0.0 <= Share(weight, filled, entries, perEntry) <= weight as real
  {
    if entries > 0 {
      var d := (entries * perEntry) as real;
      var q := filled as real / d;
      assert 0.0 <= q <= 1.0;
      assert q * weight as real <= 1.0 * weight as real;
    }
  }

  /** The same filled count spread over fewer entries is a larger share. */
  lemma ShareFewerEntries(weight: nat, filled: nat, fewer: nat, entries: nat, perEntry: nat)
    requires perEntry > 0 && fewer <= entries && (fewer == 0 ==> filled == 0)
    ensures Share(weight, filled, entries, perEntry) <= Share(weight, filled, fewer, perEntry)
  {
    if fewer > 0 {
      var big, small := (entries * perEntry) as real, (fewer * perEntry) as real;
      assert fewer * perEntry <= entries * perEntry;
      assert 0.0 < small <= big;
      assert filled as real / big <= filled as real / small;
    }
  }

  lemma WorkShareWithin(ws: seq<Work>)
    ensures 0.0 <= WorkShare(ws) <= WorkWeight as real
  {
    var valid := Filter(ws, WorkIsValid);
    SumOfBound(valid, WorkFilled, 5);
    ShareWithin(WorkWeight, SumOf(valid, WorkFilled), |valid|, 5);
  }

  lemma EducationShareWithin(es: seq<Education>)
    ensures 0.0 <= EducationShare(es) <= EducationWeight as real
  {
    var valid := Filter(es, EducationIsValid);
    SumOfBound(valid, EducationFilled, 4);
    ShareWithin(EducationWeight, SumOf(valid, EducationFilled), |valid|, 4);
  }

  lemma SkillsShareWithin(ss: seq<Skill>)
    ensures 0.0 <= SkillsShare(ss) <= SkillsWeight as real
  {
    var valid := Filter(ss, SkillIsValid);
    SumOfBound(valid, SkillFilled, 2);
    ShareWithin(SkillsWeight, SumOf(valid, SkillFilled), |valid|, 2);
  }

  lemma ProjectsShareWithin(ps: seq<Project>)
    ensures 0.0 <= ProjectsShare(ps) <= ProjectsWeight as real
  {
    var valid := Filter(ps, ProjectIsValid);
    SumOfBound(valid, ProjectFilled, 4);
    ShareWithin(ProjectsWeight, SumOf(valid, ProjectFilled), |valid|, 4);
  }

  /** The seven weights add up to 100. */
  lemma WeightsSumToHundred()
    ensures ProfileWeight + ContactWeight + WorkWeight + EducationWeight
            + SkillsWeight + ProjectsWeight + ExtraWeight == 100
  {
  }

  /** The unrounded sum already lies in [0,100], so rounding alone gives an
      integer in [0,100] and the clamp changes nothing. */
  lemma RawScoreWithin(r: Document)
    ensures 0.0 <= RawScore(r) <= 100.0
    ensures Score(r) == Round(RawScore(r))
    ensures 0 <= Score(r) <= 100
  {
    WorkShareWithin(OrEmpty(r.workExperience));
    EducationShareWithin(OrEmpty(r.education));
    SkillsShareWithin(OrEmpty(r.skills));
    ProjectsShareWithin(OrEmpty(r.projects));
    RoundMonotone(0.0, RawScore(r));
    RoundMonotone(RawScore(r), 100.0);
  }

  /** `Math.round` never decreases as its argument grows. */
  lemma RoundMonotone(x: real, y: real)
    requires x <= y
    ensures Round(x) <= Round(y)
  {
  }

  /* ---------- concrete scores ---------- */

  /** The editor's starting draft scores exactly 0: every blank entry is
      filtered out and the single empty interest does not count. */
  lemma InitialDraftScoresZero()
    ensures Score(ToDocument(InitialDraft)) == 0
  {
    assert !HasText("");
    assert Filter([BlankWork], WorkIsValid) == [];
    assert Filter([BlankEducation], EducationIsValid) == [];
    assert Filter([BlankSkill], SkillIsValid) == [];
    assert Filter([BlankProject], ProjectIsValid) == [];
  }

  /** A document in which every section is missing scores 0 and nothing fails. */
  lemma MissingSectionsScoreZero(r: Document)
    requires r.profileInfo.None? && r.contactInfo.None?
    requires r.workExperience.None? && r.education.None? && r.skills.None? && r.projects.None?
    requires r.certifications.None? && r.languages.None? && r.interests.None?
    ensures RawScore(r) == 0.0 && Score(r) == 0
  {
  }

  /** A missing list section scores exactly like an empty one. */
  lemma MissingIsEmpty(r: Document)
    ensures Score(r) == Score(r.(workExperience := Some(OrEmpty(r.workExperience)),
                                 education := Some(OrEmpty(r.education)),
                                 skills := Some(OrEmpty(r.skills)),
                                 projects := Some(OrEmpty(r.projects)),
                                 certifications := Some(OrEmpty(r.certifications)),
                                 languages := Some(OrEmpty(r.languages)),
                                 interests := Some(OrEmpty(r.interests))))
  {
  }

  /** A contact with an email and nothing else gives half of 15, which
      `Math.round` takes up to 8. */
  lemma ContactAloneRoundsUp()
    ensures var r := Document(None, None, None, None,
                              Some(Contact("a@b.co", "", "", "", "", "")),
                              None, None, None, None, None, None, None);
            RawScore(r) == 7.5 && Score(r) == 8
  {
    assert HasText("a@b.co") by { StartsWithText("a@b.co"); }
    assert !HasText("");
  }

  /** A profile with only the full name gives 20/3, rounded to 7. */
  lemma FullNameAloneGivesSeven()
    ensures var r := Document(None, None, None, Some(Profile("", "Ada", "", "")),
                              None, None, None, None, None, None, None, None);
            Score(r) == 7
  {
    assert HasText("Ada") by { StartsWithText("Ada"); }
    assert !HasText("");
  }

  /** A named skill at progress 0 fills one of its two sub-fields: the skills
      category contributes exactly half of its weight. */
  lemma NamedSkillAtZeroGivesFive()
    ensures SkillsShare([Skill("Go", 0)]) == 5.0
  {
    var go := Skill("Go", 0);
    assert SkillIsValid(go) && SkillFilled(go) == 1 by { StartsWithText("Go"); }
    assert Filter([go], SkillIsValid) == [go] by {
      assert [go][..0] == [];
    }
    assert SumOf([go], SkillFilled) == 1 by {
      assert [go][..0] == [];
    }
  }

  /** A work entry whose company is only white space is valid (the raw
      string is truthy) yet fills nothing, so it halves the work share of a
      resume whose one other entry is complete: list edits are not monotone. */
  lemma BlankishEntryHalvesWork()
    ensures var full := Work("Acme", "Dev", Some("2020"), Some("2021"), "Built");
            WorkShare([full]) == 25.0
            && WorkShare([full, Work("  ", "", None, None, "")]) == 12.5
  {
    var full := Work("Acme", "Dev", Some("2020"), Some("2021"), "Built");
    var blankish := Work("  ", "", None, None, "");
    CompleteEntry(full);
    BlankishEntry(blankish);
    OneEntryShare(full);
    TwoEntryShare(full, blankish);
  }

  lemma OneEntryShare(w: Work)
    requires WorkIsValid(w) && WorkFilled(w) == 5
    ensures WorkShare([w]) == 25.0
  {
    assert Filter([w], WorkIsValid) == [w];
    assert SumOf([w], WorkFilled) == 5;
  }

  lemma TwoEntryShare(w: Work, v: Work)
    requires WorkIsValid(w) && WorkFilled(w) == 5
    requires WorkIsValid(v) && WorkFilled(v) == 0
    ensures WorkShare([w, v]) == 12.5
  {
    var two := [w, v];
    assert two[..1] == [w];
    assert Filter(two, WorkIsValid) == two;
    assert SumOf([w], WorkFilled) == 5;
    assert SumOf(two, WorkFilled) == SumOf([w], WorkFilled) + WorkFilled(v);
  }

  lemma CompleteEntry(w: Work)
    requires w == Work("Acme", "Dev", Some("2020"), Some("2021"), "Built")
    ensures WorkIsValid(w) && WorkFilled(w) == 5
  {
    assert HasText("Acme") by { StartsWithText("Acme"); }
    assert HasText("Dev") by { StartsWithText("Dev"); }
    assert HasText("Built") by { StartsWithText("Built"); }
  }

  lemma BlankishEntry(w: Work)
    requires w == Work("  ", "", None, None, "")
    ensures WorkIsValid(w) && WorkFilled(w) == 0
  {
    assert !HasText("  ") by { HasTextIffNonSpace("  "); }
    assert !HasText("");
  }

  /* ---------- a complete resume scores 100 ---------- */

  predicate WorkFullyFilled(w: Work) {
    HasText(w.company) && HasText(w.role) && IsSet(w.startDate) && IsSet(w.endDate)
    && HasText(w.description)
  }

  predicate EducationFullyFilled(e: Education) {
    HasText(e.degree) && HasText(e.institution) && IsSet(e.startDate) && IsSet(e.endDate)
  }

  predicate SkillFullyFilled(s: Skill) {
    HasText(s.name) && s.progress > 0
  }

  predicate ProjectFullyFilled(p: Project) {
    HasText(p.title) && HasText(p.description) && HasText(p.githubLink) && HasText(p.liveDemo)
  }

  /** Every entry of a category valid and filled to the last sub-field gives
      the category its whole weight. */
  lemma FullShare(weight: nat, entries: nat, perEntry: nat)
    requires entries > 0 && perEntry > 0
    ensures Share(weight, perEntry * entries, entries, perEntry) == weight as real
  {
    assert perEntry * entries == entries * perEntry;
  }

  lemma CompleteWorkShare(ws: seq<Work>)
    requires |ws| > 0 && forall k | 0 <= k < |ws| :: WorkFullyFilled(ws[k])
    ensures WorkShare(ws) == WorkWeight as real
  {
    FilterKeepsAll(ws, WorkIsValid);
    SumOfConstant(ws, WorkFilled, 5);
    FullShare(WorkWeight, |ws|, 5);
  }

  lemma CompleteEducationShare(es: seq<Education>)
    requires |es| > 0 && forall k | 0 <= k < |es| :: EducationFullyFilled(es[k])
    ensures EducationShare(es) == EducationWeight as real
  {
    FilterKeepsAll(es, EducationIsValid);
    SumOfConstant(es, EducationFilled, 4);
    FullShare(EducationWeight, |es|, 4);
  }

  lemma CompleteSkillsShare(ss: seq<Skill>)
    requires |ss| > 0 && forall k | 0 <= k < |ss| :: SkillFullyFilled(ss[k])
    ensures SkillsShare(ss) == SkillsWeight as real
  {
    FilterKeepsAll(ss, SkillIsValid);
    SumOfConstant(ss, SkillFilled, 2);
    FullShare(SkillsWeight, |ss|, 2);
  }

  lemma CompleteProjectsShare(ps: seq<Project>)
    requires |ps| > 0 && forall k | 0 <= k < |ps| :: ProjectFullyFilled(ps[k])
    ensures ProjectsShare(ps) == ProjectsWeight as real
  {
    FilterKeepsAll(ps, ProjectIsValid);
    SumOfConstant(ps, ProjectFilled, 4);
    FullShare(ProjectsWeight, |ps|, 4);
  }

  /** Every profile field and both contact fields filled, every list holding
      only complete entries, and one certification, one named language and
      one non-blank interest: the score is 100. */
  lemma CompleteResumeScoresHundred(r: Document)
    requires r.profileInfo.Some? && HasText(r.profileInfo.value.fullName)
             && HasText(r.profileInfo.value.designation) && HasText(r.profileInfo.value.summary)
    requires r.contactInfo.Some? && HasText(r.contactInfo.value.email) && HasText(r.contactInfo.value.phone)
    requires var ws := OrEmpty(r.workExperience); |ws| > 0 && forall k | 0 <= k < |ws| :: WorkFullyFilled(ws[k])
    requires var es := OrEmpty(r.education); |es| > 0 && forall k | 0 <= k < |es| :: EducationFullyFilled(es[k])
    requires var ss := OrEmpty(r.skills); |ss| > 0 && forall k | 0 <= k < |ss| :: SkillFullyFilled(ss[k])
    requires var ps := OrEmpty(r.projects); |ps| > 0 && forall k | 0 <= k < |ps| :: ProjectFullyFilled(ps[k])
    requires var cs := OrEmpty(r.certifications); exists k | 0 <= k < |cs| :: CertificationHasValue(cs[k])
    requires var ls := OrEmpty(r.languages); exists k | 0 <= k < |ls| :: LanguageHasName(ls[k])
    requires var ins := OrEmpty(r.interests); exists k | 0 <= k < |ins| :: HasText(ins[k])
    ensures RawScore(r) == 100.0 && Score(r) == 100
  {
    CompleteWorkShare(OrEmpty(r.workExperience));
    CompleteEducationShare(OrEmpty(r.education));
    CompleteSkillsShare(OrEmpty(r.skills));
    CompleteProjectsShare(OrEmpty(r.projects));
  }

  /* ---------- profile and contact edits are monotone ---------- */

  /** Every profile field that had text in `before` has text in `after`. */
  predicate ProfileNoEmptier(before: Option<Profile>, after: Profile) {
    before.Some? ==>
      && (HasText(before.value.fullName) ==> HasText(after.fullName))
      && (HasText(before.value.designation) ==> HasText(after.designation))
      && (HasText(before.value.summary) ==> HasText(after.summary))
  }

  /** Every contact field the scorer reads that had text in `before` has text in `after`. */
  predicate ContactNoEmptier(before: Option<Contact>, after: Contact) {
    before.Some? ==>
      && (HasText(before.value.email) ==> HasText(after.email))
      && (HasText(before.value.phone) ==> HasText(after.phone))
  }

  /** Giving text to profile or contact fields, and taking it from none, never
      lowers the score. */
  lemma FillingInfoNeverLowers(r: Document, p: Profile, c: Contact)
    requires ProfileNoEmptier(r.profileInfo, p) && ContactNoEmptier(r.contactInfo, c)
    ensures Score(r) <= Score(r.(profileInfo := Some(p), contactInfo := Some(c)))
  {
    var r' := r.(profileInfo := Some(p), contactInfo := Some(c));
    ProfileShareGrows(r.profileInfo, p);
    ContactShareGrows(r.contactInfo, c);
    SplitRawScore(r);
    SplitRawScore(r');
    assert OtherShares(r) == OtherShares(r');
    RoundMonotone(RawScore(r), RawScore(r'));
  }

  lemma ProfileShareGrows(before: Option<Profile>, after: Profile)
    requires ProfileNoEmptier(before, after)
    ensures ProfileShare(before) <= ProfileShare(Some(after))
  {
    assert ProfileDone(before) <= ProfileDone(Some(after));
    PartMonotone(ProfileDone(before), ProfileDone(Some(after)), 3.0, ProfileWeight);
  }

  lemma ContactShareGrows(before: Option<Contact>, after: Contact)
    requires ContactNoEmptier(before, after)
    ensures ContactShare(before) <= ContactShare(Some(after))
  {
    assert ContactDone(before) <= ContactDone(Some(after));
    PartMonotone(ContactDone(before), ContactDone(Some(after)), 2.0, ContactWeight);
  }

  /** The five contributions that profile and contact edits do not touch. */
  function OtherShares(r: Document): real {
    WorkShare(OrEmpty(r.workExperience)) + EducationShare(OrEmpty(r.education))
    + SkillsShare(OrEmpty(r.skills)) + ProjectsShare(OrEmpty(r.projects))
    + ExtraShare(OrEmpty(r.certifications), OrEmpty(r.languages), OrEmpty(r.interests))
  }

  lemma SplitRawScore(r: Document)
    ensures RawScore(r) == ProfileShare(r.profileInfo) + ContactShare(r.contactInfo) + OtherShares(r)
  {
  }

  lemma PartMonotone(a: nat, b: nat, total: real, weight: nat)
    requires a <= b && total > 0.0
    ensures (a as real / total) * weight as real <= (b as real / total) * weight as real
  {
    assert a as real / total <= b as real / total;
  }

  /* ---------- entries that are not valid do not count ---------- */

  lemma WorkIgnoresInvalid(ws: seq<Work>, w: Work)
    requires !WorkIsValid(w)
    ensures WorkShare(ws + [w]) == WorkShare(ws)
  {
    AppendRejected(ws, w, WorkIsValid);
  }

  lemma EducationIgnoresInvalid(es: seq<Education>, e: Education)
    requires !EducationIsValid(e)
    ensures EducationShare(es + [e]) == EducationShare(es)
  {
    AppendRejected(es, e, EducationIsValid);
  }

  lemma SkillsIgnoreInvalid(ss: seq<Skill>, s: Skill)
    requires !SkillIsValid(s)
    ensures SkillsShare(ss + [s]) == SkillsShare(ss)
  {
    AppendRejected(ss, s, SkillIsValid);
  }

  lemma ProjectsIgnoreInvalid(ps: seq<Project>, p: Project)
    requires !ProjectIsValid(p)
    ensures ProjectsShare(ps + [p]) == ProjectsShare(ps)
  {
    AppendRejected(ps, p, ProjectIsValid);
  }

  /** Appending an entry with nothing in it leaves the extra category alone. */
  lemma ExtraIgnoresEmpty(cs: seq<Certification>, ls: seq<Language>, ins: seq<string>,
                          c: Certification, l: Language, i: string)
    requires !CertificationHasValue(c) && !LanguageHasName(l) && !HasText(i)
    ensures ExtraDone(cs + [c], ls, ins) == ExtraDone(cs, ls, ins)
    ensures ExtraDone(cs, ls + [l], ins) == ExtraDone(cs, ls, ins)
    ensures ExtraDone(cs, ls, ins + [i]) == ExtraDone(cs, ls, ins)
  {
    assert forall k | 0 <= k < |cs| :: (cs + [c])[k] == cs[k];
    assert forall k | 0 <= k < |ls| :: (ls + [l])[k] == ls[k];
    assert forall k | 0 <= k < |ins| :: (ins + [i])[k] == ins[k];
  }
}
