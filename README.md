# Resume builder: completion score, step wizard, draft edits and resume store

This project models the core of a resume builder web application and proves
properties of that model in Dafny.

In the editor a user fills a resume in eight steps: profile, contact, work
experience, education, skills, projects, certifications and additional
information. The modelled core consists of:

- **The completion score** (`Completion`, `CompletionFacts`). This is a
  percentage from seven weighted categories: profile 20, contact 15, work 25,
  education 15, skills 10, projects 10, extras 5.
  - A list entry counts only if one of its text fields is non-empty or a date
    is set.
  - A category's share is the number of filled sub-fields over the number of
    possible ones.
  - The sum is rounded like `Math.round` and clamped to [0,100].
  - The editor and the dashboard carry identical copies of this scorer. One
    method and one specification function model both.
- **The step validators** (`Validation`, `ValidationFacts`). Each page has a
  list of messages, pushed in the order the source checks the fields.
- **The draft edits and the save and load conversions** (`DraftEdits`,
  `DraftFacts`):
  - setting a profile or contact field;
  - setting, adding and removing (with `splice`) an entry of a list section;
  - the payload `updateResumeDetails` sends, which trims the text fields and
    keeps only the entries with content;
  - the merge `fetchResumeDetailsById` applies to a fetched record.
- **The editor** (`Editor.ResumeEditor`), a class whose fields are the
  component's state:
  - the page, the progress bar, the error line, the preview and exit signals,
    the draft and its completion;
  - `validateAndNext`, `goToNextStep`, `goBack` and the edit handlers as
    methods;
  - the effect that rescores the draft after every change is folded into each
    edit.
- **The dashboard** (`Dashboard`): the fetched list with a completion beside
  each record.
- **The server's resume controller** (`ResumeStore`):
  - a class over a map from id to record with its owner;
  - create with a required title and fixed placeholder values;
  - get, update and delete, which answer 404 unless the signed-in user owns
    the record;
  - update copies the twelve whitelisted fields the body defines, one at a
    time.

Strings are `seq<char>`. `Text.IsSpace` is the JavaScript white-space and
line-terminator set, which `trim` and `\s` use. The scorer computes with exact
rationals (`real`).

A JSON field that is `undefined` is `None` in `ResumeTypes.Document`. A date
is `Option<string>`, and it is set exactly when it is truthy in JavaScript.

## Model

| member | source | states |
|---|---|---|
| Text.Trim | frontend/src/components/EditResume.jsx:153 | `String.prototype.trim`: white space and line terminators removed from both ends (its behaviour is stated by the three lemmas below) |
| Text.HasText | frontend/src/components/EditResume.jsx:153 | `safeTrim(v)` is truthy: the trimmed string is non-empty |
| Text.HasTextIffNonSpace | frontend/src/components/EditResume.jsx:153 | `safeTrim(v)` is truthy exactly when `v` holds a character outside the white-space set |
| Text.TrimStartDropsSpace | frontend/src/components/EditResume.jsx:153 | trimming the front removes a prefix made only of white space and stops at a non-space character |
| Text.TrimEndDropsSpace | frontend/src/components/EditResume.jsx:153 | trimming the end keeps a prefix, ends on a non-space character and keeps a non-space first character |
| Text.TrimIdempotent | frontend/src/components/EditResume.jsx:645-664 | trimming a trimmed string changes nothing, so a saved field is stable under a second save |
| Text.TrimKeepsText | frontend/src/components/EditResume.jsx:645-664 | a trimmed field has text exactly when the untrimmed one had |
| Text.StartsWithText | frontend/src/components/EditResume.jsx:153 | a string whose first character is not white space has text |
| Text.NatToString | frontend/src/components/EditResume.jsx:310 | `${index + 1}` prints a non-empty run of decimal digits |
| Text.NatToStringSpellsValue | frontend/src/components/EditResume.jsx:310 | the printed digits have exactly the number as their decimal value, and no leading zero |
| Text.NatToStringInjective | frontend/src/components/EditResume.jsx:309-313 | two different entry numbers never print the same, so each message names one entry |
| Text.Join | frontend/src/components/EditResume.jsx:359-361 | `errors.join(", ")` of no message is "" and of one message is that message |
| Text.JoinAppend | frontend/src/components/EditResume.jsx:359-361 | joining two non-empty lists of messages is the two joined halves with one separator between them |
| Text.JoinLength | frontend/src/components/EditResume.jsx:359-361 | the joined text is as long as all messages together plus one separator between each neighbouring pair |
| Seqs.Filter | frontend/src/components/EditResume.jsx:176-181 | `filter` keeps at most the input's entries, and only ones that pass the test |
| Seqs.FilterMembership | frontend/src/components/EditResume.jsx:676-706 | a value is in the filtered list exactly when it is in the list and passes |
| Seqs.FilterIdempotent | frontend/src/components/EditResume.jsx:676-706 | filtering twice by the same test equals filtering once |
| Seqs.FilterKeepsAll | frontend/src/components/EditResume.jsx:176-181 | a list whose entries all pass is kept whole |
| Seqs.FilterAppend | frontend/src/components/EditResume.jsx:176-181 | filtering a concatenation is the concatenation of the filtered parts |
| Seqs.AppendRejected | frontend/src/components/EditResume.jsx:176-181 | an appended entry that fails the test leaves the filtered list as it was |
| Seqs.SumOfBound | frontend/src/components/EditResume.jsx:188-194 | the sum of per-entry filled counts, each at most `m`, is at most `m` times the entries |
| Seqs.SumOfConstant | frontend/src/components/EditResume.jsx:184-185 | every entry filling `m` sub-fields gives `m` times the entries, the category's total |
| Seqs.NarrowerFilterDropsZeros | frontend/src/components/EditResume.jsx:676-682 | a narrower filter that only drops entries filling nothing keeps the filled count and keeps no more entries |
| Seqs.SumOfAppendOne | frontend/src/components/EditResume.jsx:188-194 | a `forEach` step adds the new entry's count to the running total |
| Seqs.Map | frontend/src/pages/Dashboard.jsx:176-179 | `map` keeps the length and applies the function at every index |
| Seqs.MapRoundTrip | frontend/src/components/EditResume.jsx:523-541 | mapping out and back with an inverse gives the list back |
| Seqs.MapAppend | frontend/src/components/EditResume.jsx:543-548 | mapping commutes with appending one entry |
| Seqs.MapUpdate | frontend/src/components/EditResume.jsx:523-541 | mapping commutes with replacing one entry |
| Seqs.SpliceStart | frontend/src/components/EditResume.jsx:550-553 | `splice` starts at the index when it is in range; a negative index counts from the end; both ends are clamped |
| Seqs.Spliced | frontend/src/components/EditResume.jsx:550-553 | `splice(index, 1)` removes the entry at the start position and shifts the rest; past the end it removes nothing |
| Seqs.MapSpliced | frontend/src/components/EditResume.jsx:550-553 | splicing commutes with mapping |
| Completion.AnyValue | frontend/src/components/EditResume.jsx:154-155 | `hasAnyValue` on one string key: it has text after trimming or is non-empty as it stands |
| Completion.WorkIsValid | frontend/src/components/EditResume.jsx:176-181 | a work entry counts when company, role or description is non-empty (white space alone counts, since `safeTrim(v) || v` is then truthy) or a date is set |
| Completion.EducationIsValid | frontend/src/components/EditResume.jsx:201-206 | an education entry counts when degree or institution is non-empty, white space included, or a date is set |
| Completion.SkillIsValid | frontend/src/components/EditResume.jsx:225 | a skill counts when its name has text |
| Completion.ProjectIsValid | frontend/src/components/EditResume.jsx:242-244 | a project counts when title, description, GitHub link or demo link is non-empty, white space included |
| Completion.CertificationHasValue | frontend/src/components/EditResume.jsx:266-268 | a certification counts when title or issuer has text or a year is set |
| Completion.LanguageHasName | frontend/src/components/EditResume.jsx:272 | a language counts when its name has text |
| Completion.WorkFilled | frontend/src/components/EditResume.jsx:189-193 | the work entry's filled sub-fields: company and role with text, each date set, description with text |
| Completion.EducationFilled | frontend/src/components/EditResume.jsx:214-217 | the education entry's filled sub-fields: degree and institution with text, each date set |
| Completion.SkillFilled | frontend/src/components/EditResume.jsx:233-234 | a named skill fills its name and, when its progress is positive, its progress |
| Completion.ProjectFilled | frontend/src/components/EditResume.jsx:252-255 | the project's four text sub-fields that have text |
| Completion.ProfileDone | frontend/src/components/EditResume.jsx:162-164 | the profile counter: full name, designation and summary with text |
| Completion.ContactDone | frontend/src/components/EditResume.jsx:170-171 | the contact counter: email and phone with text |
| Completion.ExtraDone | frontend/src/components/EditResume.jsx:265-277 | the extras counter: some certification with a value, some named language, some non-blank interest |
| Completion.ProfileShare | frontend/src/components/EditResume.jsx:159-165 | filled profile fields out of 3, times 20 |
| Completion.ContactShare | frontend/src/components/EditResume.jsx:167-172 | filled contact fields out of 2, times 15 |
| Completion.WorkShare | frontend/src/components/EditResume.jsx:174-197 | filled sub-fields of the valid work entries out of 5 per entry, times 25, or 0 with no valid entry |
| Completion.EducationShare | frontend/src/components/EditResume.jsx:199-221 | the same with 4 sub-fields per entry and weight 15 |
| Completion.SkillsShare | frontend/src/components/EditResume.jsx:223-238 | the same with 2 sub-fields per named skill and weight 10 |
| Completion.ProjectsShare | frontend/src/components/EditResume.jsx:240-260 | the same with 4 sub-fields per valid project and weight 10 |
| Completion.ExtraShare | frontend/src/components/EditResume.jsx:262-279 | one third of 5 for each of: a certification with a value, a named language, a non-blank interest |
| Completion.RawScore | frontend/src/components/EditResume.jsx:141-279 | the sum of the seven shares, missing sections read as empty lists (its bounds are in `CompletionFacts.RawScoreWithin`) |
| Completion.Score | frontend/src/components/EditResume.jsx:281 | `Math.min(100, Math.max(0, Math.round(score)))` of the raw score |
| Completion.WorkContribution | frontend/src/components/EditResume.jsx:175-197 | the work loop's sum is `WorkShare`: filled sub-fields of the valid entries over 5 per entry, times 25 |
| Completion.EducationContribution | frontend/src/components/EditResume.jsx:200-221 | the education loop's sum is `EducationShare`: 4 sub-fields per valid entry, weight 15 |
| Completion.SkillsContribution | frontend/src/components/EditResume.jsx:224-238 | the skills loop's sum is `SkillsShare`: name and positive progress of each named skill, weight 10 |
| Completion.ProjectsContribution | frontend/src/components/EditResume.jsx:241-260 | the projects loop's sum is `ProjectsShare`: 4 text sub-fields per valid project, weight 10 |
| Completion.ProfileContribution | frontend/src/components/EditResume.jsx:159-166 | the profile counter gives `ProfileShare`: one third of 20 per filled name, designation and summary |
| Completion.ContactContribution | frontend/src/components/EditResume.jsx:168-173 | the contact counter gives `ContactShare`: half of 15 per filled email and phone |
| Completion.ExtraContribution | frontend/src/components/EditResume.jsx:262-279 | the extras counter gives `ExtraShare`: a third of 5 for any certification with a value, any named language, any non-blank interest |
| Completion.CalculateCompletion | frontend/src/components/EditResume.jsx:141-285 | the counters and loops compute exactly `Score`, the rounded, clamped sum of the seven weighted shares |
| CompletionFacts.ShareWithin | frontend/src/pages/Dashboard.jsx:80 | a category's share lies between 0 and its weight |
| CompletionFacts.ShareFewerEntries | frontend/src/pages/Dashboard.jsx:61-80 | the same filled count over fewer valid entries is a larger share |
| CompletionFacts.WorkShareWithin | frontend/src/pages/Dashboard.jsx:59-81 | the work share is in [0,25] |
| CompletionFacts.EducationShareWithin | frontend/src/pages/Dashboard.jsx:84-105 | the education share is in [0,15] |
| CompletionFacts.SkillsShareWithin | frontend/src/pages/Dashboard.jsx:108-122 | the skills share is in [0,10] |
| CompletionFacts.ProjectsShareWithin | frontend/src/pages/Dashboard.jsx:125-143 | the projects share is in [0,10] |
| CompletionFacts.WeightsSumToHundred | frontend/src/pages/Dashboard.jsx:27-35 | the seven weights add up to 100 |
| CompletionFacts.RawScoreWithin | frontend/src/pages/Dashboard.jsx:165 | the unrounded score lies in [0,100], so the clamp never acts and the result is an integer in [0,100] |
| CompletionFacts.RoundMonotone | frontend/src/pages/Dashboard.jsx:165 | `Math.round` never decreases as its argument grows |
| CompletionFacts.InitialDraftScoresZero | frontend/src/components/EditResume.jsx:62-137 | the editor's starting draft, whose entries are all blank, scores 0 |
| CompletionFacts.MissingSectionsScoreZero | frontend/src/pages/Dashboard.jsx:59 | a record with every section undefined scores 0 |
| CompletionFacts.MissingIsEmpty | frontend/src/pages/Dashboard.jsx:59-159 | an undefined list section scores exactly like an empty one |
| CompletionFacts.ContactAloneRoundsUp | frontend/src/pages/Dashboard.jsx:52-56 | an email alone gives half of 15, which rounds up to 8 |
| CompletionFacts.FullNameAloneGivesSeven | frontend/src/pages/Dashboard.jsx:44-49 | a full name alone gives 20/3, which rounds to 7 |
| CompletionFacts.NamedSkillAtZeroGivesFive | frontend/src/pages/Dashboard.jsx:108-121 | a named skill at progress 0 fills one of its two sub-fields, 5 of the 10 points |
| CompletionFacts.BlankishEntryHalvesWork | frontend/src/pages/Dashboard.jsx:61-66 | an entry whose company is only white space is valid but fills nothing, so beside a complete entry it halves the work share |
| CompletionFacts.OneEntryShare | frontend/src/pages/Dashboard.jsx:67-80 | one valid entry filling all five sub-fields gives the full 25 |
| CompletionFacts.TwoEntryShare | frontend/src/pages/Dashboard.jsx:67-80 | a full entry and a valid empty one give 12.5 |
| CompletionFacts.CompleteEntry | frontend/src/pages/Dashboard.jsx:61-79 | a work entry with every field filled is valid and fills 5 |
| CompletionFacts.BlankishEntry | frontend/src/pages/Dashboard.jsx:61-79 | a company of two spaces makes the entry valid while filling 0 |
| CompletionFacts.FullShare | frontend/src/pages/Dashboard.jsx:80 | filling every sub-field of every entry gives the whole weight |
| CompletionFacts.CompleteWorkShare | frontend/src/pages/Dashboard.jsx:59-81 | complete work entries give 25 |
| CompletionFacts.CompleteEducationShare | frontend/src/pages/Dashboard.jsx:84-105 | complete education entries give 15 |
| CompletionFacts.CompleteSkillsShare | frontend/src/pages/Dashboard.jsx:108-122 | named skills with positive progress give 10 |
| CompletionFacts.CompleteProjectsShare | frontend/src/pages/Dashboard.jsx:125-143 | complete projects give 10 |
| CompletionFacts.CompleteResumeScoresHundred | frontend/src/pages/Dashboard.jsx:27-165 | every profile and contact field filled, every list complete, plus one certification, named language and interest, scores exactly 100 |
| CompletionFacts.FillingInfoNeverLowers | frontend/src/pages/Dashboard.jsx:44-56 | giving text to profile or contact fields, and taking it from none, never lowers the score |
| CompletionFacts.ProfileShareGrows | frontend/src/pages/Dashboard.jsx:44-49 | a profile that keeps every filled field filled has at least the share it had |
| CompletionFacts.ContactShareGrows | frontend/src/pages/Dashboard.jsx:52-56 | a contact that keeps email and phone filled where they were has at least the share it had |
| CompletionFacts.SplitRawScore | frontend/src/pages/Dashboard.jsx:49-163 | the score is the profile share plus the contact share plus the five other shares |
| CompletionFacts.PartMonotone | frontend/src/pages/Dashboard.jsx:49 | more filled fields over the same total give a larger share |
| CompletionFacts.WorkIgnoresInvalid | frontend/src/pages/Dashboard.jsx:60-66 | appending a work entry with no value anywhere leaves the work share unchanged |
| CompletionFacts.EducationIgnoresInvalid | frontend/src/pages/Dashboard.jsx:85-90 | the same for education |
| CompletionFacts.SkillsIgnoreInvalid | frontend/src/pages/Dashboard.jsx:109 | appending an unnamed skill leaves the skills share unchanged |
| CompletionFacts.ProjectsIgnoreInvalid | frontend/src/pages/Dashboard.jsx:126-128 | the same for projects |
| CompletionFacts.ExtraIgnoresEmpty | frontend/src/pages/Dashboard.jsx:147-163 | an empty certification, unnamed language or blank interest adds nothing to the extras |
| Validation.PageIndex | frontend/src/components/EditResume.jsx:369-382 | `pages.indexOf(currentPage)` finds every page, so the -1 case never arises |
| Validation.PageIndexOfPages | frontend/src/components/EditResume.jsx:369-382 | the page at position i has index i |
| Validation.EmailPattern | frontend/src/components/EditResume.jsx:304 | `^\S+@\S+\.\S+$`: non-space text, an "@", non-space text, a dot, non-space text; each run may itself hold "@" or "." |
| Validation.PhonePattern | frontend/src/components/EditResume.jsx:305 | `^\d{10}$`: exactly ten decimal digits |
| Validation.PageErrors | frontend/src/components/EditResume.jsx:293-357 | the messages `validateAndNext`'s `switch` collects for a page, in the order the source pushes them (stated page by page in `ValidationFacts`) |
| Validation.EmailPatternHasText | frontend/src/components/EditResume.jsx:304 | a string matching `^\S+@\S+\.\S+$` has no white space, so it also passes the trim test |
| Validation.PhonePatternHasText | frontend/src/components/EditResume.jsx:305 | a string matching `^\d{10}$` has text |
| Validation.CollectErrors | frontend/src/components/EditResume.jsx:291-357 | the `switch` and its `forEach` loops push exactly `PageErrors(page, resume)`, in the source's order |
| Validation.CollectWorkErrors | frontend/src/components/EditResume.jsx:308-314 | the work loop pushes the messages of each experience in turn, numbered from 1 |
| Validation.CollectEducationErrors | frontend/src/components/EditResume.jsx:316-322 | the same for education |
| Validation.CollectSkillErrors | frontend/src/components/EditResume.jsx:324-330 | the same for skills |
| Validation.CollectProjectErrors | frontend/src/components/EditResume.jsx:332-337 | the same for projects |
| Validation.CollectCertificationErrors | frontend/src/components/EditResume.jsx:339-344 | the same for certifications |
| ValidationFacts.PushAppends | frontend/src/components/EditResume.jsx:297-299 | a push only adds at the end |
| ValidationFacts.ProfileMessagesIff | frontend/src/components/EditResume.jsx:295-300 | each profile message appears exactly when its field is blank, no other message appears, and the count is the number of blank fields |
| ValidationFacts.OnlyFullNameBlank | frontend/src/components/EditResume.jsx:297 | only the full name blank gives exactly ["Full Name is required"] |
| ValidationFacts.ContactPassesIff | frontend/src/components/EditResume.jsx:302-306 | the contact page passes exactly when the email matches the email pattern and the phone is ten digits |
| ValidationFacts.EmailExamples | frontend/src/components/EditResume.jsx:304 | "a@b.co" matches; "a@b" and "a b@c.d" do not |
| ValidationFacts.PhoneExamples | frontend/src/components/EditResume.jsx:305 | "0123456789" matches; nine digits or a letter do not |
| ValidationFacts.EntriesPassIff | frontend/src/components/EditResume.jsx:309-313 | a list page passes exactly when each entry passes its checks on its own |
| ValidationFacts.EntryMessagesKept | frontend/src/components/EditResume.jsx:309-313 | every message about entry k appears in the page's list |
| ValidationFacts.WorkChecksAppend | frontend/src/components/EditResume.jsx:310-312 | the checks of one experience only append |
| ValidationFacts.EducationChecksAppend | frontend/src/components/EditResume.jsx:318-320 | the checks of one education entry only append |
| ValidationFacts.SkillChecksAppend | frontend/src/components/EditResume.jsx:326-328 | the checks of one skill only append |
| ValidationFacts.ProjectChecksAppend | frontend/src/components/EditResume.jsx:334-335 | the checks of one project only append |
| ValidationFacts.CertificationChecksAppend | frontend/src/components/EditResume.jsx:341-342 | the checks of one certification only append |
| ValidationFacts.WorkEntryPassesIff | frontend/src/components/EditResume.jsx:310-312 | one experience raises no message exactly when it has a company, a role and both dates |
| ValidationFacts.EducationEntryPassesIff | frontend/src/components/EditResume.jsx:318-320 | one education entry raises no message exactly when it has a degree, an institution and both dates |
| ValidationFacts.SkillEntryPassesIff | frontend/src/components/EditResume.jsx:326-328 | one skill raises no message exactly when it is named with progress in [1,100] |
| ValidationFacts.ProjectEntryPassesIff | frontend/src/components/EditResume.jsx:334-335 | one project raises no message exactly when it has a title and a description |
| ValidationFacts.CertificationEntryPassesIff | frontend/src/components/EditResume.jsx:341-342 | one certification raises no message exactly when it has a title and an issuer |
| ValidationFacts.WorkPagePassesIff | frontend/src/components/EditResume.jsx:308-314 | the work page passes exactly when every experience has a company, a role and both dates |
| ValidationFacts.EducationPagePassesIff | frontend/src/components/EditResume.jsx:316-322 | the education page passes exactly when every entry has a degree, an institution and both dates |
| ValidationFacts.SkillsPagePassesIff | frontend/src/components/EditResume.jsx:324-330 | the skills page passes exactly when every skill is named with progress in [1,100] |
| ValidationFacts.ProjectsPagePassesIff | frontend/src/components/EditResume.jsx:332-337 | the projects page passes exactly when every project has a title and a description |
| ValidationFacts.CertificationsPagePassesIff | frontend/src/components/EditResume.jsx:339-344 | the certifications page passes exactly when every certification has a title and an issuer |
| ValidationFacts.AdditionalPagePassesIff | frontend/src/components/EditResume.jsx:346-353 | the last page passes exactly when the first language is named and the first interest has text |
| ValidationFacts.MissingCompanyReported | frontend/src/components/EditResume.jsx:310 | a blank company in entry k is reported with the number k + 1 |
| ValidationFacts.SkillProgressReported | frontend/src/components/EditResume.jsx:327-328 | a skill progress outside [1,100] is reported with the skill's number |
| ValidationFacts.SecondExperienceWithoutRole | frontend/src/components/EditResume.jsx:309-313 | a complete first experience and a second without a role give exactly ["Role is required in experience 2"] |
| ValidationFacts.FirstExperiencePasses | frontend/src/components/EditResume.jsx:310-312 | a complete experience raises no message |
| ValidationFacts.SecondExperienceLacksRole | frontend/src/components/EditResume.jsx:311 | a missing role in the second experience gives one numbered message |
| ValidationFacts.LaterLanguageIgnored | frontend/src/components/EditResume.jsx:347 | a blank first language fails the page even when a later language is named and the scorer counts it |
| DraftEdits.Items | frontend/src/components/EditResume.jsx:525 | `prev[section]` seen as entries, each of the section's kind |
| DraftEdits.SetField | frontend/src/components/EditResume.jsx:530-533 | `{ ...entry, [key]: value }` sets that key, keeps every other key and keeps the entry's kind |
| DraftEdits.WithItems | frontend/src/components/EditResume.jsx:536-539 | `{ ...prev, [section]: array }` gives the section exactly that array and changes nothing else |
| DraftEdits.AddItem | frontend/src/components/EditResume.jsx:543-548 | the section gains the new entry at the end and nothing else changes |
| DraftEdits.RemoveItem | frontend/src/components/EditResume.jsx:550-558 | the section is spliced at the index and nothing else changes |
| DraftEdits.UpdateItem | frontend/src/components/EditResume.jsx:523-541 | same length; other entries unchanged; the entry replaced when the key is null, else that key set and the others kept; other sections unchanged |
| DraftEdits.UpdateInfo | frontend/src/components/EditResume.jsx:513-521 | the named profile or contact field takes the value; every other field and every list is unchanged |
| DraftFacts.Unwrap | frontend/src/components/EditResume.jsx:525 | each typed list is recovered from its entry view |
| DraftFacts.SameViewSameDraft | frontend/src/components/EditResume.jsx:536-539 | two drafts with the same header fields and the same entries in every section are equal |
| DraftFacts.RemoveUndoesAdd | frontend/src/components/EditResume.jsx:543-558 | removing the entry just added gives back the draft |
| DraftFacts.SpliceMinusOneDropsLast | frontend/src/components/EditResume.jsx:553 | `splice(-1, 1)` removes the last entry |
| DraftFacts.SplicePastEndKeepsAll | frontend/src/components/EditResume.jsx:553 | an index past the end removes nothing |
| DraftFacts.OtherListsKept | frontend/src/components/EditResume.jsx:536-539 | an edit of one section leaves every other list as it was |
| DraftFacts.BlankItem | frontend/src/components/EditResume.jsx:62-137 | the blank entry a form adds belongs to its section |
| DraftFacts.ScoreOfLists | frontend/src/components/EditResume.jsx:141-285 | two drafts with equal profile, contact and category shares score the same |
| DraftFacts.AddBlankKeepsScore | frontend/src/components/EditResume.jsx:543-548 | adding a blank entry to any section leaves the completion unchanged |
| DraftFacts.UpdateInfoNeverLowers | frontend/src/components/EditResume.jsx:513-521 | filling a blank profile or contact field, or editing one that has text so it keeps text, never lowers the completion |
| DraftEdits.WorkHasContent | frontend/src/components/EditResume.jsx:676-682 | the save keeps a work entry with a non-blank company, role or description or a set date |
| DraftEdits.EducationHasContent | frontend/src/components/EditResume.jsx:684-689 | the save keeps an education entry with a non-blank degree or institution or a set date |
| DraftEdits.ProjectHasContent | frontend/src/components/EditResume.jsx:693-698 | the save keeps a project with any non-blank text field |
| DraftEdits.SavePayload | frontend/src/components/EditResume.jsx:641-710 | the payload: thumbnail fallback, theme defaulting to "modern", trimmed profile and contact text, each list filtered to entries with content, and the completion |
| DraftEdits.Hydrated | frontend/src/components/EditResume.jsx:566-582 | the updater applied to a fetched record with a profile: title or "Untitled", each section from the record when present and from the draft otherwise |
| DraftFacts.SaveKeepsExactlyContent | frontend/src/components/EditResume.jsx:676-706 | each saved list holds exactly the entries with a non-blank field or a set date |
| DraftFacts.SaveIdempotent | frontend/src/components/EditResume.jsx:641-710 | building the payload from a saved payload gives the same payload |
| DraftFacts.NarrowedWorkShare | frontend/src/components/EditResume.jsx:676-682 | the save filter drops only valid but empty experiences, so the work share can only grow |
| DraftFacts.NarrowedEducationShare | frontend/src/components/EditResume.jsx:684-689 | the same for education |
| DraftFacts.NarrowedProjectsShare | frontend/src/components/EditResume.jsx:693-698 | the same for projects |
| DraftFacts.FilterKeepsSome | frontend/src/components/EditResume.jsx:700-706 | filtering by the test that `some` applies keeps the answer of `some` |
| DraftFacts.ScoreByCategories | frontend/src/pages/Dashboard.jsx:49-165 | a record at least as good in all seven categories scores at least as much |
| DraftFacts.SavedInfoScoresTheSame | frontend/src/components/EditResume.jsx:655-672 | trimming profile and contact fields leaves their shares unchanged |
| DraftFacts.SaveNeverLowersScore | frontend/src/components/EditResume.jsx:641-710 | the saved record scores at least as much as the draft |
| DraftFacts.SaveKeepsExtra | frontend/src/components/EditResume.jsx:700-706 | the save filters keep a certification, language or interest the scorer counts exactly when there was one |
| DraftFacts.HydrateRestoresDraft | frontend/src/components/EditResume.jsx:566-582 | loading a complete record with a title gives that record, keeping the editor's thumbnail |
| DraftFacts.HydrateKeepsMissing | frontend/src/components/EditResume.jsx:569-581 | each of the ten sections takes the response's value when present and keeps the editor's value when missing; a missing or empty title becomes "Untitled"; the thumbnail link is the editor's |
| Editor.StepProgress | frontend/src/components/EditResume.jsx:387 | `Math.round((index / (pages.length - 1)) * 100)` for the eight pages |
| Editor.StepProgressValues | frontend/src/components/EditResume.jsx:387 | the progress at pages 0 to 7 is 0, 14, 29, 43, 57, 71, 86, 100 |
| Editor.ResumeEditor.constructor | frontend/src/components/EditResume.jsx:48-137 | the editor starts on the profile page with progress 0, no error, no preview, the initial draft and completion 0, which is that draft's score |
| Editor.ResumeEditor.CalculateCompletion | frontend/src/components/EditResume.jsx:141-289 | stores and returns the score of the draft, in [0,100], and changes nothing else |
| Editor.ResumeEditor.GoToNextStep | frontend/src/components/EditResume.jsx:368-391 | moves to the next page with its progress; on the last page opens the preview and stays; the draft, its completion and the error line are unchanged |
| Editor.ResumeEditor.GoBack | frontend/src/components/EditResume.jsx:393-416 | moves to the previous page with its progress; on the first page leaves for the dashboard and stays |
| Editor.ResumeEditor.ValidateAndNext | frontend/src/components/EditResume.jsx:291-366 | with messages, shows them joined by ", " and stays; without, clears the error and steps on |
| Editor.ResumeEditor.SetResumeData | frontend/src/components/EditResume.jsx:287-289 | a new draft is stored and rescored; the page and signals are unchanged |
| Editor.ResumeEditor.UpdateSection | frontend/src/components/EditResume.jsx:513-521 | the draft becomes `UpdateInfo` of the old one and its completion is rescored |
| Editor.ResumeEditor.UpdateArrayItem | frontend/src/components/EditResume.jsx:523-541 | the draft becomes `UpdateItem` of the old one and its completion is rescored |
| Editor.ResumeEditor.AddArrayItem | frontend/src/components/EditResume.jsx:543-548 | the draft becomes `AddItem` of the old one and its completion is rescored |
| Editor.ResumeEditor.RemoveArrayItem | frontend/src/components/EditResume.jsx:550-559 | the draft becomes `RemoveItem` of the old one and its completion is rescored |
| Editor.ResumeEditor.FetchResumeDetailsById | frontend/src/components/EditResume.jsx:562-588 | a response with a profile is merged into the draft; any other response changes nothing |
| Editor.ResumeEditor.UpdateResumeDetails | frontend/src/components/EditResume.jsx:641-710 | the payload is `SavePayload` of the draft; its completion is the draft's score whenever the screen shows it; the saved resume scores no lower than the draft; saving the payload's resume again gives the same payload |
| Dashboard.WithCompletion | frontend/src/pages/Dashboard.jsx:176-179 | same length and order as the fetched list; each record unchanged with its score beside it, in [0,100] |
| Dashboard.ScoresWithin | frontend/src/pages/Dashboard.jsx:165 | every fetched record scores in [0,100] |
| ResumeStore.NewResume | backend/controllers/resumeController.js:14-47 | the record `createResume` writes: the given title, an empty theme, " " placeholders for full name, designation and email, every other text empty and every list empty |
| ResumeStore.NewResumeScoresZero | backend/controllers/resumeController.js:18-46 | the " " placeholders count as blank: a new resume scores 0 |
| ResumeStore.NewResumeFailsProfilePage | backend/controllers/resumeController.js:24-29 | the editor's profile page rejects the placeholders of a new resume, with all three messages |
| ResumeStore.Merged | backend/controllers/resumeController.js:109-128 | the reference merge: each of the twelve whitelisted fields the body defines replaces the record's, every other field is kept |
| ResumeStore.AssignOneMore | backend/controllers/resumeController.js:124-128 | assigning one more field extends the field-by-field merge by that field |
| ResumeStore.AssignedIsOverwritten | backend/controllers/resumeController.js:124-128 | visiting fields in order gives: a listed field defined in the body takes its value; every other field is kept |
| ResumeStore.AssignedAllIsMerged | backend/controllers/resumeController.js:109-128 | the `forEach` over the whitelist is the merge of the body into the record |
| ResumeStore.MergeIdempotent | backend/controllers/resumeController.js:124-128 | applying the same body twice equals applying it once |
| ResumeStore.EmptyBodyKeepsRecord | backend/controllers/resumeController.js:124-128 | a body that defines none of the twelve fields changes nothing |
| ResumeStore.FullBodyReplacesRecord | backend/controllers/resumeController.js:109-128 | a body defining all twelve fields, like the editor's save, replaces the document |
| ResumeStore.UndefinedFieldKept | backend/controllers/resumeController.js:125 | an undefined title or profile keeps the stored value |
| ResumeStore.Store.CreateResume | backend/controllers/resumeController.js:8-49 | a missing or empty title gives 400 and writes nothing; otherwise 201 and the new record under a fresh id, owned by the user |
| ResumeStore.Store.GetResumeById | backend/controllers/resumeController.js:77-86 | 200 with the record when the user owns it, 404 otherwise |
| ResumeStore.Store.UpdateResume | backend/controllers/resumeController.js:98-131 | 404 and no change unless the user owns the record; otherwise 200 and the record becomes the merge, same owner, other records unchanged |
| ResumeStore.Store.DeleteResume | backend/controllers/resumeController.js:143-174 | 404 and no change unless the user owns the record; otherwise that record alone is removed |

## Left out

- Network and browser I/O are not modelled: axios calls, toasts, navigation,
  `window.scrollTo`, the PDF and thumbnail export, and image upload. A fetched
  response is a parameter of `FetchResumeDetailsById`. `UpdateResumeDetails`
  returns the payload instead of sending it.
- React's asynchronous state batching is not modelled. Each `setX` is an
  immediate field assignment. The effect that rescores the draft is applied at
  the end of every draft change. Navigating to the dashboard is the
  `leftToDashboard` flag.
- JavaScript floating point: the score is computed on exact rationals. A
  float sum could round differently only when it is within rounding error of
  a half.
- `Completion.Round` models `Math.round` as the floor of x + 0.5. This is
  exact for the non-negative sums that arise.
- Sub-fields that are `undefined` or `null`, and non-string values where
  strings are expected, are not modelled. Every entry has all its sub-fields,
  with the types the forms produce. Top-level sections may be missing.
- DraftEdits.UpdateItem: requires an index inside the section and a key and
  value of the entry's type. The forms always call it that way. An
  out-of-range index or a foreign key, which would grow the array or add a
  property, is not modelled.
- Editor.ResumeEditor.UpdateArrayItem: inherits the requirement of
  `DraftEdits.UpdateItem` (an index inside the section and a key and value of
  the entry's type), for the same reason; the forms always call it that way.
- Editor.ResumeEditor.AddArrayItem: requires the new entry to be of the
  section's kind, which every form passes.
- Validation.PageIndex: the `currentIndex !== -1` guard is unreachable,
  because `currentPage` is always one of the eight pages.
- Mongoose schema behaviour is not modelled, because the schema is
  declarations only:
  - `trim` on the title;
  - `required`, `min` and `max` validation on save;
  - `_id` generation, which is a counter here;
  - timestamps.
  A whitespace-only title passes the controller's check but would fail schema
  validation.
- `null` in an update body is not modelled. A field is either defined or
  undefined.
- The 500 answers on database errors are not modelled.
- `getUserResumes` (listing and sorting by `updatedAt`) is not modelled. The
  dashboard receives the fetched list as a parameter.
- Deleting the thumbnail and profile image files in `deleteResume`
  (resumeController.js:154-170) is not modelled; it is file-system I/O.
- Authentication is not modelled. The signed-in user is a parameter of each
  store operation.
- The step validators are modelled as written. The additional-information
  page checks only the first language and the first interest, while the
  scorer accepts any of them (`ValidationFacts.LaterLanguageIgnored`).
