/** The resume editor's state: the wizard page, its progress bar, the error
    line, the preview and exit signals, the draft and its completion. Each
    `setX` of the source is an assignment to the field of the same name. */
module Editor {
  import opened ResumeTypes
  import opened Text
  import opened Validation
  import opened DraftEdits
  import Completion
  import CompletionFacts
  import DraftFacts

  /** `Math.round((index / (pages.length - 1)) * 100)` */
  function StepProgress(index: nat): int {
    Completion.Round((index as real / (|Pages| - 1) as real) * 100.0)
  }

  /** The progress bar at each of the eight pages. */
  lemma StepProgressValues()
    ensures StepProgress(0) == 0 && StepProgress(1) == 14 && StepProgress(2) == 29
    ensures StepProgress(3) == 43 && StepProgress(4) == 57 && StepProgress(5) == 71
    ensures StepProgress(6) == 86 && StepProgress(7) == 100
  {
  }

  class ResumeEditor {
    var currentPage: Page
    var progress: int
    var errorMsg: string
    var openPreviewModal: bool
    var leftToDashboard: bool
    var resumeData: Draft
    var completionPercentage: int

    /** The progress bar matches the page. */
    ghost predicate Valid()
      reads this
    {
      progress == StepProgress(PageIndex(currentPage))
    }

    /** The completion shown is the score of the draft: the effect that runs
        `calculateCompletion` whenever `resumeData` changes has run. */
    ghost predicate CompletionShown()
      reads this
    {
      completionPercentage == Completion.Score(ToDocument(resumeData))
    }

    /** The initial state: first page, nothing shown, the blank draft. */
    constructor()
      ensures Valid() && CompletionShown()
      ensures currentPage == ProfileInfoPage && progress == 0 && errorMsg == ""
      ensures !openPreviewModal && !leftToDashboard
      ensures resumeData == InitialDraft && completionPercentage == 0
    {
      currentPage := ProfileInfoPage;
      progress := 0;
      errorMsg := "";
      openPreviewModal := false;
      leftToDashboard := false;
      resumeData := InitialDraft;
      completionPercentage := 0;
      assert Completion.Score(ToDocument(InitialDraft)) == 0 by {
        CompletionFacts.InitialDraftScoresZero();
      }
    }

    /** `calculateCompletion()`: scores the draft, stores and returns the percentage. */
    method CalculateCompletion() returns (percentage: int)
      modifies this
      ensures percentage == Completion.Score(ToDocument(resumeData)) && 0 <= percentage <= 100
      ensures completionPercentage == percentage && CompletionShown()
      ensures currentPage == old(currentPage) && progress == old(progress) && errorMsg == old(errorMsg)
      ensures openPreviewModal == old(openPreviewModal) && leftToDashboard == old(leftToDashboard)
      ensures resumeData == old(resumeData)
    {
      percentage := Completion.CalculateCompletion(ToDocument(resumeData));
      assert 0 <= percentage <= 100 by {
        CompletionFacts.RawScoreWithin(ToDocument(resumeData));
      }
      completionPercentage := percentage;
    }

    /** `goToNextStep()`: one page on, with its progress; on the last page the
        preview opens instead and the page stays. */
    method GoToNextStep()
      requires Valid()
      modifies this
      ensures Valid()
      ensures var i := PageIndex(old(currentPage));
              if i < |Pages| - 1 then
                currentPage == Pages[i + 1] && progress == StepProgress(i + 1)
                && openPreviewModal == old(openPreviewModal)
              else
                currentPage == old(currentPage) && progress == old(progress) && openPreviewModal
      ensures errorMsg == old(errorMsg) && leftToDashboard == old(leftToDashboard)
      ensures resumeData == old(resumeData) && completionPercentage == old(completionPercentage)
    {
      if currentPage == AdditionalInfoPage {
        openPreviewModal := true;
      }
      var currentIndex := PageIndex(currentPage);
      if currentIndex < |Pages| - 1 {
        var nextIndex := currentIndex + 1;
        currentPage := Pages[nextIndex];
        PageIndexOfPages(nextIndex);
        progress := StepProgress(nextIndex);
      }
    }

    /** `goBack()`: one page back, with its progress; on the first page the
        editor leaves for the dashboard instead and the page stays. */
    method GoBack()
      requires Valid()
      modifies this
      ensures Valid()
      ensures var i := PageIndex(old(currentPage));
              if i > 0 then
                currentPage == Pages[i - 1] && progress == StepProgress(i - 1)
                && leftToDashboard == old(leftToDashboard)
              else
                currentPage == old(currentPage) && progress == old(progress) && leftToDashboard
      ensures errorMsg == old(errorMsg) && openPreviewModal == old(openPreviewModal)
      ensures resumeData == old(resumeData) && completionPercentage == old(completionPercentage)
    {
      if currentPage == ProfileInfoPage {
        leftToDashboard := true;
      }
      var currentIndex := PageIndex(currentPage);
      if currentIndex > 0 {
        var prevIndex := currentIndex - 1;
        currentPage := Pages[prevIndex];
        PageIndexOfPages(prevIndex);
        progress := StepProgress(prevIndex);
      }
    }

    /** `validateAndNext()`: with any violation on the page, show them all
        joined by ", " and stay; otherwise clear the error line and step on. */
    method ValidateAndNext()
      requires Valid()
      modifies this
      ensures Valid()
      ensures var errors, i := PageErrors(old(currentPage), old(resumeData)), PageIndex(old(currentPage));
              if errors != [] then
                && errorMsg == Join(errors, ", ")
                && currentPage == old(currentPage) && progress == old(progress)
                && openPreviewModal == old(openPreviewModal)
              else
                && errorMsg == ""
                && (i < |Pages| - 1 ==> currentPage == Pages[i + 1] && progress == StepProgress(i + 1)
                                        && openPreviewModal == old(openPreviewModal))
                && (i == |Pages| - 1 ==> currentPage == old(currentPage) && progress == old(progress)
                                         && openPreviewModal)
      ensures leftToDashboard == old(leftToDashboard)
      ensures resumeData == old(resumeData) && completionPercentage == old(completionPercentage)
    {
      var errors := CollectErrors(currentPage, resumeData);
      if |errors| > 0 {
        errorMsg := Join(errors, ", ");
        return;
      }
      errorMsg := "";
      GoToNextStep();
    }

    /** Stores a new draft and runs the effect that rescores it. */
    method SetResumeData(d: Draft)
      requires Valid()
      modifies this
      ensures Valid() && CompletionShown() && resumeData == d
      ensures currentPage == old(currentPage) && progress == old(progress) && errorMsg == old(errorMsg)
      ensures openPreviewModal == old(openPreviewModal) && leftToDashboard == old(leftToDashboard)
    {
      resumeData := d;
      var _ := CalculateCompletion();
    }

    /** `updateSection(section, key, value)` on the profile or contact form. */
    method UpdateSection(f: InfoField, value: string)
      requires Valid()
      modifies this
      ensures Valid() && CompletionShown() && resumeData == UpdateInfo(old(resumeData), f, value)
      ensures currentPage == old(currentPage) && progress == old(progress) && errorMsg == old(errorMsg)
      ensures openPreviewModal == old(openPreviewModal) && leftToDashboard == old(leftToDashboard)
    {
      SetResumeData(UpdateInfo(resumeData, f, value));
    }

    /** `updateArrayItem(section, index, key, value)` */
    method UpdateArrayItem(sec: Section, index: nat, key: Option<Key>, value: Value)
      requires Valid() && CanUpdate(resumeData, sec, index, key, value)
      modifies this
      ensures Valid() && CompletionShown() && resumeData == UpdateItem(old(resumeData), sec, index, key, value)
      ensures currentPage == old(currentPage) && progress == old(progress) && errorMsg == old(errorMsg)
      ensures openPreviewModal == old(openPreviewModal) && leftToDashboard == old(leftToDashboard)
    {
      SetResumeData(UpdateItem(resumeData, sec, index, key, value));
    }

    /** `addArrayItem(section, newItem)` */
    method AddArrayItem(sec: Section, newItem: Item)
      requires Valid() && Fits(sec, newItem)
      modifies this
      ensures Valid() && CompletionShown() && resumeData == AddItem(old(resumeData), sec, newItem)
      ensures currentPage == old(currentPage) && progress == old(progress) && errorMsg == old(errorMsg)
      ensures openPreviewModal == old(openPreviewModal) && leftToDashboard == old(leftToDashboard)
    {
      SetResumeData(AddItem(resumeData, sec, newItem));
    }

    /** `removeArrayItem(section, index)` */
    method RemoveArrayItem(sec: Section, index: int)
      requires Valid()
      modifies this
      ensures Valid() && CompletionShown() && resumeData == RemoveItem(old(resumeData), sec, index)
      ensures currentPage == old(currentPage) && progress == old(progress) && errorMsg == old(errorMsg)
      ensures openPreviewModal == old(openPreviewModal) && leftToDashboard == old(leftToDashboard)
    {
      SetResumeData(RemoveItem(resumeData, sec, index));
    }

    /** `fetchResumeDetailsById()` given what the request answered (`None` for
        an empty body): a response with a profile is merged into the draft,
        anything else leaves the editor as it is. */
    method FetchResumeDetailsById(response: Option<Document>)
      requires Valid()
      modifies this
      ensures Valid()
      ensures if response.Some? && response.value.profileInfo.Some?
              then resumeData == Hydrated(old(resumeData), response.value) && CompletionShown()
              else resumeData == old(resumeData) && completionPercentage == old(completionPercentage)
      ensures currentPage == old(currentPage) && progress == old(progress) && errorMsg == old(errorMsg)
      ensures openPreviewModal == old(openPreviewModal) && leftToDashboard == old(leftToDashboard)
    {
      if response.Some? && response.value.profileInfo.Some? {
        SetResumeData(Hydrated(resumeData, response.value));
      }
    }

    /** The payload `updateResumeDetails(thumbnailLink)` sends; sending it is
        not part of this model. It carries the completion on screen, which is
        the draft's score; the saved resume scores no lower than the draft;
        and saving what was saved sends the same payload again. */
    method UpdateResumeDetails(thumbnailLink: Option<string>) returns (payload: Payload)
      ensures payload == SavePayload(resumeData, thumbnailLink, completionPercentage)
      ensures CompletionShown() ==> payload.completion == Completion.Score(ToDocument(resumeData))
      ensures Completion.Score(ToDocument(resumeData)) <= Completion.Score(ToDocument(payload.resume))
      ensures SavePayload(payload.resume, thumbnailLink, payload.completion) == payload
    {
      payload := SavePayload(resumeData, thumbnailLink, completionPercentage);
      DraftFacts.SaveNeverLowersScore(resumeData, thumbnailLink, completionPercentage);
      DraftFacts.SaveIdempotent(resumeData, thumbnailLink, completionPercentage);
    }
  }
}
