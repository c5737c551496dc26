/** The dashboard's list of resumes, each shown with its completion. The
    dashboard scores with the same function as the editor (the two copies of
    `calculateCompletion` have identical bodies), so `Completion.Score` serves
    both. */
module Dashboard {
  import opened ResumeTypes
  import opened Seqs
  import Completion
  import CompletionFacts

  /** `{ ...resume, completion }`: the fetched record with its score beside it. */
  datatype ScoredResume = ScoredResume(resume: Document, completion: int)

  function Scored(resume: Document): ScoredResume {
    ScoredResume(resume, Completion.Score(resume))
  }

  /** The list `fetchAllResumes` stores: every fetched record, in order, with
      a completion between 0 and 100 that is the score of that record. */
  function WithCompletion(fetched: seq<Document>): (r: seq<ScoredResume>)
    ensures |r| == |fetched|
    ensures forall k | 0 <= k < |r| :: r[k].resume == fetched[k]
    ensures forall k | 0 <= k < |r| :: r[k].completion == Completion.Score(fetched[k])
    ensures forall k | 0 <= k < |r| :: 0 <= r[k].completion <= 100
  {
    ScoresWithin(fetched);
    Map(fetched, Scored)
  }

  lemma ScoresWithin(fetched: seq<Document>)
    ensures forall k | 0 <= k < |fetched| :: 0 <= Completion.Score(fetched[k]) <= 100
  {
    forall k | 0 <= k < |fetched|
      ensures 0 <= Completion.Score(fetched[k]) <= 100
    {
      CompletionFacts.RawScoreWithin(fetched[k]);
    }
  }
}
