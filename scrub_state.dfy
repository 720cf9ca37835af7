/** The verdict `deep_scrub` and `repair` read from a placement group's state
    string once per poll (tasks/scrub_test.py:71-108). Issuing the scrub, the
    sleeps and the re-polling are left out. */
module ScrubState {
  import opened PyStrings

  const Scrubbing: string := "scrubbing"
  const InconsistentFlag: string := "+inconsistent"

  /** What one poll concludes from the state string. */
  datatype Poll = StillScrubbing | Finished(inconsistent: bool)

  /** A state that still contains `scrubbing` is waited on; otherwise the
      placement group is inconsistent exactly when `+inconsistent` occurs. */
  function ReadState(state: string): (p: Poll)
    ensures p.StillScrubbing? <==> exists i :: 0 <= i <= |state| && OccursAt(state, Scrubbing, i)
    ensures p.Finished? ==> (p.inconsistent <==> exists i :: 0 <= i <= |state| && OccursAt(state, InconsistentFlag, i))
  {
    if Contains(state, Scrubbing) then StillScrubbing
    else Finished(Find(state, InconsistentFlag) != -1)
  }

  /** What a poll means for the test step that waits on it. */
  datatype StepOutcome = KeepWaiting | Passed | AssertionFailed

  /** `deep_scrub` expects the finished scrub to have found the corruption. */
  function DeepScrubPoll(state: string): StepOutcome {
    match ReadState(state)
    case StillScrubbing => KeepWaiting
    case Finished(inconsistent) => if inconsistent then Passed else AssertionFailed
  }

  /** `repair` expects the finished repair to have cleared the inconsistency. */
  function RepairPoll(state: string): StepOutcome {
    match ReadState(state)
    case StillScrubbing => KeepWaiting
    case Finished(inconsistent) => if inconsistent then AssertionFailed else Passed
  }

  /** On every state both steps either keep waiting together, or exactly one
      of them passes: no finished state satisfies both `deep_scrub` and
      `repair`, and none fails both. */
  lemma DeepScrubAndRepairDisagree(state: string)
    ensures DeepScrubPoll(state) == KeepWaiting <==> RepairPoll(state) == KeepWaiting
    ensures DeepScrubPoll(state) != KeepWaiting ==> (DeepScrubPoll(state) == Passed <==> RepairPoll(state) == AssertionFailed)
    ensures DeepScrubPoll(state) == Passed <==> !Contains(state, Scrubbing) && Contains(state, InconsistentFlag)
    ensures RepairPoll(state) == Passed <==> !Contains(state, Scrubbing) && !Contains(state, InconsistentFlag)
  {
  }

  /** A deep scrub in progress is waited on. */
  lemma ScrubbingStateExample()
    ensures ReadState("active+clean+scrubbing+deep") == StillScrubbing
  {
    assert OccursAt("active+clean+scrubbing+deep", Scrubbing, 13);
  }

  /** A finished scrub that found a bad replica. */
  lemma InconsistentStateExample()
    ensures ReadState("active+clean+inconsistent") == Finished(true)
  {
    var s := "active+clean+inconsistent";
    assert s[12..25] == InconsistentFlag;
    assert OccursAt(s, InconsistentFlag, 12);
    MissingCharNoOccurrence(s, Scrubbing, 4);
  }

  /** The flag needs its leading `+`: a bare `inconsistent` does not count. */
  lemma BareFlagExample()
    ensures ReadState("inconsistent") == Finished(false)
  {
    MissingCharNoOccurrence("inconsistent", Scrubbing, 4);
    MissingCharNoOccurrence("inconsistent", InconsistentFlag, 0);
  }
}
