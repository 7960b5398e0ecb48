/**
 * The mood check-in form: a five-option scale, a free-text note, and a submit button
 * that fires the parent's callback only when a mood is selected.
 */
module MoodSelector {
  import opened Wrappers

  /** One button of the scale (its Tailwind colour class is presentation and left out). */
  datatype MoodOption = MoodOption(emoji: string, labelText: string, value: int)

  /** The options in the order the buttons are laid out. */
  const MoodOptions: seq<MoodOption> := [
    MoodOption("\U{1F604}", "Great", 5),
    MoodOption("\U{1F60A}", "Good", 4),
    MoodOption("\U{1F610}", "Okay", 3),
    MoodOption("\U{1F614}", "Down", 2),
    MoodOption("\U{1F622}", "Sad", 1)
  ]

  /** The values a button can select. */
  function OptionValues(): set<int>
  {
    set k | 0 <= k < |MoodOptions| :: MoodOptions[k].value
  }

  /** The table offers five distinct values, exactly 1..5. */
  lemma OptionTable()
    ensures |MoodOptions| == 5
    ensures forall j, k :: 0 <= j < k < |MoodOptions| ==> MoodOptions[j].value != MoodOptions[k].value
    ensures OptionValues() == {1, 2, 3, 4, 5}
  {
    assert MoodOptions[4].value == 1 && MoodOptions[3].value == 2 && MoodOptions[2].value == 3;
    assert MoodOptions[1].value == 4 && MoodOptions[0].value == 5;
  }

  /** The arguments handed to `onMoodSubmit`. */
  datatype Submission = Submission(mood: int, note: string)

  class Selector {
    var selectedMood: Option<int>
    var note: string

    /** A selected mood is always one the buttons offer. */
    predicate Valid()
      reads this
    {
      selectedMood.Some? ==> selectedMood.value in OptionValues()
    }

    /** The `disabled` condition of the submit button. */
    predicate SubmitDisabled()
      reads this
    {
      selectedMood == None
    }

    constructor ()
      ensures Valid()
      ensures selectedMood == None && note == ""
    {
      selectedMood := None;
      note := "";
    }

    /** Clicking the k-th button selects its value. */
    method Select(k: nat)
      requires k < |MoodOptions|
      modifies this
      ensures Valid()
      ensures selectedMood == Some(MoodOptions[k].value) && note == old(note)
    {
      selectedMood := Some(MoodOptions[k].value);
    }

    /** Typing in the note field. */
    method SetNote(text: string)
      modifies this
      ensures note == text && selectedMood == old(selectedMood)
    {
      note := text;
    }

    /**
     * `handleSubmit`: with no mood selected nothing is emitted and nothing changes;
     * otherwise the selected mood and the note are emitted once and the form resets.
     * It emits exactly when the button is enabled.
     */
    method HandleSubmit() returns (submitted: Option<Submission>)
      modifies this
      ensures submitted == None <==> old(SubmitDisabled())
      ensures old(selectedMood) == None ==> selectedMood == None && note == old(note)
      ensures old(selectedMood).Some? ==>
                && submitted == Some(Submission(old(selectedMood).value, old(note)))
                && selectedMood == None && note == ""
      ensures Valid()
    {
      if selectedMood != None {
        submitted := Some(Submission(selectedMood.value, note));
        selectedMood := None;
        note := "";
      } else {
        submitted := None;
      }
    }
  }
}
