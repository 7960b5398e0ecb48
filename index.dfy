/**
 * The page's session state: a mood history capped at ten entries, newest first, an
 * unbounded journal list, newest first, and whether the check-in form is shown. The
 * analytics view receives the stored history unchanged.
 */
module Index {
  import opened Wrappers
  import opened JsArray
  import opened MoodAnalytics
  import MoodSelector
  import JournalEntry

  /** How many mood entries the history keeps. */
  const MoodHistoryCap: nat := 10

  /** How many check-ins the "Recent Check-ins" grid shows. */
  const RecentCheckInsShown: nat := 6

  /**
   * `[newMood, ...recentMoods.slice(0, 9)]`: the new entry first, then the first
   * min(n, 9) old entries in their order, so at most ten and only the old tail dropped.
   */
  function CappedPrepend(e: MoodEntry, s: seq<MoodEntry>): (r: seq<MoodEntry>)
    ensures |r| == Min(|s| + 1, MoodHistoryCap)
    ensures r[0] == e
    ensures r[1..] == s[..Min(|s|, MoodHistoryCap - 1)]
  {
    SliceFirst(s, 9);
    [e] + Slice(s, 0, 9)
  }

  /** Prepending an entry on the scale keeps the whole history on the scale. */
  lemma CappedPrependOnScale(e: MoodEntry, s: seq<MoodEntry>)
    requires ValidMood(e.mood) && AllValid(s)
    ensures AllValid(CappedPrepend(e, s))
  {
    var r := CappedPrepend(e, s);
    forall i | 1 <= i < |r| ensures ValidMood(r[i].mood) {
      assert r[i] == r[1..][i - 1];
    }
  }

  /** With the history capped at ten, `slice(-14, -7)` never holds more than three entries. */
  lemma LastWeekOfCappedHistory(s: seq<MoodEntry>)
    requires |s| <= MoodHistoryCap
    ensures |LastWeek(s)| <= 3
  {
    SliceBetweenFromEnd(s, 14, 7);
  }

  /** s in the opposite order. */
  function Reverse<T>(s: seq<T>): (r: seq<T>)
    ensures |r| == |s|
    ensures forall i :: 0 <= i < |s| ==> r[i] == s[|s| - 1 - i]
  {
    if s == [] then [] else Reverse(s[1..]) + [s[0]]
  }

  /**
   * As written: the history is newest first and the trend takes the end of the list,
   * so once eight check-ins are stored the newest one is not on the trend line.
   */
  lemma NewestCheckInMissingFromTrend()
    ensures var older := seq(7, _ => MoodEntry(1, "", "earlier"));
            var h := CappedPrepend(MoodEntry(5, "", "today"), older);
            h[0].mood == 5 && forall i :: 0 <= i < |TrendData(h)| ==> TrendData(h)[i].mood == 1
  {
    var older := seq(7, _ => MoodEntry(1, "", "earlier"));
    var h := CappedPrepend(MoodEntry(5, "", "today"), older);
    assert |h| == 8;
    forall i | 0 <= i < |TrendData(h)| ensures TrendData(h)[i].mood == 1 {
      assert h[1 + i] == h[1..][i];
    }
  }

  /**
   * Corrected: read in chronological order, the trend ends with the newest check-in
   * and lists the most recent min(7, n) check-ins oldest first.
   */
  lemma ChronologicalTrendEndsWithNewest(h: seq<MoodEntry>)
    requires h != []
    ensures var t := TrendData(Reverse(h));
            && |t| == Min(7, |h|)
            && t[|t| - 1].mood == h[0].mood
            && forall i :: 0 <= i < |t| ==> t[i].mood == h[|t| - 1 - i].mood
  {
  }

  class Session {
    var showMoodSelector: bool
    var recentMoods: seq<MoodEntry>
    var journalEntries: seq<JournalEntry.JournalRecord>

    /** The history never exceeds the cap. */
    predicate Valid()
      reads this
    {
      |recentMoods| <= MoodHistoryCap
    }

    constructor ()
      ensures Valid()
      ensures !showMoodSelector && recentMoods == [] && journalEntries == []
    {
      showMoodSelector := false;
      recentMoods := [];
      journalEntries := [];
    }

    /** The "Start Your Daily Check-in" style buttons show the check-in form. */
    method OpenMoodSelector()
      requires Valid()
      modifies this
      ensures Valid()
      ensures showMoodSelector
      ensures recentMoods == old(recentMoods) && journalEntries == old(journalEntries)
    {
      showMoodSelector := true;
    }

    /**
     * `handleMoodSubmit`, with the creation date as a parameter: the new entry goes first,
     * the history is capped, the form is hidden, the journal is untouched.
     */
    method HandleMoodSubmit(mood: int, note: string, date: string)
      modifies this
      ensures recentMoods == CappedPrepend(MoodEntry(mood, note, date), old(recentMoods))
      ensures recentMoods[0] == MoodEntry(mood, note, date)
      ensures |recentMoods| == Min(|old(recentMoods)| + 1, MoodHistoryCap)
      ensures recentMoods[1..] == old(recentMoods)[..Min(|old(recentMoods)|, MoodHistoryCap - 1)]
      ensures Valid()
      ensures !showMoodSelector
      ensures journalEntries == old(journalEntries)
    {
      recentMoods := CappedPrepend(MoodEntry(mood, note, date), recentMoods);
      showMoodSelector := false;
    }

    /**
     * `handleAddJournalEntry`, with the generated id as a parameter: the new record goes
     * first and the old records follow unchanged.
     */
    method HandleAddJournalEntry(entry: JournalEntry.NewEntry, id: string)
      requires Valid()
      modifies this
      ensures Valid()
      ensures journalEntries == [JournalEntry.JournalRecord(id, entry.title, entry.content, entry.date)] + old(journalEntries)
      ensures |journalEntries| == |old(journalEntries)| + 1
      ensures forall i :: 0 <= i < |old(journalEntries)| ==> journalEntries[i + 1] == old(journalEntries)[i]
      ensures recentMoods == old(recentMoods) && showMoodSelector == old(showMoodSelector)
    {
      journalEntries := [JournalEntry.JournalRecord(id, entry.title, entry.content, entry.date)] + journalEntries;
    }

    /** `recentMoods.slice(0, 6)`: the first min(n, 6) stored check-ins, newest first. */
    function RecentCheckIns(): (r: seq<MoodEntry>)
      reads this
      ensures r == recentMoods[..Min(|recentMoods|, RecentCheckInsShown)]
    {
      SliceFirst(recentMoods, 6);
      Slice(recentMoods, 0, 6)
    }

    /**
     * What the analytics tab shows: the snapshot of the stored history, as stored. With the
     * history capped, the "Last Week" window never holds more than three entries.
     */
    function AnalyticsView(): (r: Option<Snapshot>)
      reads this
      ensures r == Analytics(recentMoods)
      ensures r == None <==> recentMoods == []
      ensures r.Some? ==> r.value.totalEntries == |recentMoods| && r.value.trendData == TrendData(recentMoods)
      ensures Valid() ==> |LastWeek(recentMoods)| <= 3
    {
      if Valid() then
        LastWeekOfCappedHistory(recentMoods);
        Analytics(recentMoods)
      else
        Analytics(recentMoods)
    }

    /** The snapshot of the history in chronological order, as the trend's labels intend. */
    function ChronologicalAnalyticsView(): (r: Option<Snapshot>)
      reads this
      ensures r == None <==> recentMoods == []
      ensures r.Some? ==> r.value.totalEntries == |recentMoods| && r.value.trendData == TrendData(Reverse(recentMoods))
    {
      Analytics(Reverse(recentMoods))
    }

    /**
     * The check-in form wired to `handleMoodSubmit`: a submit with no mood changes nothing
     * here; otherwise the selected mood and note are recorded. Either way a history on the
     * scale stays on the scale, since the form only offers values 1..5.
     */
    method SubmitCheckIn(selector: MoodSelector.Selector, date: string)
      requires Valid() && selector.Valid()
      modifies this, selector
      ensures Valid() && selector.Valid() && selector.selectedMood == None
      ensures old(selector.selectedMood) == None ==> selector.note == old(selector.note)
      ensures old(selector.selectedMood).Some? ==> selector.note == ""
      ensures old(selector.selectedMood) == None ==>
                recentMoods == old(recentMoods) && showMoodSelector == old(showMoodSelector)
      ensures old(selector.selectedMood).Some? ==>
                && recentMoods == CappedPrepend(MoodEntry(old(selector.selectedMood).value, old(selector.note), date), old(recentMoods))
                && !showMoodSelector
      ensures journalEntries == old(journalEntries)
      ensures old(AllValid(recentMoods)) ==> AllValid(recentMoods)
    {
      var submitted := selector.HandleSubmit();
      if submitted.Some? {
        MoodSelector.OptionTable();
        ghost var before := recentMoods;
        HandleMoodSubmit(submitted.value.mood, submitted.value.note, date);
        if AllValid(before) {
          CappedPrependOnScale(MoodEntry(submitted.value.mood, submitted.value.note, date), before);
        }
      }
    }

    /**
     * The journal editor wired to `handleAddJournalEntry`: the journal grows by one,
     * holding the trimmed title and content, exactly when both fields are non-blank.
     */
    method SaveJournalEntry(editor: JournalEntry.Editor, date: string, id: string)
      requires Valid()
      modifies this, editor
      ensures Valid()
      ensures !JournalEntry.CanSave(old(editor.title), old(editor.content)) ==>
                editor.title == old(editor.title) && editor.content == old(editor.content) && editor.isWriting == old(editor.isWriting)
      ensures JournalEntry.CanSave(old(editor.title), old(editor.content)) ==>
                editor.title == "" && editor.content == "" && !editor.isWriting
      ensures !JournalEntry.CanSave(old(editor.title), old(editor.content)) ==> journalEntries == old(journalEntries)
      ensures JournalEntry.CanSave(old(editor.title), old(editor.content)) ==>
                var e := JournalEntry.SavedEntry(old(editor.title), old(editor.content), date);
                journalEntries == [JournalEntry.JournalRecord(id, e.title, e.content, date)] + old(journalEntries)
      ensures recentMoods == old(recentMoods) && showMoodSelector == old(showMoodSelector)
    {
      var added := editor.HandleSaveEntry(date);
      if added.Some? {
        HandleAddJournalEntry(added.value, id);
      }
    }
  }
}
