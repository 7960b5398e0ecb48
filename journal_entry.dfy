/**
 * The journal editor: a title and a content field behind a "write" toggle. Saving
 * trims both fields, refuses when either is blank, and otherwise hands the trimmed
 * entry to the parent and resets the form.
 */
module JournalEntry {
  import opened Wrappers
  import opened JsArray
  import opened JsString

  /** A stored journal entry; the record's optional mood is never set by any caller, so it is not modelled. */
  datatype JournalRecord = JournalRecord(id: string, title: string, content: string, date: string)

  /** The entry handed to `onAddEntry`: a record without its id. */
  datatype NewEntry = NewEntry(title: string, content: string, date: string)

  /** The guard of `handleSaveEntry`: both fields are non-empty once trimmed. */
  predicate CanSave(title: string, content: string)
  {
    Trim(title) != "" && Trim(content) != ""
  }

  /** Saving is possible exactly when each field has a character that is not whitespace. */
  lemma CanSaveIffNotBlank(title: string, content: string)
    ensures CanSave(title, content) <==> !AllWhitespace(title) && !AllWhitespace(content)
  {
    TrimEmptyIffBlank(title);
    TrimEmptyIffBlank(content);
  }

  /** The entry emitted on a save: the trims of the two fields, both non-empty, without surrounding whitespace, and fixed by trim. */
  function SavedEntry(title: string, content: string, date: string): (e: NewEntry)
    requires CanSave(title, content)
    ensures e.title == Trim(title) && e.content == Trim(content) && e.date == date
    ensures e.title != "" && e.content != ""
    ensures Trimmed(e.title) && Trimmed(e.content)
    ensures Trim(e.title) == e.title && Trim(e.content) == e.content
  {
    TrimOfTrimmed(Trim(title));
    TrimOfTrimmed(Trim(content));
    NewEntry(Trim(title), Trim(content), date)
  }

  /**
   * What a save hands to `onAddEntry`: nothing when a trimmed field is empty,
   * otherwise the trimmed entry.
   */
  function SaveOutcome(title: string, content: string, date: string): (r: Option<NewEntry>)
    ensures r == None <==> !CanSave(title, content)
    ensures r.Some? ==> CanSave(title, content) && r.value == SavedEntry(title, content, date)
  {
    if CanSave(title, content) then Some(SavedEntry(title, content, date)) else None
  }

  /** `entries.slice(0, 6)`: the first min(n, 6) entries, in order. */
  function VisibleEntries(entries: seq<JournalRecord>): (r: seq<JournalRecord>)
    ensures r == entries[..Min(6, |entries|)]
  {
    SliceFirst(entries, 6);
    Slice(entries, 0, 6)
  }

  /** `entries.length > 6`: the "View All" button. */
  predicate ShowsViewAll(entries: seq<JournalRecord>)
  {
    |entries| > 6
  }

  /** "View All" appears exactly when the list view hides some entries. */
  lemma ViewAllIffHidden(entries: seq<JournalRecord>)
    ensures ShowsViewAll(entries) <==> |VisibleEntries(entries)| < |entries|
  {
  }

  class Editor {
    var isWriting: bool
    var title: string
    var content: string

    constructor ()
      ensures !isWriting && title == "" && content == ""
    {
      isWriting := false;
      title := "";
      content := "";
    }

    /** The state setter `setIsWriting`. */
    method SetWriting(on: bool)
      modifies this
      ensures isWriting == on && title == old(title) && content == old(content)
    {
      isWriting := on;
    }

    /** "Write New Entry" / "Write Your First Entry". */
    method StartWriting()
      modifies this
      ensures isWriting && title == old(title) && content == old(content)
    {
      SetWriting(true);
    }

    method SetTitle(text: string)
      modifies this
      ensures title == text && content == old(content) && isWriting == old(isWriting)
    {
      title := text;
    }

    method SetContent(text: string)
      modifies this
      ensures content == text && title == old(title) && isWriting == old(isWriting)
    {
      content := text;
    }

    /**
     * `handleSaveEntry`, with the creation date as a parameter: it emits SaveOutcome of
     * the fields; when that is nothing the form is unchanged, otherwise it resets.
     */
    method HandleSaveEntry(date: string) returns (added: Option<NewEntry>)
      modifies this
      ensures added == SaveOutcome(old(title), old(content), date)
      ensures added == None ==> title == old(title) && content == old(content) && isWriting == old(isWriting)
      ensures added.Some? ==> title == "" && content == "" && !isWriting
    {
      added := SaveOutcome(title, content, date);
      if added.Some? {
        SetTitle("");
        SetContent("");
        SetWriting(false);
      }
    }

    /** The Cancel button: closes the form and clears both fields, emitting nothing. */
    method Cancel()
      modifies this
      ensures !isWriting && title == "" && content == ""
    {
      SetWriting(false);
      SetTitle("");
      SetContent("");
    }
  }
}
