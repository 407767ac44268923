/** The inspector-notes page: free-text search over the notes, the new-note
    form with its save handler, and the priority badge colours. */
module InspectorNotes {
  import opened Common
  import opened Text
  import opened Subsequences

  /** One inspector note as the page lists it. */
  datatype InspectorNote = InspectorNote(
    id: int,
    title: string,
    content: string,
    location: string,
    timestamp: string,
    inspector: string,
    priority: string,
    tags: seq<string>)

  /** The new-note form (`newNote`). */
  datatype NoteDraft = NoteDraft(title: string, content: string, location: string, priority: string)

  /** The form as the page opens it and as a successful save leaves it. */
  const EmptyDraft := NoteDraft("", "", "", "Medium")

  /** The page's fixture notes. */
  const ExistingNotes: seq<InspectorNote> := [
    InspectorNote(1, "Severe Cracking at KM 5.2",
      "Multiple longitudinal cracks observed. Immediate attention required for safety. Weather conditions: Clear, dry. Traffic volume: Heavy during inspection.",
      "NH-1, KM 5.2", "2024-01-15 10:30 AM", "Inspector A. Kumar", "High", ["Urgent", "Safety", "Cracks"]),
    InspectorNote(2, "Routine Maintenance Required",
      "Minor surface irregularities noted. Scheduled maintenance recommended within next quarter. No immediate safety concerns.",
      "NH-1, KM 12.7", "2024-01-15 11:45 AM", "Inspector B. Singh", "Low", ["Maintenance", "Routine"]),
    InspectorNote(3, "Rutting Pattern Analysis",
      "Progressive rutting pattern in right wheel path. Monitoring required. May be related to heavy vehicle traffic. Consider load restrictions.",
      "NH-1, KM 18.9", "2024-01-15 2:15 PM", "Inspector C. Sharma", "Medium", ["Rutting", "Traffic", "Monitoring"]),
    InspectorNote(4, "Bridge Approach Inspection",
      "Bridge approach shows signs of settlement. Joint sealing needs attention. Coordinate with bridge maintenance team.",
      "NH-1, KM 25.4 - Bridge Approach", "2024-01-15 3:30 PM", "Inspector A. Kumar", "High", ["Bridge", "Settlement", "Coordination"])
  ]

  const IncompleteToast := Toast("Incomplete Note", "Please fill in both title and content.", Destructive)
  const SavedToast := Toast("Note Saved", "Your inspection note has been saved successfully.", Default)

  /** The search predicate: the lower-cased query occurs in the lower-cased
      title, content or location. */
  predicate NoteMatches(n: InspectorNote, query: string)
  {
    var q := Lower(query);
    Contains(Lower(n.title), q) || Contains(Lower(n.content), q) || Contains(Lower(n.location), q)
  }

  /** `filteredNotes`: the matching notes, in input order. */
  function FilterNotes(notes: seq<InspectorNote>, query: string): (out: seq<InspectorNote>)
    ensures forall n :: n in out <==> n in notes && NoteMatches(n, query)
    ensures |out| <= |notes|
  {
    if notes == [] then []
    else if NoteMatches(notes[0], query) then [notes[0]] + FilterNotes(notes[1..], query)
    else FilterNotes(notes[1..], query)
  }

  /** A note is listed exactly when the query, lower-cased, is a substring
      of one of its three lower-cased text fields. */
  lemma FilterNotesMembership(notes: seq<InspectorNote>, query: string, n: InspectorNote)
    ensures n in FilterNotes(notes, query) <==>
              n in notes &&
              ((exists i :: OccursAt(Lower(n.title), Lower(query), i)) ||
               (exists i :: OccursAt(Lower(n.content), Lower(query), i)) ||
               (exists i :: OccursAt(Lower(n.location), Lower(query), i)))
  {
  }

  /** The search keeps every occurrence of a matching note and drops every
      occurrence of another one. */
  lemma {:induction false} FilterNotesMultiplicity(notes: seq<InspectorNote>, query: string)
    ensures forall n :: multiset(FilterNotes(notes, query))[n] ==
                          if NoteMatches(n, query) then multiset(notes)[n] else 0
  {
    if notes != [] {
      FilterNotesMultiplicity(notes[1..], query);
      assert notes == [notes[0]] + notes[1..];
    }
  }

  /** A query typed exactly as it appears in a note's title, content or
      location always finds that note, whatever the case of either. */
  lemma ExactOccurrenceIsListed(notes: seq<InspectorNote>, query: string, n: InspectorNote)
    requires n in notes
    requires Contains(n.title, query) || Contains(n.content, query) || Contains(n.location, query)
    ensures n in FilterNotes(notes, query)
  {
    if Contains(n.title, query) {
      LowerKeepsContains(n.title, query);
    } else if Contains(n.content, query) {
      LowerKeepsContains(n.content, query);
    } else {
      LowerKeepsContains(n.location, query);
    }
  }

  /** The search keeps the notes' order. */
  lemma {:induction false} FilterNotesIsSubsequence(notes: seq<InspectorNote>, query: string)
    ensures Subseq(FilterNotes(notes, query), notes)
  {
    if notes != [] {
      FilterNotesIsSubsequence(notes[1..], query);
    }
  }

  /** The empty query lists every note. */
  lemma {:induction false} EmptyQueryMatchesAll(notes: seq<InspectorNote>)
    ensures FilterNotes(notes, "") == notes
  {
    if notes != [] {
      assert OccursAt(Lower(notes[0].title), Lower(""), 0);
      EmptyQueryMatchesAll(notes[1..]);
      assert notes == [notes[0]] + notes[1..];
    }
  }

  /** Case does not matter: searching for the lower-cased query gives the
      same list as searching for the query itself. */
  lemma {:induction false} SearchIgnoresCase(notes: seq<InspectorNote>, query: string)
    ensures FilterNotes(notes, Lower(query)) == FilterNotes(notes, query)
  {
    LowerIdempotent(query);
    if notes != [] {
      SearchIgnoresCase(notes[1..], query);
    }
  }

  /** Two queries that lower-case alike give the same list. */
  lemma SameLowerSameResult(notes: seq<InspectorNote>, q1: string, q2: string)
    requires Lower(q1) == Lower(q2)
    ensures FilterNotes(notes, q1) == FilterNotes(notes, q2)
  {
    SearchIgnoresCase(notes, q1);
    SearchIgnoresCase(notes, q2);
  }

  /** Refining the query narrows the list: when `query` occurs (ignoring
      case) in `longer`, the notes listed for `longer` are an
      order-preserving subsequence of those listed for `query`. */
  lemma {:induction false} LongerQueryNarrows(notes: seq<InspectorNote>, query: string, longer: string)
    requires Contains(Lower(longer), Lower(query))
    ensures Subseq(FilterNotes(notes, longer), FilterNotes(notes, query))
    ensures |FilterNotes(notes, longer)| <= |FilterNotes(notes, query)|
  {
    LongerQueryNarrowsOrder(notes, query, longer);
    SubseqLength(FilterNotes(notes, longer), FilterNotes(notes, query));
  }

  lemma {:induction false} LongerQueryNarrowsOrder(notes: seq<InspectorNote>, query: string, longer: string)
    requires Contains(Lower(longer), Lower(query))
    ensures Subseq(FilterNotes(notes, longer), FilterNotes(notes, query))
  {
    if notes != [] {
      var n := notes[0];
      if NoteMatches(n, longer) {
        if Contains(Lower(n.title), Lower(longer)) {
          ContainsTransitive(Lower(n.title), Lower(longer), Lower(query));
        } else if Contains(Lower(n.content), Lower(longer)) {
          ContainsTransitive(Lower(n.content), Lower(longer), Lower(query));
        } else {
          ContainsTransitive(Lower(n.location), Lower(longer), Lower(query));
        }
      }
      LongerQueryNarrowsOrder(notes[1..], query, longer);
    }
  }

  /** Searching the fixture for "bridge", in any case, lists the bridge
      approach note. */
  lemma BridgeSearchExample()
    ensures ExistingNotes[3] in FilterNotes(ExistingNotes, "bridge")
    ensures FilterNotes(ExistingNotes, "BRIDGE") == FilterNotes(ExistingNotes, "bridge")
  {
    var n := ExistingNotes[3];
    assert Lower("bridge") == "bridge" == Lower("BRIDGE");
    assert Lower(n.title)[..6] == "bridge";
    assert OccursAt(Lower(n.title), Lower("bridge"), 0);
    SameLowerSameResult(ExistingNotes, "BRIDGE", "bridge");
  }

  /** The outcome of pressing Save: the form afterwards, the one toast
      emitted, and whether the note was accepted. */
  datatype SaveOutcome = SaveOutcome(form: NoteDraft, toast: Toast, saved: bool)

  /** `handleSaveNote`. A note needs a non-empty title and a non-empty
      content; otherwise the form stays as it is and a destructive toast
      asks for both. On success a toast confirms and the form is reset,
      whatever its location and priority were. */
  function SaveNote(d: NoteDraft): (o: SaveOutcome)
    ensures o.saved <==> d.title != "" && d.content != ""
    ensures !o.saved ==> o.form == d && o.toast.variant == Destructive
    ensures o.saved ==> o.form == EmptyDraft && o.toast.variant == Default
  {
    if d.title == "" || d.content == "" then SaveOutcome(d, IncompleteToast, false)
    else SaveOutcome(EmptyDraft, SavedToast, true)
  }

  /** After a successful save the form is empty, so pressing Save again is
      rejected and leaves the empty form in place. */
  lemma SaveAgainIsRejected(d: NoteDraft)
    requires SaveNote(d).saved
    ensures !SaveNote(SaveNote(d).form).saved
    ensures SaveNote(SaveNote(d).form).form == EmptyDraft
  {
  }

  /** `getPriorityColor`: three distinct classes for High, Medium and Low,
      grey for anything else. */
  function PriorityColor(priority: string): (c: string)
    ensures c == "bg-red-100 text-red-800" <==> priority == "High"
    ensures c == "bg-yellow-100 text-yellow-800" <==> priority == "Medium"
    ensures c == "bg-green-100 text-green-800" <==> priority == "Low"
    ensures c == "bg-gray-100 text-gray-800" <==> priority !in {"High", "Medium", "Low"}
  {
    match priority
    case "High" => "bg-red-100 text-red-800"
    case "Medium" => "bg-yellow-100 text-yellow-800"
    case "Low" => "bg-green-100 text-green-800"
    case _ => "bg-gray-100 text-gray-800"
  }

  /** The placeholder card under an empty list: none when some note is
      listed; otherwise a "no match" text when a query is typed and a
      "start by adding" text when it is not. */
  function EmptyListMessage(notes: seq<InspectorNote>, query: string): (m: Option<string>)
    ensures m.None? <==> FilterNotes(notes, query) != []
    ensures m.Some? && query != "" ==> m.value == "No notes match your search criteria."
    ensures m.Some? && query == "" ==> m.value == "Start by adding your first inspection note."
    ensures query == "" && notes != [] ==> m.None?
  {
    if FilterNotes(notes, query) != [] then None
    else if query != "" then Some("No notes match your search criteria.")
    else
      EmptyQueryMatchesAll(notes);
      Some("Start by adding your first inspection note.")
  }

  /** The page's state: the form, the search box and the toasts emitted so
      far. The listed notes are fixed. */
  class Page {
    var newNote: NoteDraft
    var searchTerm: string
    var toasts: seq<Toast>
    const existingNotes: seq<InspectorNote>

    constructor ()
      ensures newNote == EmptyDraft && searchTerm == "" && toasts == []
      ensures existingNotes == ExistingNotes
    {
      newNote := EmptyDraft;
      searchTerm := "";
      toasts := [];
      existingNotes := ExistingNotes;
    }

    /** The title input's `onChange`: only the title changes. */
    method EditTitle(v: string)
      modifies this
      ensures newNote == old(newNote).(title := v)
      ensures searchTerm == old(searchTerm) && toasts == old(toasts)
    {
      newNote := newNote.(title := v);
    }

    /** The location input's `onChange`: only the location changes. */
    method EditLocation(v: string)
      modifies this
      ensures newNote == old(newNote).(location := v)
      ensures searchTerm == old(searchTerm) && toasts == old(toasts)
    {
      newNote := newNote.(location := v);
    }

    /** The priority select's `onChange`: only the priority changes. */
    method EditPriority(v: string)
      modifies this
      ensures newNote == old(newNote).(priority := v)
      ensures searchTerm == old(searchTerm) && toasts == old(toasts)
    {
      newNote := newNote.(priority := v);
    }

    /** The content textarea's `onChange`: only the content changes. */
    method EditContent(v: string)
      modifies this
      ensures newNote == old(newNote).(content := v)
      ensures searchTerm == old(searchTerm) && toasts == old(toasts)
    {
      newNote := newNote.(content := v);
    }

    /** The search box's `onChange`. */
    method EditSearch(v: string)
      modifies this
      ensures searchTerm == v
      ensures newNote == old(newNote) && toasts == old(toasts)
    {
      searchTerm := v;
    }

    /** The Save button: exactly one toast, the form as `SaveNote` says;
        the listed notes do not change. */
    method HandleSaveNote()
      modifies this
      ensures newNote == SaveNote(old(newNote)).form
      ensures toasts == old(toasts) + [SaveNote(old(newNote)).toast]
      ensures old(newNote).title == "" || old(newNote).content == "" ==>
                newNote == old(newNote) && toasts == old(toasts) + [IncompleteToast]
      ensures old(newNote).title != "" && old(newNote).content != "" ==>
                newNote == EmptyDraft && toasts == old(toasts) + [SavedToast]
      ensures searchTerm == old(searchTerm)
    {
      if newNote.title == "" || newNote.content == "" {
        toasts := toasts + [IncompleteToast];
        return;
      }
      toasts := toasts + [SavedToast];
      newNote := EmptyDraft;
    }

    /** The notes listed under the search box. */
    function FilteredNotes(): (out: seq<InspectorNote>)
      reads this
      ensures forall n :: n in out <==> n in existingNotes && NoteMatches(n, searchTerm)
    {
      FilterNotes(existingNotes, searchTerm)
    }
  }
}
