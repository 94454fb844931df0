/** app/notes/page.tsx, its selection rules only: which list is displayed,
    which fetch the view triggers, which archive operation a card's button
    dispatches, and which empty-state and count texts appear. */
module NotesPage {
  import opened Wrappers
  import opened JsValues
  import opened JsStrings
  import opened Entities
  import opened UseNotesMock
  import NotesService
  import UseNotes

  /** `activeView`: 'active' or 'archived'. */
  datatype View = ActiveView | ArchivedView

  datatype Fetch = FetchActive | FetchArchived

  datatype ArchiveAction = Archive | Unarchive

  function Other(view: View): View
  {
    if view.ActiveView? then ArchivedView else ActiveView
  }

  /** The category the displayed-list effect asks the filter for, if any:
      only in the active view and only for a non-empty selection. */
  function FilterCall(view: View, selected: Option<string>): (r: Option<string>)
    ensures r.Some? <==> view.ActiveView? && TruthyString(selected)
    ensures r.Some? ==> r == selected
  {
    if view.ActiveView? && TruthyString(selected) then selected else None
  }

  /** The list the effect leaves displayed, given the loaded notes, the list
      displayed before and what the filter call answered. A rejected filter
      call never reaches `setFilteredNotes`, so the old list stays. */
  function NextDisplayed<T>(view: View, selected: Option<string>, loaded: T, previous: T,
                            filterReply: Result<T, Thrown>): T
  {
    if FilterCall(view, selected).Some? then
      (if filterReply.Success? then filterReply.value else previous)
    else loaded
  }

  /** The archived view always shows the loaded notes, whatever category is selected. */
  lemma ArchivedIgnoresCategory<T>(selected: Option<string>, loaded: T, previous: T, filterReply: Result<T, Thrown>)
    ensures FilterCall(ArchivedView, selected) == None
    ensures NextDisplayed(ArchivedView, selected, loaded, previous, filterReply) == loaded
  {
  }

  /** The active view shows the filter's answer when a category is
      selected, and the loaded notes otherwise. A failed filter call never
      reaches `setFilteredNotes`, so the previous list stays. */
  lemma ActiveFollowsCategory<T>(selected: Option<string>, loaded: T, previous: T, filterReply: Result<T, Thrown>)
    ensures !TruthyString(selected) ==> NextDisplayed(ActiveView, selected, loaded, previous, filterReply) == loaded
    ensures TruthyString(selected) && filterReply.Success? ==>
              NextDisplayed(ActiveView, selected, loaded, previous, filterReply) == filterReply.value
    ensures TruthyString(selected) && filterReply.Failure? ==>
              NextDisplayed(ActiveView, selected, loaded, previous, filterReply) == previous
  {
  }

  /** The view-fetch effect: each view loads its own list. */
  function FetchFor(view: View): (f: Fetch)
    ensures f.FetchActive? <==> view.ActiveView?
  {
    if view.ActiveView? then FetchActive else FetchArchived
  }

  /** The page of the mock store a fetch shows. */
  function Page(view: View, stored: seq<Note>): seq<Note>
  {
    match FetchFor(view)
    case FetchActive => Active(stored)
    case FetchArchived => Archived(stored)
  }

  /** The archive button of a card and of the detail modal. */
  function ArchiveActionFor(view: View): (a: ArchiveAction)
    ensures a.Unarchive? <==> view.ArchivedView?
  {
    if view.ArchivedView? then Unarchive else Archive
  }

  /** The value the dispatched operation gives `isArchived`. */
  function FlagOf(a: ArchiveAction): bool
  {
    a.Archive?
  }

  /** `useNotesMock` offers the same operations as `useNotes`. Over its store,
      the operation the archive button picks in either view takes the note
      off that view's page and puts it on the other view's page, with every
      other note where it was. */
  lemma ArchiveButtonSwapsPage(view: View, all: seq<Note>, id: string, now: Timestamp)
    ensures var u := SetArchived(all, id, FlagOf(ArchiveActionFor(view)), now);
            && (forall n :: n in Page(view, u) ==> n.id != id)
            && (forall n :: n in all && n.id == id ==>
                  n.(isArchived := FlagOf(ArchiveActionFor(view)), updatedAt := now) in Page(Other(view), u))
            && (forall n: Note :: n.id != id ==>
                  ((n in Page(view, u) <==> n in Page(view, all)) && (n in Page(Other(view), u) <==> n in Page(Other(view), all))))
  {
    if view.ActiveView? {
      ArchiveMovesNote(all, id, now);
    } else {
      UnarchiveMovesNote(all, id, now);
    }
  }

  /** The archive button of a card or of the detail modal, over the
      networked `useNotes` the page uses: `onArchive` is
      `handleUnarchiveNote` in the archived view and `handleArchiveNote` in
      the active one. The handler sends that view's request; on success every
      entry with the id leaves the displayed notes and the others stay in
      order, and on failure (a dialog in the source) the notes are kept. */
  method PressArchive(hook: UseNotes.NotesHook, view: View, id: string) returns (r: Result<(), Thrown>)
    modifies hook, hook.server
    ensures hook.Token().None? ==>
              r == Failure(Error(UseNotes.NoTokenMessage)) && hook.server.log == old(hook.server.log)
              && hook.notes == old(hook.notes)
    ensures hook.Token().Some? ==>
              var req := if ArchiveActionFor(view).Archive? then NotesService.ArchiveNoteRequest(id, hook.Token().value)
                         else NotesService.UnarchiveNoteRequest(id, hook.Token().value);
              && hook.server.log == old(hook.server.log) + [req]
              && r == NotesService.VoidOutcome(hook.server.reply(old(hook.server.log), req))
    ensures r.Success? ==>
              && hook.error == None
              && hook.notes == (if old(hook.notes).Arr? then Arr(UseNotes.WithoutId(old(hook.notes).items, id))
                                else old(hook.notes))
    ensures r.Failure? ==> hook.notes == old(hook.notes)
  {
    if ArchiveActionFor(view).Unarchive? {
      r := hook.UnarchiveNote(id);
    } else {
      r := hook.ArchiveNote(id);
    }
  }

  /** After a successful press, no displayed entry carries the id, and every
      other entry is displayed as often as before, in its old order. The note
      shows up in the other view only when that view fetches it again from
      the server. */
  lemma {:induction false} PressArchiveHidesNote(items: seq<JsValue>, id: string, before: seq<JsValue>, after: seq<JsValue>)
    requires items == before + after
    ensures forall x :: x in UseNotes.WithoutId(items, id) ==> !UseNotes.HasId(x, id)
    ensures forall x :: !UseNotes.HasId(x, id) ==>
              multiset(UseNotes.WithoutId(items, id))[x] == multiset(items)[x]
    ensures UseNotes.WithoutId(items, id) == UseNotes.WithoutId(before, id) + UseNotes.WithoutId(after, id)
  {
    UseNotes.WithoutIdSpec(items, id, before, after);
    forall x | !UseNotes.HasId(x, id)
      ensures multiset(UseNotes.WithoutId(items, id))[x] == multiset(items)[x]
    {
      UseNotes.WithoutIdCounts(items, id, x);
    }
  }

  /** '+ New' appears only in the active view. */
  predicate ShowsNewButton(view: View)
  {
    view.ActiveView?
  }

  /** '+ Create my first note' appears in the empty state of the active view
      with no category selected. */
  predicate ShowsCreateFirst(view: View, selected: Option<string>)
  {
    view.ActiveView? && !TruthyString(selected)
  }

  const NoNotesInCategory: string := "No notes in this category"
  const Welcome: string := "Welcome to My Notes"
  const NoArchivedNotes: string := "No archived notes"

  function EmptyHeading(view: View, selected: Option<string>): string
  {
    if TruthyString(selected) then NoNotesInCategory
    else if view.ActiveView? then Welcome
    else NoArchivedNotes
  }

  /** The empty state is consistent: the welcome heading comes exactly with
      the create-first button, which never appears without '+ New', and the
      category heading wins in both views. */
  lemma EmptyStateConsistent(view: View, selected: Option<string>)
    ensures EmptyHeading(view, selected) == Welcome <==> ShowsCreateFirst(view, selected)
    ensures ShowsCreateFirst(view, selected) ==> ShowsNewButton(view)
    ensures EmptyHeading(view, selected) == NoArchivedNotes <==> view.ArchivedView? && !TruthyString(selected)
    ensures TruthyString(selected) ==> EmptyHeading(view, selected) == NoNotesInCategory
  {
  }

  /** `{filteredNotes.length} note{filteredNotes.length !== 1 ? 's' : ''}`. */
  function CountLabel(n: nat): string
  {
    NatToString(n) + " note" + (if n != 1 then "s" else "")
  }

  /** The count line appears only when the displayed list is non-empty, so
      positive counts are the ones it shows. */
  lemma CountLabelCases()
    ensures CountLabel(1) == "1 note" && CountLabel(12) == "12 notes"
  {
    assert NatToString(12) == NatToString(1) + [DigitChar(2)];
  }

  /** Different counts give different labels: the label starts with the
      count's digits, which the first space ends. */
  lemma {:induction false} CountLabelInjective(m: nat, n: nat)
    requires CountLabel(m) == CountLabel(n)
    ensures m == n
  {
    var dm := NatToString(m);
    var dn := NatToString(n);
    NatToStringRoundTrip(m);
    NatToStringRoundTrip(n);
    assert CountLabel(m)[..|dm|] == dm;
    assert CountLabel(n)[..|dn|] == dn;
    if |dm| < |dn| {
      assert false;
    } else if |dn| < |dm| {
      assert false;
    } else {
      assert dm == dn;
    }
  }
}
