/** src/hooks/useCategoriesMock.ts: categories kept under the browser's
    'categories' key, and category tags kept inside the stored notes. Only
    `fetchCategories` and `createCategory` change the shown list; tagging
    and untagging write the notes key and nothing else. */
module UseCategoriesMock {
  import opened Wrappers
  import opened JsValues
  import opened Lists
  import opened Entities
  import opened BrowserStorage
  import opened UseNotesMock

  const CategoryNotFound: string := "Category not found"

  /** `categories.some((c) => c.id === id)`. */
  predicate HasCategory(cs: seq<Category>, id: string)
  {
    exists c :: c in cs && c.id == id
  }

  function CategoryIdTest(id: string): Category -> bool
  {
    (c: Category) => c.id == id
  }

  /** `allCategories.find(c => c.id === categoryId)`: the first category with the id. */
  function FindCategory(cs: seq<Category>, id: string): (r: Option<Category>)
    ensures r.None? <==> !HasCategory(cs, id)
    ensures r.Some? ==> r.value in cs && r.value.id == id
    ensures forall k :: 0 <= k < |cs| && cs[k].id == id && (forall j :: 0 <= j < k ==> cs[j].id != id) ==>
              r == Some(cs[k])
  {
    FindFirstAt(cs, CategoryIdTest(id));
    FindFirst(cs, CategoryIdTest(id))
  }

  /** What `addCategoryToNote` does to one note with the id: its categories
      (none counts as empty) gain `c` at the end, unless one with the same id
      is already there. */
  function Attach(n: Note, c: Category): (m: Note)
    ensures m.id == n.id && m.isArchived == n.isArchived
    ensures m.categories.Some? && c.id in set x | x in m.categories.value :: x.id
  {
    var existing := if n.categories.Some? then n.categories.value else [];
    if HasCategory(existing, c.id) then n
    else n.(categories := Some(existing + [c]))
  }

  function AttachStep(noteId: string, c: Category): Note -> Note
  {
    (n: Note) => if n.id == noteId then Attach(n, c) else n
  }

  function AttachIn(all: seq<Note>, noteId: string, c: Category): seq<Note>
  {
    Map(all, AttachStep(noteId, c))
  }

  function OtherThan(categoryId: string): Category -> bool { (c: Category) => c.id != categoryId }

  /** What `removeCategoryFromNote` does to one note with the id: when it has
      a category list, every category with the id leaves it. */
  function Detach(n: Note, categoryId: string): (m: Note)
    ensures m.id == n.id && m.isArchived == n.isArchived
    ensures m.categories.None? <==> n.categories.None?
    ensures m.categories.Some? ==> !HasCategory(m.categories.value, categoryId)
  {
    if n.categories.Some? then n.(categories := Some(Filter(n.categories.value, OtherThan(categoryId))))
    else n
  }

  function DetachStep(noteId: string, categoryId: string): Note -> Note
  {
    (n: Note) => if n.id == noteId then Detach(n, categoryId) else n
  }

  function DetachIn(all: seq<Note>, noteId: string, categoryId: string): seq<Note>
  {
    Map(all, DetachStep(noteId, categoryId))
  }

  predicate CarriesCategory(categoryId: string, n: Note)
  {
    n.categories.Some? && HasCategory(n.categories.value, categoryId)
  }

  function CarriesTest(categoryId: string): Note -> bool { (n: Note) => CarriesCategory(categoryId, n) }

  function ActiveCarryingTest(categoryId: string): Note -> bool
  {
    (n: Note) => !n.isArchived && CarriesCategory(categoryId, n)
  }

  /** The answer of `filterNotesByCategory`: the active notes tagged with the
      category, in stored order. */
  function CarryingCategory(all: seq<Note>, categoryId: string): seq<Note>
  {
    Filter(all, ActiveCarryingTest(categoryId))
  }

  /** The filter is the active page narrowed to the notes with the tag. */
  lemma CarryingIsActiveNarrowed(all: seq<Note>, categoryId: string)
    ensures CarryingCategory(all, categoryId) == Filter(Active(all), CarriesTest(categoryId))
    ensures forall n :: n in CarryingCategory(all, categoryId) <==>
              n in all && !n.isArchived && CarriesCategory(categoryId, n)
  {
    FilterFilter(all, IsActiveNote, CarriesTest(categoryId), ActiveCarryingTest(categoryId));
  }

  /** Tagging twice with the same category is tagging once. */
  lemma AttachIdempotent(n: Note, c: Category)
    ensures Attach(Attach(n, c), c) == Attach(n, c)
  {
    var m := Attach(n, c);
    var x :| x in m.categories.value && x.id == c.id;
    assert HasCategory(m.categories.value, c.id);
  }

  lemma {:induction false} AttachInIdempotent(all: seq<Note>, noteId: string, c: Category)
    ensures AttachIn(AttachIn(all, noteId, c), noteId, c) == AttachIn(all, noteId, c)
  {
    var once := AttachIn(all, noteId, c);
    var twice := AttachIn(once, noteId, c);
    forall i | 0 <= i < |all| ensures twice[i] == once[i] {
      if all[i].id == noteId {
        AttachIdempotent(all[i], c);
      }
    }
  }

  /** Untagging a note just tagged with a category it did not have gives the
      note back. */
  lemma DetachUndoesAttach(n: Note, c: Category)
    requires n.categories.Some? && !HasCategory(n.categories.value, c.id)
    ensures Detach(Attach(n, c), c.id) == n
  {
    var cs := n.categories.value;
    var keep := OtherThan(c.id);
    forall i | 0 <= i < |cs| ensures keep(cs[i]) {
      assert cs[i] in cs;
    }
    assert Attach(n, c).categories == Some(cs + [c]);
    FilterConcat(cs, [c], keep);
    FilterAllPass(cs, keep);
    assert Filter([c], keep) == [] by {
      assert Filter([c], keep) == Filter([c][1..], keep);
      assert [c][1..] == [];
    }
    assert Filter(cs + [c], keep) == cs;
  }

  /** Untagging twice is untagging once. */
  lemma DetachIdempotent(n: Note, categoryId: string)
    ensures Detach(Detach(n, categoryId), categoryId) == Detach(n, categoryId)
  {
    if n.categories.Some? {
      FilterIdempotent(n.categories.value, OtherThan(categoryId));
    }
  }

  lemma {:induction false} DetachInIdempotent(all: seq<Note>, noteId: string, categoryId: string)
    ensures DetachIn(DetachIn(all, noteId, categoryId), noteId, categoryId) == DetachIn(all, noteId, categoryId)
  {
    var once := DetachIn(all, noteId, categoryId);
    var twice := DetachIn(once, noteId, categoryId);
    forall i | 0 <= i < |all| ensures twice[i] == once[i] {
      if all[i].id == noteId {
        DetachIdempotent(all[i], categoryId);
      }
    }
  }

  /** Tagging and untagging keep the list's length and order, touch only
      notes with the id, and leave a note without a category list as it is
      when untagging. */
  lemma TaggingTouchesOnlyTarget(all: seq<Note>, noteId: string, c: Category, categoryId: string)
    ensures |AttachIn(all, noteId, c)| == |all| && |DetachIn(all, noteId, categoryId)| == |all|
    ensures forall i :: 0 <= i < |all| && all[i].id != noteId ==>
              AttachIn(all, noteId, c)[i] == all[i] && DetachIn(all, noteId, categoryId)[i] == all[i]
    ensures forall i :: 0 <= i < |all| && all[i].categories.None? ==> DetachIn(all, noteId, categoryId)[i] == all[i]
  {
  }

  /** A note with the id that lacks the category gets it appended after its
      existing ones; one that has it is left as it is. */
  lemma AttachAppends(n: Note, c: Category)
    ensures n.categories.Some? && !HasCategory(n.categories.value, c.id) ==>
              Attach(n, c).categories == Some(n.categories.value + [c])
    ensures n.categories.None? ==> Attach(n, c).categories == Some([c])
    ensures n.categories.Some? && HasCategory(n.categories.value, c.id) ==> Attach(n, c) == n
  {
    if n.categories.None? {
      assert !HasCategory([], c.id);
      assert [] + [c] == [c];
    }
  }

  /** After tagging, an active note with the id is among the notes the
      filter by that category returns; after untagging, no note with the
      id is. */
  lemma TagThenFilter(all: seq<Note>, noteId: string, c: Category)
    ensures forall n :: n in AttachIn(all, noteId, c) && n.id == noteId && !n.isArchived ==>
              n in CarryingCategory(AttachIn(all, noteId, c), c.id)
    ensures forall n :: n in DetachIn(all, noteId, c.id) && n.id == noteId ==>
              n !in CarryingCategory(DetachIn(all, noteId, c.id), c.id)
  {
    var tagged := AttachIn(all, noteId, c);
    forall n | n in tagged && n.id == noteId && !n.isArchived
      ensures n in CarryingCategory(tagged, c.id)
    {
      var i :| 0 <= i < |tagged| && tagged[i] == n;
      assert all[i].id == noteId;
      var x :| x in n.categories.value && x.id == c.id;
      assert CarriesCategory(c.id, n);
    }
    var untagged := DetachIn(all, noteId, c.id);
    forall n | n in untagged && n.id == noteId
      ensures n !in CarryingCategory(untagged, c.id)
    {
      var i :| 0 <= i < |untagged| && untagged[i] == n;
      assert all[i].id == noteId;
    }
  }

  class CategoriesMock {
    const storage: Storage
    var categories: seq<Category>
    var loading: bool
    var error: Option<string>

    /** The mount effect runs `fetchCategories` once. */
    constructor (storage: Storage)
      ensures this.storage == storage && !loading
      ensures categories == (if storage.categories.Stored? then storage.categories.value else [])
      ensures error == (if storage.categories.Corrupt? then Some(storage.categories.parseError) else None)
    {
      this.storage := storage;
      categories := [];
      loading := false;
      error := None;
      new;
      FetchCategories();
    }

    /** Shows the stored categories; with nothing stored the list is kept; a
        parse failure is recorded and swallowed. */
    method FetchCategories()
      modifies this
      ensures !loading
      ensures storage.categories.Absent? ==> categories == old(categories) && error == None
      ensures storage.categories.Stored? ==> categories == storage.categories.value && error == None
      ensures storage.categories.Corrupt? ==>
                categories == old(categories) && error == Some(storage.categories.parseError)
    {
      loading := true;
      error := None;
      match storage.categories {
        case Absent =>
        case Stored(all) => categories := all;
        case Corrupt(m) => error := Some(MessageOf(Error(m), "Failed to fetch categories"));
      }
      loading := false;
    }

    /** Appends the new category to the stored list, shows that list, and
        returns the category. */
    method CreateCategory(name: string, color: string, newId: string) returns (r: Result<Category, Thrown>)
      modifies this, storage
      ensures !loading
      ensures storage.notes == old(storage.notes) && storage.token == old(storage.token)
      ensures old(storage.categories).Corrupt? ==>
                && r == Failure(Error(old(storage.categories).parseError))
                && error == Some(old(storage.categories).parseError)
                && storage.categories == old(storage.categories) && categories == old(categories)
      ensures !old(storage.categories).Corrupt? ==>
                var all := ReadAll(old(storage.categories)).value;
                && r == Success(Category(newId, name, color)) && error == None
                && storage.categories == Stored(all + [r.value])
                && categories == all + [r.value]
    {
      loading := true;
      error := None;
      var read := ReadAll(storage.categories);
      if read.Failure? {
        r := Failure(read.error);
        error := Some(MessageOf(read.error, "Failed to create category"));
      } else {
        var newCategory := Category(newId, name, color);
        var updated := read.value + [newCategory];
        storage.categories := Stored(updated);
        categories := updated;
        r := Success(newCategory);
      }
      loading := false;
    }

    /** With either key unset nothing happens. Otherwise the notes are parsed,
        then the categories; the category must exist; then every note with
        the id is tagged with it and the notes are stored. Shown categories
        never change. */
    method AddCategoryToNote(noteId: string, categoryId: string) returns (r: Result<(), Thrown>)
      modifies this, storage
      ensures !loading && categories == old(categories)
      ensures storage.categories == old(storage.categories) && storage.token == old(storage.token)
      ensures old(storage.notes).Absent? || old(storage.categories).Absent? ==>
                r == Success(()) && error == None && storage.notes == old(storage.notes)
      ensures old(storage.notes).Corrupt? && !old(storage.categories).Absent? ==>
                r == Failure(Error(old(storage.notes).parseError))
                && error == Some(old(storage.notes).parseError) && storage.notes == old(storage.notes)
      ensures old(storage.notes).Stored? && old(storage.categories).Corrupt? ==>
                r == Failure(Error(old(storage.categories).parseError))
                && error == Some(old(storage.categories).parseError) && storage.notes == old(storage.notes)
      ensures old(storage.notes).Stored? && old(storage.categories).Stored? ==>
                var found := FindCategory(old(storage.categories).value, categoryId);
                && (found.None? ==>
                      r == Failure(Error(CategoryNotFound)) && error == Some(CategoryNotFound)
                      && storage.notes == old(storage.notes))
                && (found.Some? ==>
                      r == Success(()) && error == None
                      && storage.notes == Stored(AttachIn(old(storage.notes).value, noteId, found.value)))
    {
      loading := true;
      error := None;
      if storage.notes.Absent? || storage.categories.Absent? {
        r := Success(());
      } else if storage.notes.Corrupt? {
        r := Failure(Error(storage.notes.parseError));
        error := Some(MessageOf(r.error, "Failed to add category to note"));
      } else if storage.categories.Corrupt? {
        r := Failure(Error(storage.categories.parseError));
        error := Some(MessageOf(r.error, "Failed to add category to note"));
      } else {
        var category := FindCategory(storage.categories.value, categoryId);
        if category.None? {
          r := Failure(Error(CategoryNotFound));
          error := Some(MessageOf(r.error, "Failed to add category to note"));
        } else {
          storage.notes := Stored(AttachIn(storage.notes.value, noteId, category.value));
          r := Success(());
        }
      }
      loading := false;
    }

    /** With the notes key unset nothing happens; otherwise every note with
        the id loses the category and the notes are stored. */
    method RemoveCategoryFromNote(noteId: string, categoryId: string) returns (r: Result<(), Thrown>)
      modifies this, storage
      ensures !loading && categories == old(categories)
      ensures storage.categories == old(storage.categories) && storage.token == old(storage.token)
      ensures old(storage.notes).Absent? ==> r == Success(()) && error == None && storage.notes == old(storage.notes)
      ensures old(storage.notes).Corrupt? ==>
                r == Failure(Error(old(storage.notes).parseError))
                && error == Some(old(storage.notes).parseError) && storage.notes == old(storage.notes)
      ensures old(storage.notes).Stored? ==>
                r == Success(()) && error == None
                && storage.notes == Stored(DetachIn(old(storage.notes).value, noteId, categoryId))
    {
      loading := true;
      error := None;
      match storage.notes {
        case Absent => r := Success(());
        case Corrupt(m) =>
          r := Failure(Error(m));
          error := Some(MessageOf(r.error, "Failed to remove category from note"));
        case Stored(all) =>
          storage.notes := Stored(DetachIn(all, noteId, categoryId));
          r := Success(());
      }
      loading := false;
    }

    /** Writes nothing: returns the active notes carrying the category. */
    method FilterNotesByCategory(categoryId: string) returns (r: Result<seq<Note>, Thrown>)
      modifies this
      ensures !loading && categories == old(categories)
      ensures storage.notes.Absent? ==> r == Success([]) && error == None
      ensures storage.notes.Corrupt? ==>
                r == Failure(Error(storage.notes.parseError)) && error == Some(storage.notes.parseError)
      ensures storage.notes.Stored? ==>
                r == Success(CarryingCategory(storage.notes.value, categoryId)) && error == None
    {
      loading := true;
      error := None;
      match storage.notes {
        case Absent => r := Success([]);
        case Corrupt(m) =>
          r := Failure(Error(m));
          error := Some(MessageOf(r.error, "Failed to filter notes by category"));
        case Stored(all) => r := Success(CarryingCategory(all, categoryId));
      }
      loading := false;
    }
  }
}
