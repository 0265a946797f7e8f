/** The subcategory set-up screen: a local list of (category,
    subcategory) name pairs with add, delete and search. The screen has no
    input that writes the subcategory name, which stays empty, so an add
    never gets past its guard. The id comes from the clock, passed in. */
module SubcategoriesSetup {
  import opened Text
  import opened Util

  datatype SubCategory = SubCategory(id: int, categoryName: string, subCategories: string)

  /** The list `handleAdd` leaves for the two inputs at clock reading now. */
  function AfterAdd(entries: seq<SubCategory>, categoryName: string, subCategoryName: string,
                    now: int): seq<SubCategory> {
    if IsBlank(categoryName) || IsBlank(subCategoryName) then entries
    else entries + [SubCategory(now, Trim(categoryName), Trim(subCategoryName))]
  }

  /** Both names are needed; a new entry holds them trimmed and comes
      last, after the entries already there. */
  lemma AfterAddMeaning(entries: seq<SubCategory>, categoryName: string, subCategoryName: string,
                        now: int)
    ensures var r := AfterAdd(entries, categoryName, subCategoryName, now);
            && (IsBlank(categoryName) || IsBlank(subCategoryName) ==> r == entries)
            && (!IsBlank(categoryName) && !IsBlank(subCategoryName) ==>
                  |r| == |entries| + 1 && r[..|entries|] == entries
                  && r[|entries|].categoryName == Trim(categoryName)
                  && r[|entries|].subCategories == Trim(subCategoryName)
                  && !IsBlank(r[|entries|].categoryName) && !IsBlank(r[|entries|].subCategories))
  {
    if !IsBlank(categoryName) && !IsBlank(subCategoryName) {
      TrimIdempotent(categoryName);
      TrimIdempotent(subCategoryName);
    }
  }

  /** With the subcategory name empty an add changes nothing. */
  lemma AddNeverGrows(entries: seq<SubCategory>, categoryName: string, now: int)
    ensures AfterAdd(entries, categoryName, "", now) == entries
  {
    TrimNoSpace("");
  }

  /** Whether the search shows the entry. */
  predicate EntryMatches(e: SubCategory, term: string) {
    MatchesTerm(e.categoryName, term) || MatchesTerm(e.subCategories, term)
  }

  /** `filteredSubCategories` */
  function VisibleEntries(entries: seq<SubCategory>, term: string): seq<SubCategory> {
    Filter(entries, (e: SubCategory) => EntryMatches(e, term))
  }

  /** An entry is shown exactly when the term occurs, ignoring case, in its
      category or subcategory name, and an empty term shows every entry. */
  lemma VisibleEntriesMeaning(entries: seq<SubCategory>, term: string, x: SubCategory)
    ensures x in VisibleEntries(entries, term) <==>
              x in entries && (MatchesTerm(x.categoryName, term) || MatchesTerm(x.subCategories, term))
    ensures VisibleEntries(entries, "") == entries
  {
    FilterMembership(entries, (e: SubCategory) => EntryMatches(e, term), x);
    forall i | 0 <= i < |entries| ensures EntryMatches(entries[i], "") {
      EmptyTermMatches(entries[i].categoryName);
    }
    FilterAll(entries, (e: SubCategory) => EntryMatches(e, ""));
  }

  /** The list after `handleDelete(id)`. */
  function WithoutEntry(entries: seq<SubCategory>, id: int): seq<SubCategory> {
    Filter(entries, (e: SubCategory) => e.id != id)
  }

  /** A delete removes exactly the entries with that id. */
  lemma WithoutEntryMeaning(entries: seq<SubCategory>, id: int, x: SubCategory)
    ensures x in WithoutEntry(entries, id) <==> x in entries && x.id != id
  {
    FilterMembership(entries, (e: SubCategory) => e.id != id, x);
  }

  class SubcategoriesScreen {
    var categoryName: string
    var subCategoryName: string
    var entries: seq<SubCategory>
    var searchTerm: string

    /** Nothing on the screen writes the subcategory name but the reset. */
    ghost predicate Valid()
      reads this
    {
      subCategoryName == ""
    }

    constructor ()
      ensures Valid() && categoryName == "" && entries == [] && searchTerm == ""
    {
      categoryName := "";
      subCategoryName := "";
      entries := [];
      searchTerm := "";
    }

    /** The category input. */
    method SetCategoryName(name: string)
      requires Valid()
      modifies this`categoryName
      ensures Valid() && categoryName == name
    {
      categoryName := name;
    }

    /** `handleAdd()` at clock reading now. From a screen in its only
        reachable state nothing changes. */
    method HandleAdd(now: int)
      modifies this`categoryName, this`subCategoryName, this`entries
      ensures entries == AfterAdd(old(entries), old(categoryName), old(subCategoryName), now)
      ensures entries == old(entries) ==> categoryName == old(categoryName)
                                          && subCategoryName == old(subCategoryName)
      ensures entries != old(entries) ==> categoryName == "" && Valid()
      ensures old(Valid()) ==> Valid() && entries == old(entries)
    {
      AddNeverGrows(entries, categoryName, now);
      if IsBlank(categoryName) || IsBlank(subCategoryName) {
        return;
      }
      entries := entries + [SubCategory(now, Trim(categoryName), Trim(subCategoryName))];
      categoryName := "";
      subCategoryName := "";
    }

    /** `handleDelete(id)` */
    method HandleDelete(id: int)
      modifies this`entries
      ensures entries == WithoutEntry(old(entries), id)
    {
      entries := WithoutEntry(entries, id);
    }

    /** The search box: the term typed is stored as is, and the table then
        shows the entries that match it; the inputs and entries are kept. */
    method SetSearchTerm(term: string)
      modifies this`searchTerm
      ensures searchTerm == term
      ensures Visible() == VisibleEntries(entries, term)
      ensures old(Valid()) ==> Valid()
    {
      searchTerm := term;
    }

    /** The rows the table shows. */
    function Visible(): (r: seq<SubCategory>)
      reads this
      ensures forall i :: 0 <= i < |r| ==> EntryMatches(r[i], searchTerm)
      ensures searchTerm == "" ==> r == entries
    {
      VisibleEntriesMeaning(entries, searchTerm, SubCategory(0, "", ""));
      VisibleEntries(entries, searchTerm)
    }
  }
}
