/** The restaurant menu screen: a local list of menu entries with add,
    delete and search. The list is never sent anywhere; the id comes from
    the clock and the dates from the locale, both passed in. */
module RestaurantMenu {
  import opened Text
  import opened Util

  datatype MenuStatus = Active | Inactive

  /** A menu entry; prices and discount are whole amounts. */
  datatype MenuItem = MenuItem(
    id: int, products: string, masterPrice: int, displayPrice: int, category: string,
    subCategory: string, menuType: string, discount: int, createdOn: string, updatedOn: string,
    status: MenuStatus)

  /** Whether the search shows the entry. */
  predicate ItemMatches(item: MenuItem, term: string) {
    MatchesTerm(item.products, term) || MatchesTerm(item.category, term)
    || MatchesTerm(item.subCategory, term)
  }

  /** `filteredMenuItems` */
  function VisibleItems(items: seq<MenuItem>, term: string): seq<MenuItem> {
    Filter(items, (it: MenuItem) => ItemMatches(it, term))
  }

  /** An entry is shown exactly when the term occurs, ignoring case, in its
      name, category or subcategory. */
  lemma VisibleItemsMeaning(items: seq<MenuItem>, term: string, x: MenuItem)
    ensures x in VisibleItems(items, term) <==>
              x in items && (MatchesTerm(x.products, term) || MatchesTerm(x.category, term)
                             || MatchesTerm(x.subCategory, term))
  {
    FilterMembership(items, (it: MenuItem) => ItemMatches(it, term), x);
  }

  /** An empty search shows the whole list. */
  lemma EmptySearchShowsAll(items: seq<MenuItem>)
    ensures VisibleItems(items, "") == items
  {
    forall i | 0 <= i < |items| ensures ItemMatches(items[i], "") {
      EmptyTermMatches(items[i].products);
    }
    FilterAll(items, (it: MenuItem) => ItemMatches(it, ""));
  }

  /** An entry added from the form has an empty category and subcategory,
      so only a term found in its name shows it. */
  lemma AddedEntryFoundByName(item: MenuItem, term: string)
    requires item.category == "" && item.subCategory == "" && term != ""
    ensures ItemMatches(item, term) <==> MatchesTerm(item.products, term)
  {
  }

  /** The list after `handleDelete(id)`. */
  function WithoutItem(items: seq<MenuItem>, id: int): seq<MenuItem> {
    Filter(items, (it: MenuItem) => it.id != id)
  }

  /** A delete removes exactly the entries with that id and keeps the rest
      in order. */
  lemma WithoutItemMeaning(a: seq<MenuItem>, b: seq<MenuItem>, id: int, x: MenuItem)
    ensures x in WithoutItem(a, id) <==> x in a && x.id != id
    ensures WithoutItem(a + b, id) == WithoutItem(a, id) + WithoutItem(b, id)
  {
    FilterMembership(a, (it: MenuItem) => it.id != id, x);
    FilterConcat(a, b, (it: MenuItem) => it.id != id);
  }

  class MenuScreen {
    var categoryName: string
    var timings: string
    var items: seq<MenuItem>
    var searchTerm: string

    constructor ()
      ensures categoryName == "" && timings == "" && items == [] && searchTerm == ""
    {
      categoryName := "";
      timings := "";
      items := [];
      searchTerm := "";
    }

    /** `handleAdd()` at clock reading now on the day today. With both
        inputs filled an active entry with zero prices and discount is
        appended and the inputs emptied; otherwise nothing changes. */
    method HandleAdd(now: int, today: string)
      modifies this`categoryName, this`timings, this`items
      ensures IsBlank(old(categoryName)) || IsBlank(old(timings)) ==>
                items == old(items) && categoryName == old(categoryName) && timings == old(timings)
      ensures !IsBlank(old(categoryName)) && !IsBlank(old(timings)) ==>
                && items == old(items) + [MenuItem(now, Trim(old(categoryName)), 0, 0, "", "",
                                                   Trim(old(timings)), 0, today, today, Active)]
                && categoryName == "" && timings == ""
    {
      if !IsBlank(categoryName) && !IsBlank(timings) {
        var item := MenuItem(now, Trim(categoryName), 0, 0, "", "", Trim(timings), 0,
                             today, today, Active);
        items := items + [item];
        categoryName := "";
        timings := "";
      }
    }

    /** `handleDelete(id)` */
    method HandleDelete(id: int)
      modifies this`items
      ensures items == WithoutItem(old(items), id)
    {
      items := WithoutItem(items, id);
    }

    /** The search box: the term typed is stored as is, and the table then
        shows the entries that match it, the rest kept unchanged. */
    method SetSearchTerm(term: string)
      modifies this`searchTerm
      ensures searchTerm == term
      ensures Visible() == VisibleItems(items, term)
      ensures items == old(items) && categoryName == old(categoryName) && timings == old(timings)
    {
      searchTerm := term;
    }

    /** The rows the table shows. */
    function Visible(): (r: seq<MenuItem>)
      reads this
      ensures forall i :: 0 <= i < |r| ==> ItemMatches(r[i], searchTerm)
      ensures searchTerm == "" ==> r == items
    {
      EmptySearchShowsAll(items);
      VisibleItems(items, searchTerm)
    }
  }
}
