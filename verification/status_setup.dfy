/** The order-status set-up screen: a local list of statuses with add,
    delete and search, and a colour picker that follows the fixed state
    chosen. The list is never sent anywhere; ids come from the clock and
    order numbers from a random draw, both passed in. */
module StatusSetup {
  import opened Text
  import opened Util

  datatype StatusItem = StatusItem(
    id: int, orderID: string, status: string, fixedDisplay: string, fixedStatus: string,
    mail: bool, sms: bool, canCancel: bool, color: string)

  /** The colour the picker starts from and returns to after an add. */
  const DefaultColor: string := "#dc3545"

  /** `statusColorMap[state]`, for the five predefined fixed states. */
  function MappedColor(state: string): Option<string> {
    if state == "Pending" then Some("#ffc107")
    else if state == "Confirmed" then Some("#17a2b8")
    else if state == "Processing" then Some("#6f42c1")
    else if state == "Completed" then Some("#28a745")
    else if state == "Cancelled" then Some("#dc3545")
    else None
  }

  /** The picker's label: the first state of the map, in its key order,
      whose colour is the one selected, else "Custom". */
  function ColorLabel(color: string): string {
    if color == "#ffc107" then "Pending"
    else if color == "#17a2b8" then "Confirmed"
    else if color == "#6f42c1" then "Processing"
    else if color == "#28a745" then "Completed"
    else if color == "#dc3545" then "Cancelled"
    else "Custom"
  }

  /** The label and the map are inverse: the label of a mapped colour is
      its state, a label other than "Custom" maps back to the colour, and
      "Custom" is shown exactly for colours no state has. */
  lemma ColorLabelMeaning(state: string, color: string)
    ensures MappedColor(state).Some? ==> ColorLabel(MappedColor(state).value) == state
    ensures ColorLabel(color) != "Custom" ==> MappedColor(ColorLabel(color)) == Some(color)
    ensures ColorLabel(color) == "Custom" <==> forall s :: MappedColor(s) != Some(color)
  {
    if ColorLabel(color) != "Custom" {
      assert MappedColor(ColorLabel(color)) == Some(color);
    }
  }

  /** The default colour is the one of the "Cancelled" state. */
  lemma DefaultColorLabel()
    ensures ColorLabel(DefaultColor) == "Cancelled" && MappedColor("Cancelled") == Some(DefaultColor)
  {
  }

  /** Whether the search shows the item. */
  predicate ItemMatches(item: StatusItem, term: string) {
    MatchesTerm(item.status, term) || MatchesTerm(item.fixedDisplay, term)
    || MatchesTerm(item.orderID, term)
  }

  /** `filteredStatusItems` */
  function VisibleItems(items: seq<StatusItem>, term: string): seq<StatusItem> {
    Filter(items, (it: StatusItem) => ItemMatches(it, term))
  }

  /** An item is shown exactly when the term occurs, ignoring case, in its
      status, display name or order id. */
  lemma VisibleItemsMeaning(items: seq<StatusItem>, term: string, x: StatusItem)
    ensures x in VisibleItems(items, term) <==>
              x in items && (MatchesTerm(x.status, term) || MatchesTerm(x.fixedDisplay, term)
                             || MatchesTerm(x.orderID, term))
  {
    FilterMembership(items, (it: StatusItem) => ItemMatches(it, term), x);
  }

  /** An empty search shows the whole list. */
  lemma EmptySearchShowsAll(items: seq<StatusItem>)
    ensures VisibleItems(items, "") == items
  {
    forall i | 0 <= i < |items| ensures ItemMatches(items[i], "") {
      EmptyTermMatches(items[i].status);
    }
    FilterAll(items, (it: StatusItem) => ItemMatches(it, ""));
  }

  /** The list after `handleDelete(id)`. */
  function WithoutItem(items: seq<StatusItem>, id: int): seq<StatusItem> {
    Filter(items, (it: StatusItem) => it.id != id)
  }

  /** A delete removes every item with that id and keeps the rest in
      order. */
  lemma WithoutItemMeaning(a: seq<StatusItem>, b: seq<StatusItem>, id: int, x: StatusItem)
    ensures x in WithoutItem(a, id) <==> x in a && x.id != id
    ensures WithoutItem(a + b, id) == WithoutItem(a, id) + WithoutItem(b, id)
  {
    FilterMembership(a, (it: StatusItem) => it.id != id, x);
    FilterConcat(a, b, (it: StatusItem) => it.id != id);
  }

  class StatusScreen {
    var statusText: string
    var displayName: string
    var fixedState: string
    var orderValue: string
    var selectedColor: string
    var items: seq<StatusItem>
    var searchTerm: string

    /** The picker only ever holds a colour of the map, so its label is
        never "Custom". */
    ghost predicate Valid()
      reads this
    {
      ColorLabel(selectedColor) != "Custom"
    }

    constructor ()
      ensures Valid()
      ensures statusText == "" && displayName == "" && fixedState == "" && orderValue == ""
      ensures selectedColor == DefaultColor && items == [] && searchTerm == ""
    {
      statusText := "";
      displayName := "";
      fixedState := "";
      orderValue := "";
      selectedColor := DefaultColor;
      items := [];
      searchTerm := "";
    }

    /** The fixed-state select, with the effect that follows it: a new
        state of the map selects its colour; an empty, unknown or unchanged
        state keeps the colour. */
    method ChooseFixedState(state: string)
      requires Valid()
      modifies this`fixedState, this`selectedColor
      ensures Valid() && fixedState == state
      ensures state != old(fixedState) && MappedColor(state).Some? ==>
                selectedColor == MappedColor(state).value
      ensures state == old(fixedState) || MappedColor(state).None? ==>
                selectedColor == old(selectedColor)
    {
      var changed := state != fixedState;
      fixedState := state;
      if changed && MappedColor(state).Some? {
        selectedColor := MappedColor(state).value;
        ColorLabelMeaning(state, selectedColor);
      }
    }

    /** A colour chosen in the picker, which lists the map's entries. */
    method PickColor(state: string)
      requires MappedColor(state).Some?
      modifies this`selectedColor
      ensures Valid() && selectedColor == MappedColor(state).value
    {
      selectedColor := MappedColor(state).value;
      ColorLabelMeaning(state, selectedColor);
    }

    /** `handleAdd()` with the clock reading and the random order number.
        With all four inputs filled the item is appended, the inputs
        emptied and the colour reset; otherwise nothing changes. */
    method HandleAdd(now: int, orderNumber: nat)
      requires orderNumber < 10000 && Valid()
      modifies this`statusText, this`displayName, this`fixedState, this`orderValue,
               this`selectedColor, this`items
      ensures Valid()
      ensures IsBlank(old(statusText)) || IsBlank(old(displayName)) || IsBlank(old(fixedState))
              || IsBlank(old(orderValue)) ==>
                items == old(items) && statusText == old(statusText)
                && displayName == old(displayName) && fixedState == old(fixedState)
                && orderValue == old(orderValue) && selectedColor == old(selectedColor)
      ensures !IsBlank(old(statusText)) && !IsBlank(old(displayName)) && !IsBlank(old(fixedState))
              && !IsBlank(old(orderValue)) ==>
                && items == old(items) + [StatusItem(now, "ORD" + NatToString(orderNumber),
                                                     Trim(old(statusText)), Trim(old(displayName)),
                                                     Trim(old(fixedState)), false, false, false,
                                                     old(selectedColor))]
                && statusText == "" && displayName == "" && fixedState == "" && orderValue == ""
                && selectedColor == DefaultColor
    {
      if !IsBlank(statusText) && !IsBlank(displayName) && !IsBlank(fixedState)
         && !IsBlank(orderValue) {
        var item := StatusItem(now, "ORD" + NatToString(orderNumber), Trim(statusText),
                               Trim(displayName), Trim(fixedState), false, false, false,
                               selectedColor);
        items := items + [item];
        statusText := "";
        displayName := "";
        fixedState := "";
        orderValue := "";
        selectedColor := DefaultColor;
      }
    }

    /** `handleDelete(id)` */
    method HandleDelete(id: int)
      modifies this`items
      ensures items == WithoutItem(old(items), id)
    {
      items := WithoutItem(items, id);
    }

    /** The search box: the term typed is stored as is, and the table then
        shows the rows that match it. */
    method SetSearchTerm(term: string)
      modifies this`searchTerm
      ensures searchTerm == term
      ensures Visible() == VisibleItems(items, term)
    {
      searchTerm := term;
    }

    /** The rows the table shows. */
    function Visible(): (r: seq<StatusItem>)
      reads this
      ensures forall i :: 0 <= i < |r| ==> ItemMatches(r[i], searchTerm)
      ensures searchTerm == "" ==> r == items
    {
      EmptySearchShowsAll(items);
      VisibleItems(items, searchTerm)
    }
  }
}
