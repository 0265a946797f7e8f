/** The point-of-sale screen: the items of the selected cuisine, normalised
    from raw backend records and split into a veg and a non-veg column, and
    the cart the cashier fills from them. Prices are whole numbers (minor
    units). */
module Pos {
  import opened Text
  import opened Util
  import opened JsValue
  import opened PosSubcategory

  datatype ItemType = Veg | NonVeg

  datatype Item = Item(id: int, name: string, price: int, category: string,
                       rawType: Value, itemType: Option<ItemType>, isVeg: bool)

  /** The item type normalised from `item_type ?? type ?? null`. Strings are
      compared lower-cased: any spelling of "non" marks non-veg and wins over
      "veg"; otherwise "veg" anywhere or exactly "v" marks veg. The numbers
      1 and 0 mean veg and non-veg. Everything else has no type. */
  function TypeOf(raw: Value): Option<ItemType> {
    if IsNullish(raw) then None
    else if raw.Str? then
      var lower := Lower(raw.s);
      if Contains(lower, "non") || Contains(lower, "non-veg")
         || Contains(lower, "non veg") || Contains(lower, "nonveg")
      then Some(NonVeg)
      else if Contains(lower, "veg") || lower == "v" then Some(Veg)
      else None
    else if raw.Num? then
      if raw.n == 1 then Some(Veg) else if raw.n == 0 then Some(NonVeg) else None
    else None
  }

  /** The three longer non-veg spellings all contain "non", so a string is
      non-veg exactly when its lower-cased form contains "non", and veg
      exactly when it does not but contains "veg" or is "v". */
  lemma TypeOfMeaning(raw: Value)
    ensures raw.Str? ==>
              (TypeOf(raw) == Some(NonVeg) <==> Contains(Lower(raw.s), "non"))
    ensures raw.Str? ==>
              (TypeOf(raw) == Some(Veg) <==>
                 !Contains(Lower(raw.s), "non")
                 && (Contains(Lower(raw.s), "veg") || Lower(raw.s) == "v"))
    ensures raw.Num? ==> (TypeOf(raw) == Some(Veg) <==> raw.n == 1)
    ensures raw.Num? ==> (TypeOf(raw) == Some(NonVeg) <==> raw.n == 0)
    ensures !raw.Str? && !raw.Num? ==> TypeOf(raw) == None
  {
    if raw.Str? {
      var lower := Lower(raw.s);
      if Contains(lower, "non-veg") {
        assert "non" + "-veg" == "non-veg";
        ContainsPrefix(lower, "non", "-veg");
      }
      if Contains(lower, "non veg") {
        assert "non" + " veg" == "non veg";
        ContainsPrefix(lower, "non", " veg");
      }
      if Contains(lower, "nonveg") {
        assert "non" + "veg" == "nonveg";
        ContainsPrefix(lower, "non", "veg");
      }
    }
  }

  /** "Non-Veg" is non-veg even though it also contains "veg". */
  lemma NonVegSpellingWins()
    ensures TypeOf(Str("Non-Veg")) == Some(NonVeg)
  {
    var lower := Lower("Non-Veg");
    assert lower[0..3] == "non";
    assert OccursAt(lower, "non", 0);
  }

  /** `Number(it.price ?? it.selling_price ?? it.cost ?? 0) || 0` */
  function PriceOf(it: Value): (p: int)
    ensures var n := ToNumber(Coalesce(Coalesce(Coalesce(Get(it, "price"), Get(it, "selling_price")),
                                                Get(it, "cost")), Num(0)));
            (n.Num? ==> p == n.n) && (n.NaN? ==> p == 0)
  {
    var n := ToNumber(Coalesce(Coalesce(Coalesce(Get(it, "price"), Get(it, "selling_price")),
                                        Get(it, "cost")), Num(0)));
    if Truthy(n) then n.n else 0
  }

  /** `??` skips only absent fields: the first of price, selling_price and
      cost that is present decides the price, even when it is not a
      number, in which case the price is 0 whatever the later fields hold.
      A digit string is read as its value, and a record with none of the
      three costs 0. */
  lemma PriceOfPrecedence(it: Value, n: int, s: string)
    ensures Get(it, "price") == Num(n) ==> PriceOf(it) == n
    ensures IsNullish(Get(it, "price")) && Get(it, "selling_price") == Num(n) ==> PriceOf(it) == n
    ensures IsNullish(Get(it, "price")) && IsNullish(Get(it, "selling_price")) && Get(it, "cost") == Num(n) ==>
              PriceOf(it) == n
    ensures !IsNullish(Get(it, "price")) && ToNumber(Get(it, "price")).NaN? ==> PriceOf(it) == 0
    ensures Get(it, "price") == Str(s) && AllDigits(Trim(s)) && !IsBlank(s) ==> PriceOf(it) == DigitsValue(Trim(s))
    ensures IsNullish(Get(it, "price")) && IsNullish(Get(it, "selling_price")) && IsNullish(Get(it, "cost")) ==>
              PriceOf(it) == 0
    ensures !it.Obj? ==> PriceOf(it) == 0
  {
  }

  /** The item built for the raw record it at position idx. */
  function ItemOf(it: Value, idx: nat): (r: Item)
    ensures r.id != 0
    ensures r.isVeg <==> r.itemType == Some(Veg)
    ensures r.itemType == TypeOf(r.rawType)
  {
    var raw := Coalesce(Coalesce(Get(it, "item_type"), Get(it, "type")), Null);
    var name := FirstString(it, ["name", "title", "item_name"]);
    var category := FirstString(it, ["category", "category_name", "group"]);
    var t := TypeOf(raw);
    Item(PositionalId(Get(it, "id"), idx),
         if name.Some? then name.value else "",
         PriceOf(it),
         if category.Some? then category.value else "",
         raw, t, t == Some(Veg))
  }

  /** `list.map(ItemOf)`, or `None` when reading a property of a `null` or
      `undefined` element throws. */
  function NormaliseItems(list: seq<Value>): (r: Option<seq<Item>>)
    ensures r.None? <==> exists i :: 0 <= i < |list| && IsNullish(list[i])
    ensures r.Some? ==> |r.value| == |list|
                        && forall i :: 0 <= i < |list| ==> r.value[i] == ItemOf(list[i], i)
  {
    if exists i :: 0 <= i < |list| && IsNullish(list[i]) then None
    else Some(seq(|list|, i requires 0 <= i < |list| => ItemOf(list[i], i)))
  }

  predicate IsVegItem(it: Item) { it.itemType == Some(Veg) }
  predicate IsNonVegItem(it: Item) { it.itemType == Some(NonVeg) }

  /** The veg column. */
  function VegItems(items: seq<Item>): seq<Item> {
    Filter(items, IsVegItem)
  }

  /** The non-veg column. */
  function NonVegItems(items: seq<Item>): seq<Item> {
    Filter(items, IsNonVegItem)
  }

  /** An item is shown in the veg column exactly when it is veg, in the
      non-veg column exactly when it is non-veg, so never in both, and an
      item without a type in neither. */
  lemma PartitionMembership(items: seq<Item>, x: Item)
    ensures x in VegItems(items) <==> x in items && x.isVeg
    ensures x in NonVegItems(items) <==> x in items && x.itemType == Some(NonVeg)
    ensures !(x in VegItems(items) && x in NonVegItems(items))
    ensures x.itemType == None ==> x !in VegItems(items) && x !in NonVegItems(items)
    requires x.isVeg <==> x.itemType == Some(Veg)
  {
    FilterMembership(items, IsVegItem, x);
    FilterMembership(items, IsNonVegItem, x);
  }

  /** Both columns keep the list order: the column of a list split in two
      is the column of the first part followed by that of the second. */
  lemma PartitionKeepsOrder(a: seq<Item>, b: seq<Item>)
    ensures VegItems(a + b) == VegItems(a) + VegItems(b)
    ensures NonVegItems(a + b) == NonVegItems(a) + NonVegItems(b)
  {
    FilterConcat(a, b, IsVegItem);
    FilterConcat(a, b, IsNonVegItem);
  }

  /** A cart entry: the item it was added from and how many of it. */
  datatype CartLine = CartLine(item: Item, quantity: int)

  predicate InCart(lines: seq<CartLine>, id: int) {
    exists i :: 0 <= i < |lines| && lines[i].item.id == id
  }

  /** What the cart always satisfies: no id twice, every quantity at least 1. */
  predicate CartInvariant(lines: seq<CartLine>) {
    && (forall i, j :: 0 <= i < j < |lines| ==> lines[i].item.id != lines[j].item.id)
    && (forall i :: 0 <= i < |lines| ==> lines[i].quantity >= 1)
  }

  /** The cart after `handleAddToCart(item)`. */
  function WithItemAdded(lines: seq<CartLine>, item: Item): seq<CartLine> {
    if InCart(lines, item.id) then
      Map(lines, (l: CartLine) => if l.item.id == item.id then l.(quantity := l.quantity + 1) else l)
    else lines + [CartLine(item, 1)]
  }

  /** Adding an item already in a valid cart increments that one entry and
      changes nothing else; adding a new item appends it with quantity 1. */
  lemma WithItemAddedMeaning(lines: seq<CartLine>, item: Item, k: nat)
    requires CartInvariant(lines)
    ensures k < |lines| && lines[k].item.id == item.id ==>
              WithItemAdded(lines, item) == lines[k := lines[k].(quantity := lines[k].quantity + 1)]
    ensures !InCart(lines, item.id) ==> WithItemAdded(lines, item) == lines + [CartLine(item, 1)]
  {
    if k < |lines| && lines[k].item.id == item.id {
      var r := WithItemAdded(lines, item);
      var e := lines[k := lines[k].(quantity := lines[k].quantity + 1)];
      assert |r| == |e|;
      forall i | 0 <= i < |r| ensures r[i] == e[i] {
        if i != k {
          assert lines[i].item.id != item.id;
        }
      }
    }
  }

  lemma WithItemAddedKeepsInvariant(lines: seq<CartLine>, item: Item)
    requires CartInvariant(lines)
    ensures CartInvariant(WithItemAdded(lines, item))
  {
    var r := WithItemAdded(lines, item);
    if !InCart(lines, item.id) {
      forall i, j | 0 <= i < j < |r| ensures r[i].item.id != r[j].item.id {
        if j == |lines| {
          assert r[i] == lines[i];
        }
      }
    }
  }

  /** The cart after `updateQuantity(id, n)` with n <= 0. */
  function WithoutItem(lines: seq<CartLine>, id: int): seq<CartLine> {
    Filter(lines, (l: CartLine) => l.item.id != id)
  }

  /** The cart after `updateQuantity(id, n)` with n > 0. */
  function WithQuantity(lines: seq<CartLine>, id: int, n: int): seq<CartLine> {
    Map(lines, (l: CartLine) => if l.item.id == id then l.(quantity := n) else l)
  }

  /** Removing an id drops exactly the entries with that id, keeps the
      others in their order, and keeps the cart valid. */
  lemma WithoutItemMeaning(lines: seq<CartLine>, id: int, x: CartLine)
    ensures x in WithoutItem(lines, id) <==> x in lines && x.item.id != id
    ensures !InCart(WithoutItem(lines, id), id)
    ensures CartInvariant(lines) ==> CartInvariant(WithoutItem(lines, id))
  {
    var p := (l: CartLine) => l.item.id != id;
    FilterMembership(lines, p, x);
    if CartInvariant(lines) {
      WithoutItemKeepsInvariant(lines, id);
    }
  }

  lemma {:induction false} WithoutItemKeepsInvariant(lines: seq<CartLine>, id: int)
    requires CartInvariant(lines)
    ensures CartInvariant(WithoutItem(lines, id))
  {
    if lines != [] {
      var p := (l: CartLine) => l.item.id != id;
      var rest := WithoutItem(lines[1..], id);
      WithoutItemKeepsInvariant(lines[1..], id);
      if p(lines[0]) {
        assert WithoutItem(lines, id) == [lines[0]] + rest;
        forall x | x in rest ensures x.item.id != lines[0].item.id {
          FilterMembership(lines[1..], p, x);
          var j :| 0 <= j < |lines[1..]| && lines[1..][j] == x;
          assert lines[j + 1] == x;
        }
      }
    }
  }

  /** Setting a positive quantity changes only the quantity of the entries
      with that id, keeps ids and order, and keeps the cart valid. */
  lemma WithQuantityMeaning(lines: seq<CartLine>, id: int, n: int)
    ensures var r := WithQuantity(lines, id, n);
            && |r| == |lines|
            && (forall i :: 0 <= i < |r| ==> r[i].item == lines[i].item)
            && (forall i :: 0 <= i < |r| && lines[i].item.id == id ==> r[i].quantity == n)
            && (forall i :: 0 <= i < |r| && lines[i].item.id != id ==> r[i] == lines[i])
    ensures CartInvariant(lines) && n >= 1 ==> CartInvariant(WithQuantity(lines, id, n))
  {
  }

  /** `cartItems.reduce((total, item) => total + item.price * item.quantity, 0)`,
      folding from the left as `reduce` does. */
  function Total(lines: seq<CartLine>): int {
    if lines == [] then 0
    else Total(lines[..|lines| - 1]) + Amount(lines[|lines| - 1])
  }

  function Amount(l: CartLine): int {
    l.item.price * l.quantity
  }

  /** The usual sum from the front, for comparison. */
  function Sum(lines: seq<CartLine>): int {
    if lines == [] then 0 else Amount(lines[0]) + Sum(lines[1..])
  }

  /** The left fold is the sum of price times quantity over the cart. */
  lemma {:induction false} TotalIsSum(lines: seq<CartLine>)
    ensures Total(lines) == Sum(lines)
  {
    if lines != [] {
      var init := lines[..|lines| - 1];
      TotalIsSum(init);
      SumSnoc(init, lines[|lines| - 1]);
      assert init + [lines[|lines| - 1]] == lines;
    }
  }

  lemma {:induction false} SumSnoc(lines: seq<CartLine>, l: CartLine)
    ensures Sum(lines + [l]) == Sum(lines) + Amount(l)
  {
    if lines != [] {
      assert (lines + [l])[1..] == lines[1..] + [l];
      SumSnoc(lines[1..], l);
    }
  }

  /** Changing one entry changes the total by that entry's difference. */
  lemma {:induction false} TotalOneChanged(a: seq<CartLine>, b: seq<CartLine>, k: nat)
    requires |a| == |b| && k < |a|
    requires forall i :: 0 <= i < |a| && i != k ==> a[i] == b[i]
    ensures Total(b) == Total(a) - Amount(a[k]) + Amount(b[k])
  {
    var m := |a| - 1;
    if k == m {
      assert a[..m] == b[..m];
    } else {
      TotalOneChanged(a[..m], b[..m], k);
    }
  }

  /** Appending an entry adds its amount to the total. */
  lemma TotalSnoc(lines: seq<CartLine>, l: CartLine)
    ensures Total(lines + [l]) == Total(lines) + Amount(l)
  {
    assert (lines + [l])[..|lines|] == lines;
  }

  /** Giving the entry at k the quantity q changes the total by its price
      times the change in quantity. */
  lemma TotalRequantified(lines: seq<CartLine>, k: nat, q: int, r: seq<CartLine>)
    requires k < |lines| && r == lines[k := lines[k].(quantity := q)]
    ensures Total(r) == Total(lines) + lines[k].item.price * (q - lines[k].quantity)
  {
    TotalOneChanged(lines, r, k);
    assert Amount(r[k]) - Amount(lines[k]) == lines[k].item.price * (q - lines[k].quantity) by {
      Distribute(lines[k].item.price, q, lines[k].quantity);
    }
  }

  lemma Distribute(p: int, a: int, b: int)
    ensures p * a - p * b == p * (a - b)
  {
  }

  /** With the id at k unique, setting its quantity replaces that entry alone. */
  lemma WithQuantityAt(lines: seq<CartLine>, k: nat, n: int)
    requires k < |lines|
    requires forall i :: 0 <= i < |lines| && i != k ==> lines[i].item.id != lines[k].item.id
    ensures WithQuantity(lines, lines[k].item.id, n) == lines[k := lines[k].(quantity := n)]
  {
  }

  /** Adding an item already in the cart at k raises the total by the
      price recorded there. */
  lemma TotalAfterIncrement(lines: seq<CartLine>, item: Item, k: nat, r: seq<CartLine>)
    requires CartInvariant(lines) && k < |lines| && lines[k].item.id == item.id
    requires r == WithItemAdded(lines, item)
    ensures Total(r) == Total(lines) + lines[k].item.price
  {
    WithItemAddedMeaning(lines, item, k);
    TotalRequantified(lines, k, lines[k].quantity + 1, r);
  }

  /** Adding an item raises the total by one unit of its price: the price
      recorded in the cart when it is already there, its own otherwise. */
  lemma TotalAfterAdd(lines: seq<CartLine>, item: Item, k: nat)
    requires CartInvariant(lines)
    ensures k < |lines| && lines[k].item.id == item.id ==>
              Total(WithItemAdded(lines, item)) == Total(lines) + lines[k].item.price
    ensures !InCart(lines, item.id) ==>
              Total(WithItemAdded(lines, item)) == Total(lines) + item.price
  {
    if k < |lines| && lines[k].item.id == item.id {
      TotalAfterIncrement(lines, item, k, WithItemAdded(lines, item));
    } else if !InCart(lines, item.id) {
      TotalSnoc(lines, CartLine(item, 1));
    }
  }

  /** Setting the quantity of the entry at k to n > 0 changes the total by
      its price times the change in quantity. */
  lemma TotalAfterSet(lines: seq<CartLine>, k: nat, n: int)
    requires CartInvariant(lines) && k < |lines|
    ensures Total(WithQuantity(lines, lines[k].item.id, n))
            == Total(lines) + lines[k].item.price * (n - lines[k].quantity)
  {
    WithQuantityAt(lines, k, n);
    TotalRequantified(lines, k, n, WithQuantity(lines, lines[k].item.id, n));
  }

  /** The screen's state: the selected cuisine, its items, the load status
      and the cart. */
  class PosScreen {
    var selected: Option<Cuisine>
    var items: seq<Item>
    var itemsLoading: bool
    var itemsError: Option<string>
    var cart: seq<CartLine>

    ghost predicate Valid()
      reads this
    {
      CartInvariant(cart)
    }

    constructor ()
      ensures Valid()
      ensures selected == None && items == [] && !itemsLoading && itemsError == None && cart == []
    {
      selected := None;
      items := [];
      itemsLoading := false;
      itemsError := None;
      cart := [];
    }

    /** `handleCuisineSelect`, the callback the cuisine bar reports to. */
    method SelectCuisine(c: Option<Cuisine>)
      modifies this`selected
      ensures selected == c
    {
      selected := c;
    }

    /** Loading the items of the selected cuisine. Without a selection the
        list is emptied; a failed request keeps the previous items and
        stores the error message. */
    method LoadItems(response: Outcome)
      modifies this`items, this`itemsLoading, this`itemsError
      ensures selected.None? ==>
                items == [] && itemsLoading == old(itemsLoading) && itemsError == old(itemsError)
      ensures selected.Some? ==> !itemsLoading
      ensures selected.Some? && response.Resolved?
              && NormaliseItems(ArrayOrResults(response.data)).Some? ==>
                items == NormaliseItems(ArrayOrResults(response.data)).value && itemsError == None
      ensures selected.Some? && response.Resolved?
              && NormaliseItems(ArrayOrResults(response.data)).None? ==>
                var bad := FirstNullish(ArrayOrResults(response.data));
                && items == old(items) && bad.Some?
                && itemsError == Some(ReadPropertyError(bad.value, "item_type"))
      ensures selected.Some? && response.Rejected? ==>
                items == old(items)
                && itemsError == Some(MessageOr(response.error, "Failed to load items"))
    {
      if selected.None? {
        items := [];
        return;
      }
      itemsLoading := true;
      itemsError := None;
      match response {
        case Resolved(data) =>
          var normalised := NormaliseItems(ArrayOrResults(data));
          if normalised.Some? {
            items := normalised.value;
          } else {
            var bad := FirstNullish(ArrayOrResults(data));
            var message := ReadPropertyError(bad.value, "item_type");
            ThrownMeaning(bad.value, "item_type", "Failed to load items");
            itemsError := Some(MessageOr(Thrown(message), "Failed to load items"));
          }
        case Rejected(e) =>
          itemsError := Some(MessageOr(e, "Failed to load items"));
      }
      itemsLoading := false;
    }

    /** `handleAddToCart(item)` */
    method AddToCart(item: Item)
      requires Valid()
      modifies this`cart
      ensures Valid()
      ensures cart == WithItemAdded(old(cart), item)
    {
      WithItemAddedKeepsInvariant(cart, item);
      cart := WithItemAdded(cart, item);
    }

    /** `updateQuantity(id, n)` */
    method UpdateQuantity(id: int, n: int)
      requires Valid()
      modifies this`cart
      ensures Valid()
      ensures n <= 0 ==> cart == WithoutItem(old(cart), id)
      ensures n > 0 ==> cart == WithQuantity(old(cart), id, n)
    {
      if n <= 0 {
        WithoutItemKeepsInvariant(cart, id);
        cart := WithoutItem(cart, id);
      } else {
        WithQuantityMeaning(cart, id, n);
        cart := WithQuantity(cart, id, n);
      }
    }

    /** `getTotalPrice()` */
    function TotalPrice(): (t: int)
      reads this
      ensures cart == [] ==> t == 0
      ensures t == Sum(cart)
    {
      TotalIsSum(cart);
      Total(cart)
    }
  }
}
