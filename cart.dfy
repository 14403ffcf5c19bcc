/** The shopping cart of the Android app
    (app/src/main/java/com/example/uinavegacion/viewmodel/CartViewModel.kt):
    a list of items, at most one per game id, each with a quantity between
    1 and the stock known when it was added, plus the last error and
    success messages shown to the user. */
module Cart {
  import opened Wrappers
  import opened Text

  /** Prices are carried, never computed with. */
  datatype CartItem = CartItem(
    id: string, remoteId: Option<string>, name: string, price: real,
    quantity: int, imageUrl: string, originalPrice: Option<real>,
    discount: int, maxStock: int)
  {
    predicate HasDiscount() { discount > 0 && originalPrice.Some? }
  }

  /** The cart invariant: one item per id, and every quantity within
      1 and that item's stock. */
  predicate UniqueIds(items: seq<CartItem>) {
    forall i, j :: 0 <= i < j < |items| ==> items[i].id != items[j].id
  }

  predicate ItemsValid(items: seq<CartItem>) {
    && UniqueIds(items)
    && (forall i :: 0 <= i < |items| ==> 1 <= items[i].quantity <= items[i].maxStock)
  }

  /** `indexOfFirst { it.id == id }`: the first position holding `id`, or -1. */
  function IndexOf(items: seq<CartItem>, id: string): (r: int)
    ensures -1 <= r < |items|
    ensures r >= 0 ==> items[r].id == id && forall j :: 0 <= j < r ==> items[j].id != id
    ensures r == -1 <==> forall j :: 0 <= j < |items| ==> items[j].id != id
  {
    if items == [] then -1
    else if items[0].id == id then 0
    else
      var k := IndexOf(items[1..], id);
      assert forall j :: 1 <= j < |items| ==> items[j] == items[1..][j - 1];
      if k == -1 then -1 else k + 1
  }

  /** `any { it.id == gameId }`. */
  predicate InCart(items: seq<CartItem>, id: string) {
    exists i :: 0 <= i < |items| && items[i].id == id
  }

  /** `find { it.id == gameId }?.quantity ?: 0`. */
  function QuantityOf(items: seq<CartItem>, id: string): int {
    var i := IndexOf(items, id);
    if i < 0 then 0 else items[i].quantity
  }

  /** `filter { it.id != id }`. */
  function Without(items: seq<CartItem>, id: string): (r: seq<CartItem>)
    ensures |r| <= |items|
  {
    if items == [] then []
    else (if items[0].id == id then [] else [items[0]]) + Without(items[1..], id)
  }

  /** `map { if (it.id == id) it.copy(quantity = n) else it }`. */
  function WithQuantity(items: seq<CartItem>, id: string, n: int): (r: seq<CartItem>)
    ensures |r| == |items|
    ensures forall i :: 0 <= i < |r| ==>
      r[i] == if items[i].id == id then items[i].(quantity := n) else items[i]
  {
    if items == [] then []
    else
      var head := if items[0].id == id then items[0].(quantity := n) else items[0];
      [head] + WithQuantity(items[1..], id, n)
  }

  /** `sumOf { it.quantity }`. */
  function TotalItems(items: seq<CartItem>): int {
    if items == [] then 0 else items[0].quantity + TotalItems(items[1..])
  }

  function StockMessage(maxStock: int): string {
    "Solo hay " + IntToString(maxStock) + " unidades disponibles"
  }

  const SOLD_OUT := "Este producto está agotado"
  const QUANTITY_UPDATED := "✓ Cantidad actualizada en el carrito"

  function AddedMessage(name: string): string {
    "✓ " + name + " agregado al carrito"
  }

  // ----- lemmas -----

  lemma InCartIndex(items: seq<CartItem>, id: string)
    ensures InCart(items, id) <==> IndexOf(items, id) >= 0
  {
  }

  /** In a valid cart, a game's quantity is 0 exactly when it is not in the cart. */
  lemma QuantityZeroIffAbsent(items: seq<CartItem>, id: string)
    requires ItemsValid(items)
    ensures QuantityOf(items, id) == 0 <==> !InCart(items, id)
  {
    InCartIndex(items, id);
  }

  /** `removeGame` keeps exactly the items with another id. */
  lemma {:induction false} WithoutMembers(items: seq<CartItem>, id: string)
    ensures forall x :: x in Without(items, id) <==> x in items && x.id != id
  {
    if items != [] {
      WithoutMembers(items[1..], id);
      assert items == [items[0]] + items[1..];
    }
  }

  lemma {:induction false} WithoutAbsent(items: seq<CartItem>, id: string)
    requires forall j :: 0 <= j < |items| ==> items[j].id != id
    ensures Without(items, id) == items
  {
    if items != [] {
      WithoutAbsent(items[1..], id);
      assert Without(items, id) == [items[0]] + Without(items[1..], id);
      assert items == [items[0]] + items[1..];
    }
  }

  /** With unique ids, removing an id drops exactly the item at its index
      and keeps the others in order. */
  lemma {:induction false} WithoutUnique(items: seq<CartItem>, id: string)
    requires UniqueIds(items)
    ensures IndexOf(items, id) == -1 ==> Without(items, id) == items
    ensures IndexOf(items, id) >= 0 ==>
      Without(items, id) == items[..IndexOf(items, id)] + items[IndexOf(items, id) + 1..]
  {
    if IndexOf(items, id) == -1 {
      WithoutAbsent(items, id);
    } else {
      var tail := items[1..];
      UniqueIdsTail(items);
      if items[0].id == id {
        WithoutAbsent(tail, id);
        assert Without(items, id) == Without(tail, id);
      } else {
        WithoutUnique(tail, id);
        var k := IndexOf(tail, id);
        assert Without(items, id) == [items[0]] + Without(tail, id);
        assert IndexOf(items, id) == k + 1;
        assert items[..k + 1] == [items[0]] + tail[..k];
        assert items[k + 2..] == tail[k + 1..];
      }
    }
  }

  /** The ids after the first are unique and differ from the first. */
  lemma UniqueIdsTail(items: seq<CartItem>)
    requires UniqueIds(items) && items != []
    ensures UniqueIds(items[1..])
    ensures forall j :: 0 <= j < |items[1..]| ==> items[1..][j].id != items[0].id
  {
    var tail := items[1..];
    assert forall j :: 0 <= j < |tail| ==> tail[j] == items[j + 1];
  }

  /** With unique ids, resetting the quantity of a present id changes that
      one item. */
  lemma WithQuantityUnique(items: seq<CartItem>, id: string, n: int)
    requires UniqueIds(items)
    requires IndexOf(items, id) >= 0
    ensures WithQuantity(items, id, n)
      == items[IndexOf(items, id) := items[IndexOf(items, id)].(quantity := n)]
  {
  }

  lemma {:induction false} TotalConcat(a: seq<CartItem>, b: seq<CartItem>)
    ensures TotalItems(a + b) == TotalItems(a) + TotalItems(b)
  {
    if a == [] {
      assert a + b == b;
    } else {
      assert (a + b)[1..] == a[1..] + b;
      TotalConcat(a[1..], b);
    }
  }

  lemma TotalSplit(items: seq<CartItem>, i: int)
    requires 0 <= i < |items|
    ensures TotalItems(items) == TotalItems(items[..i]) + items[i].quantity + TotalItems(items[i + 1..])
  {
    assert items == items[..i] + ([items[i]] + items[i + 1..]);
    TotalConcat(items[..i], [items[i]] + items[i + 1..]);
    TotalConcat([items[i]], items[i + 1..]);
  }

  /** Replacing one item changes the total by the difference of quantities. */
  lemma TotalUpdate(items: seq<CartItem>, i: int, x: CartItem)
    requires 0 <= i < |items|
    ensures TotalItems(items[i := x]) == TotalItems(items) - items[i].quantity + x.quantity
  {
    TotalSplit(items, i);
    TotalSplit(items[i := x], i);
    assert items[i := x][..i] == items[..i];
    assert items[i := x][i + 1..] == items[i + 1..];
  }

  /** Removing an id from a valid cart takes its quantity off the total. */
  lemma TotalWithout(items: seq<CartItem>, id: string)
    requires ItemsValid(items)
    ensures TotalItems(Without(items, id)) == TotalItems(items) - QuantityOf(items, id)
  {
    WithoutUnique(items, id);
    var i := IndexOf(items, id);
    if i >= 0 {
      TotalSplit(items, i);
      TotalConcat(items[..i], items[i + 1..]);
    }
  }

  lemma WithoutValid(items: seq<CartItem>, id: string)
    requires ItemsValid(items)
    ensures ItemsValid(Without(items, id))
  {
    WithoutUnique(items, id);
    var i := IndexOf(items, id);
    if i >= 0 {
      var r := items[..i] + items[i + 1..];
      assert forall k :: 0 <= k < |r| ==> r[k] == items[if k < i then k else k + 1];
    }
  }

  /** Setting one item's quantity within 1 and its stock keeps the cart valid. */
  lemma WithQuantityAtValid(items: seq<CartItem>, i: int, n: int)
    requires ItemsValid(items) && 0 <= i < |items|
    requires 1 <= n <= items[i].maxStock
    ensures ItemsValid(items[i := items[i].(quantity := n)])
  {
    var r := items[i := items[i].(quantity := n)];
    assert forall k :: 0 <= k < |r| ==> r[k].id == items[k].id && r[k].maxStock == items[k].maxStock;
  }

  /** A valid cart holds at least as many units as it has items. */
  lemma {:induction false} TotalAtLeastSize(items: seq<CartItem>)
    requires ItemsValid(items)
    ensures TotalItems(items) >= |items|
  {
    if items != [] {
      TotalAtLeastSize(items[1..]);
    }
  }

  class CartViewModel {
    var items: seq<CartItem>
    var errorMessage: Option<string>
    var successMessage: Option<string>

    ghost predicate Valid()
      reads this
    {
      ItemsValid(items)
    }

    constructor ()
      ensures Valid() && items == [] && errorMessage.None? && successMessage.None?
    {
      items := [];
      errorMessage := None;
      successMessage := None;
    }

    /** `addGame`: one more unit of a game already in the cart, bounded by
        the stock stored with it, or a new item with quantity 1 at the end
        when the given stock is positive. */
    method AddGame(id: string, remoteId: Option<string>, name: string, price: real,
                   imageUrl: string, originalPrice: Option<real>, discount: int, maxStock: int)
      returns (ok: bool)
      requires Valid()
      modifies this
      ensures Valid()
      ensures var i := IndexOf(old(items), id);
        if i >= 0 then
          var existing := old(items)[i];
          if existing.quantity + 1 > existing.maxStock then
            && !ok && items == old(items)
            && errorMessage == Some(StockMessage(existing.maxStock)) && successMessage.None?
          else
            && ok && items == old(items)[i := existing.(quantity := existing.quantity + 1)]
            && errorMessage.None? && successMessage == Some(QUANTITY_UPDATED)
        else if maxStock <= 0 then
          && !ok && items == old(items)
          && errorMessage == Some(SOLD_OUT) && successMessage.None?
        else
          && ok
          && items == old(items) + [CartItem(id, remoteId, name, price, 1, imageUrl,
                                             originalPrice, discount, maxStock)]
          && errorMessage.None? && successMessage == Some(AddedMessage(name))
      ensures ok ==> TotalItems(items) == TotalItems(old(items)) + 1
      ensures !ok ==> items == old(items)
    {
      var currentItems := items;
      var existingIndex := IndexOf(currentItems, id);
      if existingIndex >= 0 {
        var existingItem := currentItems[existingIndex];
        var newQuantity := existingItem.quantity + 1;
        if newQuantity > existingItem.maxStock {
          errorMessage := Some(StockMessage(existingItem.maxStock));
          successMessage := None;
          return false;
        }
        currentItems := currentItems[existingIndex := existingItem.(quantity := newQuantity)];
        TotalUpdate(items, existingIndex, existingItem.(quantity := newQuantity));
        successMessage := Some(QUANTITY_UPDATED);
      } else {
        if maxStock <= 0 {
          errorMessage := Some(SOLD_OUT);
          successMessage := None;
          return false;
        }
        var item := CartItem(id, remoteId, name, price, 1, imageUrl, originalPrice, discount, maxStock);
        currentItems := currentItems + [item];
        TotalConcat(items, [item]);
        successMessage := Some(AddedMessage(name));
      }
      items := currentItems;
      errorMessage := None;
      return true;
    }

    /** `removeGame`: every item with that id dropped, the rest in order. */
    method RemoveGame(id: string)
      requires Valid()
      modifies this
      ensures Valid()
      ensures items == Without(old(items), id)
      ensures forall x :: x in items <==> x in old(items) && x.id != id
      ensures TotalItems(items) == TotalItems(old(items)) - QuantityOf(old(items), id)
      ensures errorMessage == old(errorMessage) && successMessage == old(successMessage)
    {
      WithoutMembers(items, id);
      WithoutValid(items, id);
      TotalWithout(items, id);
      items := Without(items, id);
    }

    /** `updateQuantity`: a non-positive quantity removes the game; otherwise
        the game must be in the cart and the quantity within its stock. */
    method UpdateQuantity(id: string, newQuantity: int) returns (ok: bool)
      requires Valid()
      modifies this
      ensures Valid()
      ensures newQuantity <= 0 ==>
        ok && items == Without(old(items), id) && errorMessage == old(errorMessage)
      ensures newQuantity > 0 && !InCart(old(items), id) ==>
        !ok && items == old(items) && errorMessage == old(errorMessage)
      ensures var i := IndexOf(old(items), id);
        newQuantity > 0 && i >= 0 && newQuantity > old(items)[i].maxStock ==>
          !ok && items == old(items) && errorMessage == Some(StockMessage(old(items)[i].maxStock))
      ensures var i := IndexOf(old(items), id);
        newQuantity > 0 && i >= 0 && newQuantity <= old(items)[i].maxStock ==>
          && ok && items == old(items)[i := old(items)[i].(quantity := newQuantity)]
          && errorMessage.None?
          && TotalItems(items) == TotalItems(old(items)) - old(items)[i].quantity + newQuantity
      ensures successMessage == old(successMessage)
    {
      if newQuantity <= 0 {
        RemoveGame(id);
        return true;
      }
      var i := IndexOf(items, id);
      InCartIndex(items, id);
      if i < 0 {
        return false;
      }
      var item := items[i];
      if newQuantity > item.maxStock {
        errorMessage := Some(StockMessage(item.maxStock));
        return false;
      }
      WithQuantityUnique(items, id, newQuantity);
      TotalUpdate(items, i, item.(quantity := newQuantity));
      WithQuantityAtValid(items, i, newQuantity);
      items := WithQuantity(items, id, newQuantity);
      errorMessage := None;
      return true;
    }

    method ClearCart()
      modifies this
      ensures items == []
      ensures errorMessage == old(errorMessage) && successMessage == old(successMessage)
    {
      items := [];
    }

    function GetTotalItems(): (n: int)
      reads this
      requires Valid()
      ensures n == TotalItems(items) && n >= |items|
    {
      TotalAtLeastSize(items);
      TotalItems(items)
    }

    /** `isInCart`. */
    predicate IsInCart(gameId: string): (b: bool)
      reads this
      ensures b <==> IndexOf(items, gameId) >= 0
    {
      InCart(items, gameId)
    }

    function GetQuantity(gameId: string): (n: int)
      reads this
      requires Valid()
      ensures n == QuantityOf(items, gameId)
      ensures n == 0 <==> !IsInCart(gameId)
      ensures n >= 0
      ensures forall i :: 0 <= i < |items| && items[i].id == gameId ==> n == items[i].quantity
    {
      QuantityZeroIffAbsent(items, gameId);
      QuantityOf(items, gameId)
    }
  }
}
