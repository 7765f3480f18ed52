/**
 * The client-side shopping cart of components/order/cart.ts.
 *
 * The cart lives in one local-storage entry, "cart", holding the whole list
 * of lines.  Every operation reads the list, changes it and writes the whole
 * list back.  The entry is the field `slot` of class `CartStore`; what each
 * operation does to the list is a function on `seq<CartItem>` (`Added`,
 * `Increased`, `Decreased`, `Removed`, `Toggled`, `Unselected`), and the
 * lemmas below state what those functions promise.
 */
module Cart {
  import opened Wrappers
  import opened JsArray

  /** One cart line, with the fields it is stored with. */
  datatype CartItem = CartItem(
    id: string,          // unique per line
    medicineId: string,  // the product the line is for
    title: string,
    price: int,
    image: string,
    quantity: int,
    selected: bool)

  /** What `addToCart` is given: a line without its `id` and `selected` flag. */
  datatype NewItem = NewItem(medicineId: string, title: string, price: int, image: string, quantity: int)

  function LineId(c: CartItem): string { c.id }

  function LineMedicine(c: CartItem): string { c.medicineId }

  predicate HasId(cart: seq<CartItem>, id: string) {
    exists i :: 0 <= i < |cart| && cart[i].id == id
  }

  /**
   * The shape the storefront expects of a stored cart: one line per id, one
   * line per medicine, every quantity at least 1.
   */
  ghost predicate WellFormed(cart: seq<CartItem>) {
    && UniqueBy(cart, LineId)
    && UniqueBy(cart, LineMedicine)
    && forall i :: 0 <= i < |cart| ==> cart[i].quantity >= 1
  }

  /** The line `addToCart` appends for a medicine not yet in the cart. */
  function NewLine(item: NewItem, freshId: string): CartItem {
    CartItem(freshId, item.medicineId, item.title, item.price, item.image, item.quantity, true)
  }

  /** Position of the first line for `medicineId`, or -1 (`cart.find` on the medicine). */
  function FirstLineOf(cart: seq<CartItem>, medicineId: string): int {
    FindIndex(cart, (c: CartItem) => c.medicineId == medicineId)
  }

  // ----- What each operation does to the list ------------------------------

  /** `addToCart`: merge into the first line for the medicine, or append a new selected line. */
  function Added(cart: seq<CartItem>, item: NewItem, freshId: string): seq<CartItem> {
    var k := FirstLineOf(cart, item.medicineId);
    if k >= 0 then cart[k := cart[k].(quantity := cart[k].quantity + item.quantity)]
    else cart + [NewLine(item, freshId)]
  }

  /** `increaseQuantity`. */
  function Increased(cart: seq<CartItem>, id: string): seq<CartItem> {
    Map(cart, (c: CartItem) => if c.id == id then c.(quantity := c.quantity + 1) else c)
  }

  /** The `map` step of `decreaseQuantity`. */
  function Decremented(cart: seq<CartItem>, id: string): seq<CartItem> {
    Map(cart, (c: CartItem) => if c.id == id then c.(quantity := c.quantity - 1) else c)
  }

  /** `decreaseQuantity`: decrement, then keep only lines with a positive quantity. */
  function Decreased(cart: seq<CartItem>, id: string): seq<CartItem> {
    Filter(Decremented(cart, id), (c: CartItem) => c.quantity > 0)
  }

  /** `removeItem`. */
  function Removed(cart: seq<CartItem>, id: string): seq<CartItem> {
    Filter(cart, (c: CartItem) => c.id != id)
  }

  /** `toggleSelect`. */
  function Toggled(cart: seq<CartItem>, id: string): seq<CartItem> {
    Map(cart, (c: CartItem) => if c.id == id then c.(selected := !c.selected) else c)
  }

  /** `unselectAll`. */
  function Unselected(cart: seq<CartItem>): seq<CartItem> {
    Map(cart, (c: CartItem) => c.(selected := false))
  }

  // ----- The store ----------------------------------------------------------

  /**
   * The first line for `medicineId`, searched the way `cart.find` does;
   * -1 when there is none.
   */
  method FindMedicine(cart: seq<CartItem>, medicineId: string) returns (k: int)
    ensures -1 <= k < |cart|
    ensures 0 <= k ==> cart[k].medicineId == medicineId && forall j :: 0 <= j < k ==> cart[j].medicineId != medicineId
    ensures k == -1 ==> forall j :: 0 <= j < |cart| ==> cart[j].medicineId != medicineId
    ensures k == FirstLineOf(cart, medicineId)
  {
    k := 0;
    while k < |cart|
      invariant 0 <= k <= |cart|
      invariant forall j :: 0 <= j < k ==> cart[j].medicineId != medicineId
    {
      if cart[k].medicineId == medicineId {
        return;
      }
      k := k + 1;
    }
    k := -1;
  }

  class CartStore {
    /** The local-storage entry "cart": `None` while nothing has been stored there. */
    var slot: Option<seq<CartItem>>

    constructor ()
      ensures slot == None
    {
      slot := None;
    }

    /** What `getCart` reads. */
    function Items(): seq<CartItem>
      reads this
    {
      slot.GetOr([])
    }

    /** `getCart`: the empty list when nothing is stored, otherwise exactly what was stored. */
    method GetCart() returns (cart: seq<CartItem>)
      ensures slot == None ==> cart == []
      ensures slot.Some? ==> cart == slot.value
    {
      match slot
      case None => cart := [];
      case Some(stored) => cart := stored;
    }

    /** `updateCart`: overwrite the whole entry; `getCart` then returns `cart` as given. */
    method UpdateCart(cart: seq<CartItem>)
      modifies this
      ensures slot == Some(cart)
      ensures Items() == cart
    {
      slot := Some(cart);
    }

    /**
     * `addToCart`.  `freshId` stands for the `crypto.randomUUID()` the source
     * draws, which is taken to differ from every id already in the cart.
     */
    method AddToCart(item: NewItem, freshId: string)
      requires !HasId(Items(), freshId)
      modifies this
      ensures slot == Some(Added(old(Items()), item, freshId))
    {
      var cart := GetCart();
      var k := FindMedicine(cart, item.medicineId);
      if k >= 0 {
        cart := cart[k := cart[k].(quantity := cart[k].quantity + item.quantity)];
      } else {
        cart := cart + [NewLine(item, freshId)];
      }
      UpdateCart(cart);
    }

    /** `increaseQuantity`: stores and returns the new list. */
    method IncreaseQuantity(id: string) returns (cart: seq<CartItem>)
      modifies this
      ensures cart == Increased(old(Items()), id)
      ensures slot == Some(cart)
    {
      cart := GetCart();
      cart := Increased(cart, id);
      UpdateCart(cart);
    }

    /** `decreaseQuantity`: stores and returns the new list. */
    method DecreaseQuantity(id: string) returns (cart: seq<CartItem>)
      modifies this
      ensures cart == Decreased(old(Items()), id)
      ensures slot == Some(cart)
    {
      cart := GetCart();
      cart := Decremented(cart, id);
      cart := Filter(cart, (c: CartItem) => c.quantity > 0);
      UpdateCart(cart);
    }

    /** `removeItem`: stores and returns the new list. */
    method RemoveItem(id: string) returns (cart: seq<CartItem>)
      modifies this
      ensures cart == Removed(old(Items()), id)
      ensures slot == Some(cart)
    {
      cart := GetCart();
      cart := Removed(cart, id);
      UpdateCart(cart);
    }

    /** `toggleSelect`: stores and returns the new list. */
    method ToggleSelect(id: string) returns (cart: seq<CartItem>)
      modifies this
      ensures cart == Toggled(old(Items()), id)
      ensures slot == Some(cart)
    {
      cart := GetCart();
      cart := Toggled(cart, id);
      UpdateCart(cart);
    }

    /** `unselectAll`: stores and returns the new list. */
    method UnselectAll() returns (cart: seq<CartItem>)
      modifies this
      ensures cart == Unselected(old(Items()))
      ensures slot == Some(cart)
    {
      cart := GetCart();
      cart := Unselected(cart);
      UpdateCart(cart);
    }
  }

  // ----- addToCart ----------------------------------------------------------

  /** A medicine already in the cart: its first line grows by the added quantity, nothing else changes. */
  lemma AddMergesIntoFirstLine(cart: seq<CartItem>, item: NewItem, freshId: string, k: nat)
    requires k < |cart| && cart[k].medicineId == item.medicineId
    requires forall j :: 0 <= j < k ==> cart[j].medicineId != item.medicineId
    ensures |Added(cart, item, freshId)| == |cart|
    ensures Added(cart, item, freshId)[k] == cart[k].(quantity := cart[k].quantity + item.quantity)
    ensures forall j :: 0 <= j < |cart| && j != k ==> Added(cart, item, freshId)[j] == cart[j]
  {
    var f := FirstLineOf(cart, item.medicineId);
    assert f == k;
  }

  /** A medicine not in the cart: one selected line with the given fields and a fresh id is appended. */
  lemma AddAppendsNewLine(cart: seq<CartItem>, item: NewItem, freshId: string)
    requires forall j :: 0 <= j < |cart| ==> cart[j].medicineId != item.medicineId
    requires !HasId(cart, freshId)
    ensures Added(cart, item, freshId) == cart + [CartItem(freshId, item.medicineId, item.title, item.price, item.image, item.quantity, true)]
    ensures !HasId(cart, Added(cart, item, freshId)[|cart|].id)
  {
    var f := FirstLineOf(cart, item.medicineId);
    assert f == -1;
  }

  /** Adding keeps one line per medicine, and the cart grows by at most one line. */
  lemma AddKeepsOneLinePerMedicine(cart: seq<CartItem>, item: NewItem, freshId: string)
    requires UniqueBy(cart, LineMedicine)
    ensures UniqueBy(Added(cart, item, freshId), LineMedicine)
    ensures |cart| <= |Added(cart, item, freshId)| <= |cart| + 1
  {
    var r := Added(cart, item, freshId);
    var k := FirstLineOf(cart, item.medicineId);
    if k >= 0 {
      assert forall j :: 0 <= j < |r| ==> LineMedicine(r[j]) == LineMedicine(cart[j]);
    } else {
      forall i, j | 0 <= i < j < |r| ensures LineMedicine(r[i]) != LineMedicine(r[j]) {
        if j == |cart| {
          assert r[i] == cart[i];
        }
      }
    }
  }

  /** Adding a line with a positive quantity and a fresh id keeps the cart well formed. */
  lemma AddKeepsWellFormed(cart: seq<CartItem>, item: NewItem, freshId: string)
    requires WellFormed(cart)
    requires item.quantity >= 1 && !HasId(cart, freshId)
    ensures WellFormed(Added(cart, item, freshId))
  {
    AddKeepsOneLinePerMedicine(cart, item, freshId);
    var r := Added(cart, item, freshId);
    var k := FirstLineOf(cart, item.medicineId);
    if k >= 0 {
      assert forall j :: 0 <= j < |r| ==> LineId(r[j]) == LineId(cart[j]);
    } else {
      forall i, j | 0 <= i < j < |r| ensures LineId(r[i]) != LineId(r[j]) {
        if j == |cart| {
          assert r[i] == cart[i];
        }
      }
    }
  }

  // ----- Quantity per medicine ---------------------------------------------

  /** What one line contributes to the total of `medicineId`. */
  function Share(c: CartItem, medicineId: string): int {
    if c.medicineId == medicineId then c.quantity else 0
  }

  /** The total quantity of `medicineId` over all lines of the cart. */
  function QuantityOf(cart: seq<CartItem>, medicineId: string): int {
    if cart == [] then 0 else Share(cart[0], medicineId) + QuantityOf(cart[1..], medicineId)
  }

  lemma {:induction false} QuantityOfAppend(cart: seq<CartItem>, c: CartItem, medicineId: string)
    ensures QuantityOf(cart + [c], medicineId) == QuantityOf(cart, medicineId) + Share(c, medicineId)
  {
    if cart != [] {
      assert (cart + [c])[1..] == cart[1..] + [c];
      QuantityOfAppend(cart[1..], c, medicineId);
    }
  }

  lemma {:induction false} QuantityOfUpdate(cart: seq<CartItem>, k: nat, c: CartItem, medicineId: string)
    requires k < |cart|
    ensures QuantityOf(cart[k := c], medicineId)
         == QuantityOf(cart, medicineId) - Share(cart[k], medicineId) + Share(c, medicineId)
  {
    if k > 0 {
      assert cart[k := c][1..] == cart[1..][k - 1 := c];
      QuantityOfUpdate(cart[1..], k - 1, c, medicineId);
    } else {
      assert cart[k := c][1..] == cart[1..];
    }
  }

  /** Each add of a medicine raises its total quantity by exactly the quantity added. */
  lemma AddAccumulatesQuantity(cart: seq<CartItem>, item: NewItem, freshId: string, medicineId: string)
    ensures QuantityOf(Added(cart, item, freshId), medicineId)
         == QuantityOf(cart, medicineId) + (if item.medicineId == medicineId then item.quantity else 0)
  {
    var k := FirstLineOf(cart, item.medicineId);
    if k >= 0 {
      QuantityOfUpdate(cart, k, cart[k].(quantity := cart[k].quantity + item.quantity), medicineId);
    } else {
      QuantityOfAppend(cart, NewLine(item, freshId), medicineId);
    }
  }

  /** With one line per medicine, that line carries the medicine's whole quantity. */
  lemma {:induction false} OneLineCarriesTotal(cart: seq<CartItem>, k: nat)
    requires UniqueBy(cart, LineMedicine)
    requires k < |cart|
    ensures QuantityOf(cart, cart[k].medicineId) == cart[k].quantity
  {
    var m := cart[k].medicineId;
    if k == 0 {
      NoLineNoQuantity(cart[1..], m);
    } else {
      assert cart[0].medicineId != m by { assert LineMedicine(cart[0]) != LineMedicine(cart[k]); }
      assert cart[1..][k - 1] == cart[k];
      OneLineCarriesTotal(cart[1..], k - 1);
    }
  }

  lemma {:induction false} NoLineNoQuantity(cart: seq<CartItem>, medicineId: string)
    requires forall j :: 0 <= j < |cart| ==> cart[j].medicineId != medicineId
    ensures QuantityOf(cart, medicineId) == 0
  {
    if cart != [] {
      NoLineNoQuantity(cart[1..], medicineId);
    }
  }

  /**
   * Repeated adds of one medicine to a cart with one line per medicine leave
   * exactly one line for it, and that line holds the sum of all the
   * quantities added (plus what the cart held before).
   */
  lemma AddedLineHoldsTotal(cart: seq<CartItem>, item: NewItem, freshId: string)
    requires UniqueBy(cart, LineMedicine)
    ensures var r := Added(cart, item, freshId);
      var k := FirstLineOf(r, item.medicineId);
      && 0 <= k
      && r[k].quantity == QuantityOf(cart, item.medicineId) + item.quantity
      && forall j :: 0 <= j < |r| && r[j].medicineId == item.medicineId ==> j == k
  {
    var r := Added(cart, item, freshId);
    AddKeepsOneLinePerMedicine(cart, item, freshId);
    AddAccumulatesQuantity(cart, item, freshId, item.medicineId);
    var f := FirstLineOf(cart, item.medicineId);
    var i := if f >= 0 then f else |cart|;
    assert r[i].medicineId == item.medicineId;
    var k := FirstLineOf(r, item.medicineId);
    OneLineCarriesTotal(r, k);
    assert forall j :: 0 <= j < |r| && j != k ==> LineMedicine(r[j]) != LineMedicine(r[k]);
  }

  // ----- increaseQuantity ---------------------------------------------------

  /** Lines with `id` gain one unit; every other line, and every other field, is unchanged. */
  lemma IncreaseOnlyTouchesId(cart: seq<CartItem>, id: string)
    ensures |Increased(cart, id)| == |cart|
    ensures forall i :: 0 <= i < |cart| ==>
      Increased(cart, id)[i] == if cart[i].id == id then cart[i].(quantity := cart[i].quantity + 1) else cart[i]
  {
  }

  /** An id that is not in the cart leaves it as it was. */
  lemma IncreaseUnknownIsNoOp(cart: seq<CartItem>, id: string)
    requires !HasId(cart, id)
    ensures Increased(cart, id) == cart
  {
    var r := Increased(cart, id);
    assert forall i :: 0 <= i < |cart| ==> r[i] == cart[i];
  }

  lemma IncreaseKeepsWellFormed(cart: seq<CartItem>, id: string)
    requires WellFormed(cart)
    ensures WellFormed(Increased(cart, id))
  {
    var r := Increased(cart, id);
    assert forall i :: 0 <= i < |r| ==> LineId(r[i]) == LineId(cart[i]) && LineMedicine(r[i]) == LineMedicine(cart[i]);
  }

  // ----- decreaseQuantity ---------------------------------------------------

  /**
   * After a decrease every line has a positive quantity, and a line with
   * another id stays exactly when its quantity was positive: the filter
   * drops any non-positive line, not only the decremented one.
   */
  lemma DecreaseLeavesPositiveLines(cart: seq<CartItem>, id: string)
    ensures forall i :: 0 <= i < |Decreased(cart, id)| ==> Decreased(cart, id)[i].quantity > 0
    ensures forall j :: 0 <= j < |cart| && cart[j].id != id ==> (cart[j] in Decreased(cart, id) <==> cart[j].quantity > 0)
    ensures |Decreased(cart, id)| <= |cart|
  {
    var m := Decremented(cart, id);
    FilterMembers(m, (c: CartItem) => c.quantity > 0);
    assert forall j :: 0 <= j < |cart| && cart[j].id != id ==> m[j] == cart[j];
  }

  /** The lines that survive a decrease keep their relative order. */
  lemma DecreaseKeepsOrder(cart: seq<CartItem>, id: string)
    ensures IsSubsequence(Decreased(cart, id), Decremented(cart, id))
  {
    FilterIsSubsequence(Decremented(cart, id), (c: CartItem) => c.quantity > 0);
  }

  /**
   * On a well-formed cart, decreasing the line with `id` lowers its quantity
   * by one, or removes it when its quantity was 1; no other line changes.
   */
  lemma DecreaseOnWellFormed(cart: seq<CartItem>, id: string, k: nat)
    requires WellFormed(cart)
    requires k < |cart| && cart[k].id == id
    ensures Decreased(cart, id) ==
      if cart[k].quantity == 1 then cart[..k] + cart[k + 1..]
      else cart[k := cart[k].(quantity := cart[k].quantity - 1)]
  {
    var m := Decremented(cart, id);
    forall j | 0 <= j < |cart| && j != k ensures m[j] == cart[j] {
      if j < k { assert LineId(cart[j]) != LineId(cart[k]); }
      else { assert LineId(cart[k]) != LineId(cart[j]); }
    }
    var x := cart[k].(quantity := cart[k].quantity - 1);
    assert m[k] == x;
    assert m[..k] == cart[..k];
    assert m[k + 1..] == cart[k + 1..];
    FilterAllButOne(m, k, (c: CartItem) => c.quantity > 0);
    if cart[k].quantity == 1 {
      assert Decreased(cart, id) == cart[..k] + [] + cart[k + 1..];
    } else {
      assert Decreased(cart, id) == cart[..k] + [x] + cart[k + 1..];
      assert cart[..k] + [x] + cart[k + 1..] == cart[k := x];
    }
  }

  /** On a cart with positive quantities, decreasing an absent id changes nothing. */
  lemma DecreaseUnknownIsNoOp(cart: seq<CartItem>, id: string)
    requires forall i :: 0 <= i < |cart| ==> cart[i].quantity >= 1
    requires !HasId(cart, id)
    ensures Decreased(cart, id) == cart
  {
    var m := Decremented(cart, id);
    assert m == cart by {
      assert forall i :: 0 <= i < |cart| ==> m[i] == cart[i];
    }
    FilterAllKept(cart, (c: CartItem) => c.quantity > 0);
  }

  lemma DecreaseKeepsWellFormed(cart: seq<CartItem>, id: string)
    requires WellFormed(cart)
    ensures WellFormed(Decreased(cart, id))
  {
    var dec := (c: CartItem) => if c.id == id then c.(quantity := c.quantity - 1) else c;
    var positive := (c: CartItem) => c.quantity > 0;
    MapKeepsUniqueBy(cart, dec, LineId);
    MapKeepsUniqueBy(cart, dec, LineMedicine);
    FilterKeepsUniqueBy(Decremented(cart, id), positive, LineId);
    FilterKeepsUniqueBy(Decremented(cart, id), positive, LineMedicine);
    FilterMembers(Decremented(cart, id), positive);
  }

  // ----- removeItem ---------------------------------------------------------

  /** No line with `id` is left, and every other line is kept, in order. */
  lemma RemoveDropsOnlyId(cart: seq<CartItem>, id: string)
    ensures !HasId(Removed(cart, id), id)
    ensures forall j :: 0 <= j < |cart| && cart[j].id != id ==> cart[j] in Removed(cart, id)
    ensures IsSubsequence(Removed(cart, id), cart)
    ensures forall x :: multiset(Removed(cart, id))[x] == if x.id != id then multiset(cart)[x] else 0
  {
    FilterMultiset(cart, (c: CartItem) => c.id != id);
    FilterMembers(cart, (c: CartItem) => c.id != id);
    FilterIsSubsequence(cart, (c: CartItem) => c.id != id);
  }

  /** On a cart with one line per id, removing a present id deletes exactly that line. */
  lemma RemoveOnWellFormed(cart: seq<CartItem>, id: string, k: nat)
    requires UniqueBy(cart, LineId)
    requires k < |cart| && cart[k].id == id
    ensures Removed(cart, id) == cart[..k] + cart[k + 1..]
  {
    forall j | 0 <= j < |cart| && j != k ensures cart[j].id != id {
      if j < k { assert LineId(cart[j]) != LineId(cart[k]); }
      else { assert LineId(cart[k]) != LineId(cart[j]); }
    }
    FilterAllButOne(cart, k, (c: CartItem) => c.id != id);
  }

  lemma RemoveKeepsWellFormed(cart: seq<CartItem>, id: string)
    requires WellFormed(cart)
    ensures WellFormed(Removed(cart, id))
  {
    FilterKeepsUniqueBy(cart, (c: CartItem) => c.id != id, LineId);
    FilterKeepsUniqueBy(cart, (c: CartItem) => c.id != id, LineMedicine);
    FilterMembers(cart, (c: CartItem) => c.id != id);
  }

  // ----- toggleSelect and unselectAll ---------------------------------------

  /** Toggling flips `selected` on the lines with `id` and changes nothing else. */
  lemma ToggleFlipsOnlyId(cart: seq<CartItem>, id: string)
    ensures |Toggled(cart, id)| == |cart|
    ensures forall i :: 0 <= i < |cart| ==>
      Toggled(cart, id)[i] == if cart[i].id == id then cart[i].(selected := !cart[i].selected) else cart[i]
  {
  }

  /** Toggling the same id twice restores the cart. */
  lemma ToggleTwiceRestores(cart: seq<CartItem>, id: string)
    ensures Toggled(Toggled(cart, id), id) == cart
  {
    var r := Toggled(Toggled(cart, id), id);
    assert forall i :: 0 <= i < |cart| ==> r[i] == cart[i];
  }

  /** After `unselectAll` no line is selected, and only the `selected` fields changed. */
  lemma UnselectClearsSelection(cart: seq<CartItem>)
    ensures |Unselected(cart)| == |cart|
    ensures forall i :: 0 <= i < |cart| ==> !Unselected(cart)[i].selected
    ensures forall i :: 0 <= i < |cart| ==> Unselected(cart)[i] == cart[i].(selected := false)
  {
  }

  lemma UnselectIdempotent(cart: seq<CartItem>)
    ensures Unselected(Unselected(cart)) == Unselected(cart)
  {
    var once := Unselected(cart);
    var twice := Unselected(once);
    assert forall i :: 0 <= i < |cart| ==> twice[i] == once[i];
  }

  lemma ToggleAndUnselectKeepWellFormed(cart: seq<CartItem>, id: string)
    requires WellFormed(cart)
    ensures WellFormed(Toggled(cart, id))
    ensures WellFormed(Unselected(cart))
  {
    var t := Toggled(cart, id);
    var u := Unselected(cart);
    assert forall i :: 0 <= i < |cart| ==> LineId(t[i]) == LineId(cart[i]) && LineMedicine(t[i]) == LineMedicine(cart[i]);
    assert forall i :: 0 <= i < |cart| ==> LineId(u[i]) == LineId(cart[i]) && LineMedicine(u[i]) == LineMedicine(cart[i]);
  }

  // ----- A session ----------------------------------------------------------

  /**
   * Start empty, add two units of one medicine, add three more, then
   * decrease its line five times: the cart ends up empty.
   */
  method AddThenDrain() returns (final: seq<CartItem>)
    ensures final == []
  {
    var store := new CartStore();
    var napa := NewItem("P1", "Napa", 50, "napa.png", 2);
    var line := NewLine(napa, "L1");
    store.AddToCart(napa, "L1");
    AddAppendsNewLine([], napa, "L1");
    assert store.Items() == [line];
    store.AddToCart(napa.(quantity := 3), "L2");
    AddMergesIntoFirstLine([line], napa.(quantity := 3), "L2", 0);
    assert store.Items() == [line.(quantity := 5)];
    var cart: seq<CartItem>;
    var left := 5;
    while left > 0
      invariant 0 <= left <= 5
      invariant store.Items() == if left == 0 then [] else [line.(quantity := left)]
    {
      DecreaseOnWellFormed([line.(quantity := left)], "L1", 0);
      cart := store.DecreaseQuantity("L1");
      left := left - 1;
    }
    final := store.GetCart();
  }

  /**
   * Add two different medicines, unselect everything, then toggle the first
   * line: only that line is selected again.
   */
  method UnselectThenToggle() returns (final: seq<CartItem>)
    ensures |final| == 2
    ensures final[0].medicineId == "P1" && final[1].medicineId == "P2"
    ensures final[0].selected && !final[1].selected
  {
    var store := new CartStore();
    var napa := NewItem("P1", "Napa", 50, "napa.png", 1);
    var ace := NewItem("P2", "Ace", 30, "ace.png", 1);
    store.AddToCart(napa, "L1");
    AddAppendsNewLine([], napa, "L1");
    store.AddToCart(ace, "L2");
    AddAppendsNewLine([NewLine(napa, "L1")], ace, "L2");
    var both := [NewLine(napa, "L1"), NewLine(ace, "L2")];
    assert store.Items() == both;
    var cart := store.UnselectAll();
    UnselectClearsSelection(both);
    final := store.ToggleSelect("L1");
    ToggleFlipsOnlyId(cart, "L1");
  }
}
