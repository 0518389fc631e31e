/** The storefront component's state and its event handlers. Each handler is an
    atomic, run-to-completion update of the seven state slots. */
module App {
  import opened Catalog
  import opened Pricing
  import opened Accordion
  import opened Quantity
  import opened Cart

  class Storefront {
    var expandedTopic: Option<int>        // the open accordion panel, if any
    var imageTopo: string                 // banner image URL
    var data: seq<Topic>                  // menu sections
    var selectedItem: Option<Item>        // the item open in the modal, if any
    var quantity: int                     // the draft's quantity
    var selectedModifier: Option<Modifier>// the draft's chosen modifier
    var cart: seq<CartLine>

    /** Quantities, of the draft and of every committed line, are at least one. */
    ghost predicate Valid()
      reads this
    {
      quantity >= 1 &&
      forall i :: 0 <= i < |cart| ==> cart[i].quantity >= 1
    }

    constructor ()
      ensures Valid()
      ensures expandedTopic == None && imageTopo == [] && data == []
      ensures selectedItem == None && quantity == 1 && selectedModifier == None
      ensures cart == []
    {
      expandedTopic := None;
      imageTopo := [];
      data := [];
      selectedItem := None;
      quantity := 1;
      selectedModifier := None;
      cart := [];
    }

    /** Clicking a topic expands it, or collapses it if it is the open one. */
    method HandleTopicClick(topicId: int)
      modifies this`expandedTopic
      ensures expandedTopic == Toggle(old(expandedTopic), topicId)
      ensures expandedTopic == Some(topicId) <==> old(expandedTopic) != Some(topicId)
    {
      expandedTopic := if expandedTopic == Some(topicId) then None else Some(topicId);
    }

    /** Opening an item starts a fresh draft for it, discarding any earlier draft;
        the cart is untouched. */
    method HandleItemClick(item: Item)
      requires Valid()
      modifies this`selectedItem, this`quantity, this`selectedModifier
      ensures Valid()
      ensures selectedItem == Some(item) && quantity == 1 && selectedModifier == None
    {
      selectedItem := Some(item);
      quantity := 1;
      selectedModifier := None;
    }

    /** Closing the modal drops the open item only; the quantity and modifier
        slots keep their values until the next item is opened. */
    method HandleCloseModal()
      modifies this`selectedItem
      ensures selectedItem == None
    {
      selectedItem := None;
    }

    method HandleIncreaseQuantity()
      requires Valid()
      modifies this`quantity
      ensures Valid()
      ensures quantity == old(quantity) + 1
    {
      quantity := quantity + 1;
    }

    /** "-" in the modal: one less, but a quantity of one stays one. */
    method HandleDecreaseQuantity()
      requires Valid()
      modifies this`quantity
      ensures Valid()
      ensures quantity == FlooredDecrement(old(quantity))
      ensures old(quantity) > 1 ==> quantity == old(quantity) - 1
      ensures old(quantity) == 1 ==> quantity == 1
    {
      if quantity > 1 {
        quantity := quantity - 1;
      }
    }

    /** Choosing a modifier overwrites the single modifier slot, whatever group
        it comes from. */
    method HandleModifierChange(modifier: Modifier)
      modifies this`selectedModifier
      ensures selectedModifier == Some(modifier)
    {
      selectedModifier := Some(modifier);
    }

    /** The per-unit price of the open draft. */
    function GetItemPrice(): (r: int)
      reads this
      requires selectedItem.Some?
      ensures r == EffectivePrice(selectedItem.value, selectedModifier)
      ensures selectedModifier.Some? ==> r == selectedModifier.value.price
    {
      if selectedModifier.Some? then selectedModifier.value.price else selectedItem.value.price
    }

    /** The "Add order" button is rendered only for an open item whose effective
        price is positive. */
    predicate AddOrderOffered()
      reads this
    {
      selectedItem.Some? && GetItemPrice() > 0
    }

    /** "Add order": append one line built from the draft, then close the modal. */
    method HandleAddToCart()
      requires Valid() && selectedItem.Some?
      modifies this`cart, this`selectedItem
      ensures Valid()
      ensures |cart| == |old(cart)| + 1
      ensures cart[..|old(cart)|] == old(cart)
      ensures cart[|old(cart)|] == NewLine(old(selectedItem).value, quantity, selectedModifier)
      ensures cart[|old(cart)|].price == EffectivePrice(old(selectedItem).value, selectedModifier)
      ensures cart[|old(cart)|].quantity == quantity
      ensures cart[|old(cart)|].modifier == selectedModifier
      ensures Subtotal(cart) == Subtotal(old(cart)) + EffectivePrice(old(selectedItem).value, selectedModifier) * quantity
      ensures selectedItem == None
    {
      var newItem := NewLine(selectedItem.value, quantity, selectedModifier);
      assert newItem.price == GetItemPrice();
      SubtotalAppend(cart, newItem);
      cart := cart + [newItem];
      HandleCloseModal();
    }

    /** A press on the gated "Add order" button: when the button is not offered
        nothing happens, otherwise the draft is committed as by HandleAddToCart. */
    method PressAddOrder() returns (added: bool)
      requires Valid()
      modifies this`cart, this`selectedItem
      ensures Valid()
      ensures added == old(AddOrderOffered())
      ensures !added ==> cart == old(cart) && selectedItem == old(selectedItem)
      ensures added ==> cart == old(cart) + [NewLine(old(selectedItem).value, quantity, selectedModifier)]
      ensures added ==> selectedItem == None
    {
      added := AddOrderOffered();
      if added {
        HandleAddToCart();
      }
    }

    /** "+" on cart line `index`: that line's quantity grows by one. An index with
        no line behind it fails (ok == false) and changes nothing. */
    method HandleCartItemIncrease(index: int) returns (ok: bool)
      requires Valid()
      modifies this`cart
      ensures Valid()
      ensures ok <==> 0 <= index < |old(cart)|
      ensures |cart| == |old(cart)|
      ensures !ok ==> cart == old(cart)
      ensures ok ==> cart == old(cart)[index := old(cart)[index].(quantity := old(cart)[index].quantity + 1)]
      ensures ok ==> Subtotal(cart) == Subtotal(old(cart)) + old(cart)[index].price
    {
      ok := 0 <= index < |cart|;
      if ok {
        var line := cart[index].(quantity := cart[index].quantity + 1);
        SubtotalUpdate(cart, index, line);
        cart := cart[index := line];
      }
    }

    /** "-" on cart line `index`: one less, floored at one; the line is never
        removed. An index with no line behind it fails and changes nothing. */
    method HandleCartItemDecrease(index: int) returns (ok: bool)
      requires Valid()
      modifies this`cart
      ensures Valid()
      ensures ok <==> 0 <= index < |old(cart)|
      ensures |cart| == |old(cart)|
      ensures !ok ==> cart == old(cart)
      ensures ok ==> cart == old(cart)[index := old(cart)[index].(quantity := FlooredDecrement(old(cart)[index].quantity))]
      ensures ok && old(cart)[index].quantity == 1 ==> cart == old(cart)
      ensures ok && old(cart)[index].quantity > 1 ==>
        Subtotal(cart) == Subtotal(old(cart)) - old(cart)[index].price
    {
      ok := 0 <= index < |cart|;
      if ok && cart[index].quantity > 1 {
        var line := cart[index].(quantity := cart[index].quantity - 1);
        SubtotalUpdate(cart, index, line);
        cart := cart[index := line];
      }
    }

    /** The amount shown as both "Subtotal" and "Total": the sum of
        price × quantity over the cart's lines. */
    function CalculateSubtotal(): (r: int)
      reads this
      ensures r == Sum(cart)
      ensures cart == [] ==> r == 0
    {
      Subtotal(cart)
    }

    /** A successful menu fetch replaces the sections wholesale; a failed one
        leaves them as they were. */
    method LoadMenu(response: FetchResult<seq<Topic>>)
      modifies this`data
      ensures data == if response.Fetched? then response.value else old(data)
    {
      if response.Fetched? {
        data := response.value;
      }
    }

    /** A successful venue fetch replaces the banner image; a failed one leaves it. */
    method LoadBanner(response: FetchResult<string>)
      modifies this`imageTopo
      ensures imageTopo == if response.Fetched? then response.value else old(imageTopo)
    {
      if response.Fetched? {
        imageTopo := response.value;
      }
    }
  }

  /** A session: open an item priced 8 without modifiers, press "+" twice and
      add it. The cart then holds one line of quantity 3 at unit price 8, and
      the subtotal is 24. */
  method OrderScenario(item: Item) returns (lines: seq<CartLine>, subtotal: int)
    requires item.price == 8
    ensures |lines| == 1 && lines[0].quantity == 3 && lines[0].price == 8
    ensures lines[0].id == item.id && lines[0].modifier == None
    ensures subtotal == 24
  {
    var app := new Storefront();
    app.HandleItemClick(item);
    app.HandleIncreaseQuantity();
    app.HandleIncreaseQuantity();
    app.HandleAddToCart();
    lines := app.cart;
    subtotal := app.CalculateSubtotal();
    assert lines == [] + [lines[0]];
    SubtotalAppend([], lines[0]);
  }
}
