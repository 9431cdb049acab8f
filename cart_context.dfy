/** client/src/contexts/CartContext.tsx: the client's cart state (the
    cart last received from the server, a loading flag and an error
    message), the numbers derived from it, and the operations that call
    the cart service and replace that state. The service is an oracle: its
    reply to each request is whatever the server answers. */
module CartContext {
  import opened Common

  datatype CartItem = CartItem(id: string, quantity: int, price: int, productId: string, cartId: string)

  /** `ICart`; prices are integers in this model. */
  datatype Cart = Cart(
    id: string,
    totalCartPrice: Option<int>,
    totalPriceAfterDiscount: Option<int>,
    userId: string,
    cartItems: Option<seq<CartItem>>)

  // ---------------------------------------------------------------------
  // Derived state

  /** `cart?.cartItems || []` */
  function CartItems(cart: Option<Cart>): seq<CartItem> {
    if cart.Some? && cart.value.cartItems.Some? then cart.value.cartItems.value else []
  }

  /** `items.reduce((total, item) => total + item.quantity, acc)` */
  function Reduce(items: seq<CartItem>, acc: int): int
    decreases |items|
  {
    if items == [] then acc else Reduce(items[1..], acc + items[0].quantity)
  }

  /** `cartItemsCount` */
  function CartItemsCount(cart: Option<Cart>): (count: int)
    ensures count == QuantitySum(CartItems(cart))
  {
    ReduceIsSum(CartItems(cart), 0);
    Reduce(CartItems(cart), 0)
  }

  /** The sum of the quantities, as a reference definition. */
  function QuantitySum(items: seq<CartItem>): int
    decreases |items|
  {
    if items == [] then 0 else QuantitySum(items[..|items| - 1]) + items[|items| - 1].quantity
  }

  lemma {:induction false} QuantitySumFirst(items: seq<CartItem>)
    requires items != []
    ensures QuantitySum(items) == items[0].quantity + QuantitySum(items[1..])
    decreases |items|
  {
    if |items| > 1 {
      var rest := items[1..];
      assert items[..|items| - 1][1..] == rest[..|rest| - 1];
      QuantitySumFirst(items[..|items| - 1]);
      assert items[|items| - 1] == rest[|rest| - 1];
    } else {
      assert items[1..] == [];
      assert items[..|items| - 1] == [];
    }
  }

  /** The fold the source runs computes the sum of the quantities on top of
      its starting value. */
  lemma {:induction false} ReduceIsSum(items: seq<CartItem>, acc: int)
    ensures Reduce(items, acc) == acc + QuantitySum(items)
    decreases |items|
  {
    if items != [] {
      ReduceIsSum(items[1..], acc + items[0].quantity);
      QuantitySumFirst(items);
    }
  }

  /** `cartItemsCount` is the total quantity: 0 without a cart or items, and
      adding up over any split of the item list. */
  lemma {:induction false} CartItemsCountIsTotalQuantity(cart: Option<Cart>, front: seq<CartItem>, back: seq<CartItem>)
    ensures CartItemsCount(cart) == QuantitySum(CartItems(cart))
    ensures cart.None? || cart.value.cartItems.None? ==> CartItemsCount(cart) == 0
    ensures QuantitySum(front + back) == QuantitySum(front) + QuantitySum(back)
    decreases |back|
  {
    ReduceIsSum(CartItems(cart), 0);
    if back != [] {
      var b := back[..|back| - 1];
      assert (front + back)[..|front + back| - 1] == front + b;
      CartItemsCountIsTotalQuantity(None, front, b);
    } else {
      assert front + back == front;
    }
  }

  /** With every quantity at least 1 (what the server keeps), the count is at
      least the number of lines, and is never negative. */
  lemma {:induction false} CountCoversLines(items: seq<CartItem>)
    requires forall i :: 0 <= i < |items| ==> items[i].quantity >= 1
    ensures QuantitySum(items) >= |items| >= 0
    decreases |items|
  {
    if items != [] {
      CountCoversLines(items[..|items| - 1]);
    }
  }

  /** `cart?.totalPriceAfterDiscount || cart?.totalCartPrice || 0` */
  function TotalPrice(cart: Option<Cart>): (total: int)
    ensures cart.None? ==> total == 0
    ensures cart.Some? ==> total == 0 || Some(total) == cart.value.totalPriceAfterDiscount || Some(total) == cart.value.totalCartPrice
  {
    if cart.Some? && cart.value.totalPriceAfterDiscount.Some? && cart.value.totalPriceAfterDiscount.value != 0
    then cart.value.totalPriceAfterDiscount.value
    else if cart.Some? && cart.value.totalCartPrice.Some? && cart.value.totalCartPrice.value != 0
    then cart.value.totalCartPrice.value
    else 0
  }

  /** The displayed total is the discounted total when there is a non-zero
      one, else the cart total when that is non-zero, else 0; it is always
      one of the cart's two totals or 0. */
  lemma TotalPriceFallsBack(cart: Cart)
    ensures cart.totalPriceAfterDiscount.Some? && cart.totalPriceAfterDiscount.value != 0 ==>
              TotalPrice(Some(cart)) == cart.totalPriceAfterDiscount.value
    ensures (cart.totalPriceAfterDiscount.None? || cart.totalPriceAfterDiscount == Some(0)) ==>
              TotalPrice(Some(cart)) == (if cart.totalCartPrice.Some? then cart.totalCartPrice.value else 0)
    ensures TotalPrice(None) == 0
    ensures var t := TotalPrice(Some(cart));
            t == 0 || Some(t) == cart.totalPriceAfterDiscount || Some(t) == cart.totalCartPrice
  {
  }

  // ---------------------------------------------------------------------
  // The cart service

  /** The requests `cartService` sends. */
  datatype Call =
    | GetCart
    | AddToCart(productId: string, color: Option<string>)
    | UpdateQuantity(productId: string, quantity: int)
    | RemoveItem(productId: string)
    | ClearCart
    | ApplyCoupon(couponName: string)

  /** A service reply: the `data` of a successful response, or a failure
      with the server's `message` if it sent one. */
  datatype Reply = Ok(data: Option<Cart>) | Failed(message: Option<string>)

  /** The server's answer to a request, given every request sent before it. */
  type Server = (seq<Call>, Call) -> Reply

  class CartService {
    /** The requests sent so far. */
    var calls: seq<Call>
    const answer: Server

    constructor (answer: Server)
      ensures calls == [] && this.answer == answer
    {
      calls := [];
      this.answer := answer;
    }

    method Request(c: Call) returns (r: Reply)
      modifies this
      ensures calls == old(calls) + [c]
      ensures r == answer(old(calls), c)
    {
      r := answer(calls, c);
      calls := calls + [c];
    }
  }

  // ---------------------------------------------------------------------
  // The operations, as functions of the state before them

  /** The provider's state. */
  datatype State = State(cart: Option<Cart>, loading: bool, error: Option<string>)

  /** How an operation's promise settles: resolved, or rejected with
      `new Error(message)`. */
  datatype Completion = Done | Rejected(message: string)

  /** An operation's effect: the state after it, how it settled, and the
      requests it sent, in order. */
  datatype Step = Step(state: State, completion: Completion, calls: seq<Call>)

  const LoginToAdd: string := "Please login to add items to cart"
  const LoginToUpdate: string := "Please login to update cart"
  const LoginToRemove: string := "Please login to remove items from cart"
  const LoginToClear: string := "Please login to clear cart"
  const LoginToApply: string := "Please login to apply coupon"

  const FetchFailed: string := "Failed to fetch cart"
  const AddFailed: string := "Failed to add item to cart"
  const UpdateFailed: string := "Failed to update quantity"
  const RemoveFailed: string := "Failed to remove item"
  const ClearFailed: string := "Failed to clear cart"
  const ApplyFailed: string := "Failed to apply coupon"

  /** `err.response?.data?.message || fallback` */
  function FailureMessage(message: Option<string>, fallback: string): string {
    OrElse(message, fallback)
  }

  /** `fetchCart` */
  function FetchSpec(s: State, isAuthenticated: bool, server: Server, sent: seq<Call>): Step {
    if !isAuthenticated then Step(s.(cart := None), Done, [])
    else match server(sent, GetCart)
      case Ok(data) => Step(State(data, false, None), Done, [GetCart])
      case Failed(m) => Step(State(None, false, Some(FailureMessage(m, FetchFailed))), Done, [GetCart])
  }

  /** One request whose success installs `onSuccess` as the cart: the shape
      of add, update, clear and apply-coupon once signed in. */
  function RequestSpec(s: State, server: Server, sent: seq<Call>, c: Call, fallback: string, onSuccess: Reply -> Option<Cart>): Step {
    var reply := server(sent, c);
    match reply
    case Ok(_) => Step(s.(cart := onSuccess(reply), error := None), Done, [c])
    case Failed(m) => Step(s.(error := Some(FailureMessage(m, fallback))), Rejected(FailureMessage(m, fallback)), [c])
  }

  /** The cart a reply carries. */
  function ReplyCart(reply: Reply): Option<Cart> {
    if reply.Ok? then reply.data else None
  }

  /** The `null` cart that `clearCart` installs. */
  function NoCart(reply: Reply): Option<Cart> {
    None
  }

  /** `addToCart` */
  function AddSpec(s: State, isAuthenticated: bool, server: Server, sent: seq<Call>, productId: string, color: Option<string>): Step {
    if !isAuthenticated then Step(s, Rejected(LoginToAdd), [])
    else RequestSpec(s, server, sent, AddToCart(productId, color), AddFailed, ReplyCart)
  }

  /** `removeItem`: deletes, then re-fetches (a failed re-fetch is reported
      by `fetchCart` itself and does not reject). */
  function RemoveSpec(s: State, isAuthenticated: bool, server: Server, sent: seq<Call>, productId: string): Step {
    if !isAuthenticated then Step(s, Rejected(LoginToRemove), [])
    else match server(sent, RemoveItem(productId))
      case Failed(m) =>
        Step(s.(error := Some(FailureMessage(m, RemoveFailed))), Rejected(FailureMessage(m, RemoveFailed)), [RemoveItem(productId)])
      case Ok(_) =>
        var fetched := FetchSpec(s.(error := None), true, server, sent + [RemoveItem(productId)]);
        Step(fetched.state, Done, [RemoveItem(productId)] + fetched.calls)
  }

  /** `updateQuantity`: a quantity of 0 or less is a removal. */
  function UpdateSpec(s: State, isAuthenticated: bool, server: Server, sent: seq<Call>, productId: string, quantity: int): Step {
    if !isAuthenticated then Step(s, Rejected(LoginToUpdate), [])
    else if quantity <= 0 then RemoveSpec(s, true, server, sent, productId)
    else RequestSpec(s, server, sent, UpdateQuantity(productId, quantity), UpdateFailed, ReplyCart)
  }

  /** `clearCart` */
  function ClearSpec(s: State, isAuthenticated: bool, server: Server, sent: seq<Call>): Step {
    if !isAuthenticated then Step(s, Rejected(LoginToClear), [])
    else RequestSpec(s, server, sent, ClearCart, ClearFailed, NoCart)
  }

  /** `applyCoupon` */
  function ApplySpec(s: State, isAuthenticated: bool, server: Server, sent: seq<Call>, couponName: string): Step {
    if !isAuthenticated then Step(s, Rejected(LoginToApply), [])
    else RequestSpec(s, server, sent, ApplyCoupon(couponName), ApplyFailed, ReplyCart)
  }

  // ---------------------------------------------------------------------
  // The provider

  class CartProvider {
    var cart: Option<Cart>
    var loading: bool
    var error: Option<string>
    /** `useAuth().isAuthenticated` for this render. */
    var isAuthenticated: bool

    constructor (isAuthenticated: bool)
      ensures cart == None && !loading && error == None
      ensures this.isAuthenticated == isAuthenticated
    {
      cart := None;
      loading := false;
      error := None;
      this.isAuthenticated := isAuthenticated;
    }

    function Snapshot(): State
      reads this
    {
      State(cart, loading, error)
    }

    method FetchCart(svc: CartService)
      modifies this`cart, this`loading, this`error, svc
      ensures var step := FetchSpec(old(Snapshot()), isAuthenticated, svc.answer, old(svc.calls));
              Snapshot() == step.state && svc.calls == old(svc.calls) + step.calls
    {
      if !isAuthenticated {
        cart := None;
        return;
      }
      loading := true;
      error := None;
      var response := svc.Request(Call.GetCart);
      match response {
        case Ok(data) =>
          cart := data;
        case Failed(m) =>
          error := Some(FailureMessage(m, FetchFailed));
          cart := None;
      }
      loading := false;
    }

    method AddToCart(svc: CartService, productId: string, color: Option<string>) returns (r: Completion)
      modifies this`cart, this`error, svc
      ensures var step := AddSpec(old(Snapshot()), isAuthenticated, svc.answer, old(svc.calls), productId, color);
              Snapshot() == step.state && r == step.completion && svc.calls == old(svc.calls) + step.calls
    {
      if !isAuthenticated {
        return Rejected(LoginToAdd);
      }
      error := None;
      var response := svc.Request(Call.AddToCart(productId, color));
      match response
      case Ok(data) =>
        cart := data;
        r := Done;
      case Failed(m) =>
        var errorMessage := FailureMessage(m, AddFailed);
        error := Some(errorMessage);
        r := Rejected(errorMessage);
    }

    method UpdateQuantity(svc: CartService, productId: string, quantity: int) returns (r: Completion)
      modifies this`cart, this`loading, this`error, svc
      ensures var step := UpdateSpec(old(Snapshot()), isAuthenticated, svc.answer, old(svc.calls), productId, quantity);
              Snapshot() == step.state && r == step.completion && svc.calls == old(svc.calls) + step.calls
    {
      if !isAuthenticated {
        return Rejected(LoginToUpdate);
      }
      if quantity <= 0 {
        r := RemoveItem(svc, productId);
        return;
      }
      error := None;
      var response := svc.Request(Call.UpdateQuantity(productId, quantity));
      match response
      case Ok(data) =>
        cart := data;
        r := Done;
      case Failed(m) =>
        var errorMessage := FailureMessage(m, UpdateFailed);
        error := Some(errorMessage);
        r := Rejected(errorMessage);
    }

    method RemoveItem(svc: CartService, productId: string) returns (r: Completion)
      modifies this`cart, this`loading, this`error, svc
      ensures var step := RemoveSpec(old(Snapshot()), isAuthenticated, svc.answer, old(svc.calls), productId);
              Snapshot() == step.state && r == step.completion && svc.calls == old(svc.calls) + step.calls
    {
      if !isAuthenticated {
        return Rejected(LoginToRemove);
      }
      error := None;
      var response := svc.Request(Call.RemoveItem(productId));
      match response
      case Ok(_) =>
        FetchCart(svc);
        r := Done;
      case Failed(m) =>
        var errorMessage := FailureMessage(m, RemoveFailed);
        error := Some(errorMessage);
        r := Rejected(errorMessage);
    }

    method ClearCart(svc: CartService) returns (r: Completion)
      modifies this`cart, this`error, svc
      ensures var step := ClearSpec(old(Snapshot()), isAuthenticated, svc.answer, old(svc.calls));
              Snapshot() == step.state && r == step.completion && svc.calls == old(svc.calls) + step.calls
    {
      if !isAuthenticated {
        return Rejected(LoginToClear);
      }
      error := None;
      var response := svc.Request(Call.ClearCart);
      match response
      case Ok(_) =>
        cart := None;
        r := Done;
      case Failed(m) =>
        var errorMessage := FailureMessage(m, ClearFailed);
        error := Some(errorMessage);
        r := Rejected(errorMessage);
    }

    method ApplyCoupon(svc: CartService, couponName: string) returns (r: Completion)
      modifies this`cart, this`error, svc
      ensures var step := ApplySpec(old(Snapshot()), isAuthenticated, svc.answer, old(svc.calls), couponName);
              Snapshot() == step.state && r == step.completion && svc.calls == old(svc.calls) + step.calls
    {
      if !isAuthenticated {
        return Rejected(LoginToApply);
      }
      error := None;
      var response := svc.Request(Call.ApplyCoupon(couponName));
      match response
      case Ok(data) =>
        cart := data;
        r := Done;
      case Failed(m) =>
        var errorMessage := FailureMessage(m, ApplyFailed);
        error := Some(errorMessage);
        r := Rejected(errorMessage);
    }

    /** The effect hook run when `isAuthenticated` changes to `now`: signing
        in fetches the cart, signing out drops the cart and the error. The
        run on mount is this call on a provider constructed signed out (for
        a signed-out mount the hook only re-sets the null cart and error). */
    method AuthChanged(svc: CartService, now: bool)
      requires now != isAuthenticated
      modifies this, svc
      ensures isAuthenticated == now
      ensures now ==> var step := FetchSpec(old(Snapshot()), true, svc.answer, old(svc.calls));
                      Snapshot() == step.state && svc.calls == old(svc.calls) + step.calls
      ensures !now ==> Snapshot() == old(Snapshot()).(cart := None, error := None) && svc.calls == old(svc.calls)
    {
      isAuthenticated := now;
      if now {
        FetchCart(svc);
      } else {
        cart := None;
        error := None;
      }
    }
  }

  // ---------------------------------------------------------------------
  // Properties of the operations

  /** Signed out, every mutating operation rejects with its login message
      before sending anything and leaves the state alone; `fetchCart` only
      drops the cart. */
  lemma SignedOutSendsNothing(s: State, server: Server, sent: seq<Call>, productId: string, color: Option<string>, quantity: int, couponName: string)
    ensures AddSpec(s, false, server, sent, productId, color) == Step(s, Rejected(LoginToAdd), [])
    ensures UpdateSpec(s, false, server, sent, productId, quantity) == Step(s, Rejected(LoginToUpdate), [])
    ensures RemoveSpec(s, false, server, sent, productId) == Step(s, Rejected(LoginToRemove), [])
    ensures ClearSpec(s, false, server, sent) == Step(s, Rejected(LoginToClear), [])
    ensures ApplySpec(s, false, server, sent, couponName) == Step(s, Rejected(LoginToApply), [])
    ensures FetchSpec(s, false, server, sent) == Step(s.(cart := None), Done, [])
  {
  }

  /** A quantity of 0 or less never reaches the update endpoint: it is
      exactly a removal of that product. */
  lemma NonPositiveQuantityRemoves(s: State, server: Server, sent: seq<Call>, productId: string, quantity: int)
    requires quantity <= 0
    ensures UpdateSpec(s, true, server, sent, productId, quantity) == RemoveSpec(s, true, server, sent, productId)
    ensures forall c :: c in UpdateSpec(s, true, server, sent, productId, quantity).calls ==> !c.UpdateQuantity?
  {
  }

  /** A successful add, update or coupon replaces the cart with the one the
      server returned and clears the error. */
  lemma SuccessInstallsServerCart(s: State, server: Server, sent: seq<Call>, productId: string, color: Option<string>, quantity: int, couponName: string)
    ensures server(sent, AddToCart(productId, color)).Ok? ==>
              AddSpec(s, true, server, sent, productId, color).state
              == s.(cart := server(sent, AddToCart(productId, color)).data, error := None)
    ensures quantity > 0 && server(sent, UpdateQuantity(productId, quantity)).Ok? ==>
              UpdateSpec(s, true, server, sent, productId, quantity).state
              == s.(cart := server(sent, UpdateQuantity(productId, quantity)).data, error := None)
    ensures server(sent, ApplyCoupon(couponName)).Ok? ==>
              ApplySpec(s, true, server, sent, couponName).state
              == s.(cart := server(sent, ApplyCoupon(couponName)).data, error := None)
  {
  }

  /** A failed request keeps the cart, records as `error` the server's
      message or the operation's fixed default, and rejects with that same
      message. */
  lemma FailureRecordsAndRethrows(s: State, server: Server, sent: seq<Call>, c: Call, fallback: string, onSuccess: Reply -> Option<Cart>)
    requires server(sent, c).Failed? && fallback != ""
    ensures var step := RequestSpec(s, server, sent, c, fallback, onSuccess);
            step.completion.Rejected? &&
            step.state == s.(error := Some(step.completion.message)) &&
            step.completion.message != "" &&
            (Truthy(server(sent, c).message) ==> step.completion.message == server(sent, c).message.value) &&
            (!Truthy(server(sent, c).message) ==> step.completion.message == fallback) &&
            step.calls == [c]
  {
  }

  /** A successful removal re-fetches: it sends the delete and then one
      request for the cart, and ends with the fetched cart (or none and the
      fetch error) and loading off; `clearCart` ends with no cart. */
  lemma RemoveRefetchesClearEmpties(s: State, server: Server, sent: seq<Call>, productId: string)
    ensures server(sent, RemoveItem(productId)).Ok? ==>
              var step := RemoveSpec(s, true, server, sent, productId);
              var fetched := server(sent + [RemoveItem(productId)], GetCart);
              step.calls == [RemoveItem(productId), GetCart] && step.completion == Done && !step.state.loading &&
              (fetched.Ok? ==> step.state.cart == fetched.data && step.state.error == None) &&
              (fetched.Failed? ==> step.state.cart == None && step.state.error == Some(FailureMessage(fetched.message, FetchFailed)))
    ensures server(sent, ClearCart).Ok? ==> ClearSpec(s, true, server, sent).state.cart == None
  {
  }

  /** A signed-out client that tries every operation sends no request at
      all, and each mutating operation fails. */
  method SignedOutSession(server: Server, productId: string, quantity: int, couponName: string)
    returns (results: seq<Completion>, sent: seq<Call>, count: int)
    ensures sent == []
    ensures |results| == 5 && forall i :: 0 <= i < |results| ==> results[i].Rejected?
    ensures count == 0
  {
    var svc := new CartService(server);
    var provider := new CartProvider(false);
    var a := provider.AddToCart(svc, productId, None);
    var u := provider.UpdateQuantity(svc, productId, quantity);
    var r := provider.RemoveItem(svc, productId);
    var c := provider.ClearCart(svc);
    var p := provider.ApplyCoupon(svc, couponName);
    provider.FetchCart(svc);
    results := [a, u, r, c, p];
    sent := svc.calls;
    count := CartItemsCount(provider.cart);
  }
}
