/** The cart provider: a local mirror of the signed-in user's server cart,
    a loading flag, and the operations that talk to the server and update
    the mirror. Each server call is given as its outcome (success, the data
    returned, or a thrown error), and the provider keeps a log of the
    requests it has issued, in order. */
module CartContext {
  import opened JsValues
  import Api
  import opened Cart

  datatype Verb = Get | Post | Put | Delete

  /** The JSON body of a request: `{ foodItemId, quantity }` for an add,
      `{ quantity }` for an update, none for a read or a delete. */
  datatype Body = NoBody | AddItem(foodItemId: string, quantity: int) | SetQuantity(quantity: int)

  /** A request: its method, the endpoint of the table it targets, its body. */
  datatype Request = Request(verb: Verb, endpoint: Api.Endpoint, body: Body)

  /** The URL a request is sent to: `createApiUrl` of its endpoint's path. */
  function Url(base: string, r: Request): string
  {
    Api.CreateApiUrl(base, Api.Path(r.endpoint))
  }

  /** The request targets the cart resource or one of its entries. */
  predicate OnCart(r: Request)
  {
    r.endpoint.Cart? || r.endpoint.CartItem?
  }

  /** Every request on the cart is sent to a URL under `base + "/api/cart/"`. */
  lemma CartRequestUnderCartRoot(base: string, r: Request)
    requires OnCart(r)
    ensures Api.StartsWith(Url(base, r), base + Api.CartRoot)
  {
  }

  /** The GET of `fetchCart`. */
  function FetchRequest(userId: string): Request
  {
    Request(Get, Api.Cart(userId), NoBody)
  }

  /** The DELETE of `removeFromCart`, and of `clearCart` for each entry. */
  function DeleteRequest(userId: string, itemId: string): Request
  {
    Request(Delete, Api.CartItem(userId, itemId), NoBody)
  }

  /** The deletes `clearCart` sends for the given entries, one per entry, in
      cart order. */
  function DeleteRequests(userId: string, items: seq<CartItem>): (rs: seq<Request>)
    ensures |rs| == |items|
  {
    seq(|items|, k requires 0 <= k < |items| => DeleteRequest(userId, items[k].id))
  }

  /** One more delete extends the deletes sent so far by the next entry's. */
  lemma DeleteRequestsStep(userId: string, items: seq<CartItem>, i: nat)
    requires i < |items|
    ensures DeleteRequests(userId, items[..i + 1]) == DeleteRequests(userId, items[..i]) + [DeleteRequest(userId, items[i].id)]
  {
  }

  /** When the entries have distinct ids, `clearCart` sends each of its
      deletes to a different URL. */
  lemma {:induction false} DeleteUrlsDistinct(base: string, userId: string, items: seq<CartItem>, j: nat, k: nat)
    requires j < k < |items|
    requires items[j].id != items[k].id
    ensures Url(base, DeleteRequests(userId, items)[j]) != Url(base, DeleteRequests(userId, items)[k])
  {
    var ej := Api.CartItem(userId, items[j].id);
    var ek := Api.CartItem(userId, items[k].id);
    if Url(base, DeleteRequests(userId, items)[j]) == Url(base, DeleteRequests(userId, items)[k]) {
      Api.CreateApiUrlInjective(base, Api.Path(ej), Api.Path(ek));
      Api.PathInjectiveWithinTemplate(ej, ek);
      assert false;
    }
  }

  /** The index of the first delete that throws among the first `n`, or
      `n` when none does; `failing` holds the positions whose delete
      throws. */
  function FirstFailure(n: nat, failing: set<nat>): (k: nat)
    ensures k <= n
    ensures forall j :: 0 <= j < k ==> j !in failing
    ensures k < n ==> k in failing
  {
    FirstFailureFrom(0, n, failing)
  }

  function FirstFailureFrom(i: nat, n: nat, failing: set<nat>): (k: nat)
    requires i <= n
    requires forall j :: 0 <= j < i ==> j !in failing
    ensures i <= k <= n
    ensures forall j :: 0 <= j < k ==> j !in failing
    ensures k < n ==> k in failing
    decreases n - i
  {
    if i == n || i in failing then i else FirstFailureFrom(i + 1, n, failing)
  }

  /** The first failing delete is the one that threw after all the earlier
      ones succeeded. */
  lemma FirstFailureAt(n: nat, failing: set<nat>, i: nat)
    requires i < n && i in failing
    requires forall j :: 0 <= j < i ==> j !in failing
    ensures FirstFailure(n, failing) == i
  {
  }

  /** With no failing delete the first failure is past the end. */
  lemma FirstFailureNone(n: nat, failing: set<nat>)
    requires forall j :: 0 <= j < n ==> j !in failing
    ensures FirstFailure(n, failing) == n
  {
  }

  /** How many deletes were sent when the one at `failedAt` threw (itself
      included), or all `n` when none threw. */
  function Sent(failedAt: nat, n: nat): (count: nat)
    requires failedAt <= n
    ensures count <= n
  {
    if failedAt < n then failedAt + 1 else n
  }

  /** The message `useCart` throws outside a provider. */
  const OutsideProviderError: string := "useCart must be used within a CartProvider"

  class CartProvider {
    /** `API_BASE_URL`, fixed when the module is loaded. */
    const baseUrl: string
    /** `user?.id` from the session. */
    var userId: Option<string>
    /** The local mirror of the server cart. */
    var cart: seq<CartItem>
    var loading: bool
    /** Every request issued so far, oldest first. */
    var requests: seq<Request>

    /** Between operations nothing is loading, and every request issued
        has targeted the cart resource. */
    ghost predicate Valid()
      reads this
    {
      && !loading
      && forall k :: 0 <= k < |requests| ==> OnCart(requests[k])
    }

    /** `!userId` fails: a user is signed in. */
    predicate HasUser()
      reads this
    {
      TruthyString(userId)
    }

    /** Mounting the provider: empty cart, not loading, then the mount
        effect runs `fetchCart` once. */
    constructor (env: Api.Env, user: Option<string>, firstFetch: FetchOutcome)
      ensures Valid()
      ensures baseUrl == Api.ApiBaseUrl(env) && userId == user
      ensures !TruthyString(user) ==> cart == [] && requests == []
      ensures TruthyString(user) ==> cart == FetchedCart(firstFetch) && requests == [FetchRequest(user.value)]
    {
      baseUrl := Api.ApiBaseUrl(env);
      userId := user;
      cart := [];
      loading := false;
      requests := [];
      new;
      FetchCart(firstFetch);
    }

    /** `fetchCart`: with no user, empties the cart and sends nothing;
        otherwise reads the cart and mirrors what the server sent, or the
        empty cart when the read throws or returns no data. */
    method FetchCart(outcome: FetchOutcome)
      requires Valid()
      modifies this
      ensures Valid()
      ensures userId == old(userId)
      ensures !HasUser() ==> cart == [] && requests == old(requests)
      ensures HasUser() ==> cart == FetchedCart(outcome) && requests == old(requests) + [FetchRequest(userId.value)]
    {
      if !HasUser() {
        cart := [];
        return;
      }
      loading := true;
      requests := requests + [FetchRequest(userId.value)];
      match outcome {
        case Fetched(data) =>
          cart := if data.Some? then data.value else [];
        case FetchFailed =>
          cart := [];
      }
      loading := false;
    }

    /** The session supplies a user id. `fetchCart` is memoised on the id
        and the effect depends only on `fetchCart`, so the effect runs again,
        for the new id, only when the id differs from the previous one; an
        unchanged id sends nothing and keeps the cart. */
    method SetUser(user: Option<string>, outcome: FetchOutcome)
      requires Valid()
      modifies this
      ensures Valid()
      ensures userId == user
      ensures user == old(userId) ==> cart == old(cart) && requests == old(requests)
      ensures user != old(userId) && !TruthyString(user) ==> cart == [] && requests == old(requests)
      ensures user != old(userId) && TruthyString(user) ==>
        cart == FetchedCart(outcome) && requests == old(requests) + [FetchRequest(user.value)]
    {
      if user == userId {
        return;
      }
      userId := user;
      FetchCart(outcome);
    }

    /** `addToCart`: posts the food item and quantity (the caller's default
        is 1); when the post succeeds the cart is replaced by a fresh fetch,
        never by a local append; when it throws the cart is unchanged. */
    method AddToCart(foodItemId: string, quantity: int, posted: bool, refetch: FetchOutcome)
      requires Valid()
      modifies this
      ensures Valid()
      ensures userId == old(userId)
      ensures !HasUser() ==> cart == old(cart) && requests == old(requests)
      ensures HasUser() ==>
        var post := Request(Post, Api.Cart(userId.value), AddItem(foodItemId, quantity));
        if posted then cart == FetchedCart(refetch) && requests == old(requests) + [post, FetchRequest(userId.value)]
        else cart == old(cart) && requests == old(requests) + [post]
    {
      if !HasUser() {
        return;
      }
      requests := requests + [Request(Post, Api.Cart(userId.value), AddItem(foodItemId, quantity))];
      if !posted {
        return;
      }
      FetchCart(refetch);
    }

    /** `removeFromCart`: deletes the entry on the server and, when that
        succeeds, drops every local entry with that id. */
    method RemoveFromCart(cartItemId: string, deleted: bool)
      requires Valid()
      modifies this
      ensures Valid()
      ensures userId == old(userId)
      ensures cart == if HasUser() && deleted then Removed(old(cart), cartItemId) else old(cart)
      ensures requests == if HasUser() then old(requests) + [DeleteRequest(userId.value, cartItemId)] else old(requests)
    {
      if !HasUser() {
        return;
      }
      requests := requests + [DeleteRequest(userId.value, cartItemId)];
      if deleted {
        cart := Removed(cart, cartItemId);
      }
    }

    /** The loop of `clearCart`: sends the deletes for `items` one by one,
        in order, and stops after the first one that throws. Returns the
        position of that delete, or `|items|` when none threw. */
    method SendDeletes(u: string, items: seq<CartItem>, failing: set<nat>) returns (failedAt: nat)
      requires forall k :: 0 <= k < |requests| ==> OnCart(requests[k])
      modifies this`requests
      ensures failedAt == FirstFailure(|items|, failing)
      ensures requests == old(requests) + DeleteRequests(u, items[..Sent(failedAt, |items|)])
      ensures forall k :: 0 <= k < |requests| ==> OnCart(requests[k])
    {
      var i := 0;
      while i < |items|
        invariant 0 <= i <= |items|
        invariant forall j :: 0 <= j < i ==> j !in failing
        invariant requests == old(requests) + DeleteRequests(u, items[..i])
        invariant forall k :: 0 <= k < |requests| ==> OnCart(requests[k])
      {
        DeleteRequestsStep(u, items, i);
        requests := requests + [DeleteRequest(u, items[i].id)];
        if i in failing {
          FirstFailureAt(|items|, failing, i);
          return i;
        }
        i := i + 1;
      }
      FirstFailureNone(|items|, failing);
      return i;
    }

    /** `clearCart`: deletes the entries one by one in cart order and empties
        the cart only when every delete succeeded. When the k-th delete
        throws, the deletes up to and including it have been sent but the
        cart is left as it was. */
    method ClearCart(failing: set<nat>)
      requires Valid()
      modifies this
      ensures Valid()
      ensures userId == old(userId)
      ensures !HasUser() ==> cart == old(cart) && requests == old(requests)
      ensures HasUser() ==>
        var n := |old(cart)|;
        var k := FirstFailure(n, failing);
        && requests == old(requests) + DeleteRequests(userId.value, old(cart)[..Sent(k, n)])
        && cart == if k == n then [] else old(cart)
    {
      if !HasUser() {
        return;
      }
      var failedAt := SendDeletes(userId.value, cart, failing);
      if failedAt == |cart| {
        cart := [];
      }
    }

    /** `updateQuantity`: a quantity below 1, or no user, sends nothing and
        changes nothing; otherwise the new quantity is put to the server and,
        when that succeeds, set on every local entry with that id. */
    method UpdateQuantity(cartItemId: string, newQuantity: int, updated: bool)
      requires Valid()
      modifies this
      ensures Valid()
      ensures userId == old(userId)
      ensures cart == if HasUser() && newQuantity >= 1 && updated
        then WithQuantity(old(cart), cartItemId, newQuantity)
        else old(cart)
      ensures requests == if HasUser() && newQuantity >= 1
        then old(requests) + [Request(Put, Api.CartItem(userId.value, cartItemId), SetQuantity(newQuantity))]
        else old(requests)
    {
      if !HasUser() || newQuantity < 1 {
        return;
      }
      requests := requests + [Request(Put, Api.CartItem(userId.value, cartItemId), SetQuantity(newQuantity))];
      if updated {
        cart := WithQuantity(cart, cartItemId, newQuantity);
      }
    }
  }

  /** Every request a valid provider has issued went to a URL under its
      base followed by `/api/cart/`. */
  lemma LogUnderCartRoot(provider: CartProvider)
    requires provider.Valid()
    ensures forall k :: 0 <= k < |provider.requests| ==>
      Api.StartsWith(Url(provider.baseUrl, provider.requests[k]), provider.baseUrl + Api.CartRoot)
  {
  }

  /** `useCart`: the provider in scope, or the error it throws outside one. */
  function UseCart(context: Option<CartProvider>): (r: Result<CartProvider, string>)
    ensures r.Success? <==> context.Some?
    ensures r.Success? ==> r.value == context.value
    ensures r.Failure? ==> r.error == OutsideProviderError
  {
    match context
    case Some(provider) => Success(provider)
    case None => Failure(OutsideProviderError)
  }
}
