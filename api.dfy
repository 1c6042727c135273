/** The API gateway adapter: the backend base URL chosen from the build
    environment, the table of endpoint paths, and the concatenation that
    turns an endpoint path into an absolute URL. */
module Api {
  import opened JsValues

  /** The two build-time settings read from `import.meta.env`. */
  datatype Env = Env(prod: bool, viteApiUrl: Option<string>)

  const DevBaseUrl: string := "http://localhost:3000"
  const ProdDefaultBaseUrl: string := "https://recipe-backend-12345.up.railway.app/"

  /** `s` begins with `prefix`. */
  predicate StartsWith(s: string, prefix: string)
  {
    |prefix| <= |s| && s[..|prefix|] == prefix
  }

  /** The prefix shared by every endpoint path. */
  const ApiRoot: string := "/api/"
  /** The prefix shared by the cart resource and its items. */
  const CartRoot: string := "/api/cart/"

  /** Base URL selection: localhost outside production; in production the
      override when it is set to a non-empty string, else the default. */
  function ApiBaseUrl(env: Env): (base: string)
    ensures base != []
    ensures !env.prod ==> base == DevBaseUrl
    ensures env.prod && TruthyString(env.viteApiUrl) ==> base == env.viteApiUrl.value
    ensures env.prod && !TruthyString(env.viteApiUrl) ==> base == ProdDefaultBaseUrl
  {
    if env.prod then
      if TruthyString(env.viteApiUrl) then env.viteApiUrl.value else ProdDefaultBaseUrl
    else
      DevBaseUrl
  }

  /** The entries of the endpoint table; the templated ones carry their
      parameter, already converted to its string form. */
  datatype Endpoint =
    | Login
    | Signup
    | UserProfile
    | UserData(userId: string)
    | Cart(userId: string)
    | CartItem(userId: string, itemId: string)
    | Orders(userId: string)
    | UserOrders(userId: string)
    | CancelOrder(orderId: string)
    | HomeRecipes
    | Search
    | RecipeDetail(recipeId: string)

  /** The path of an endpoint; every path lies under `/api/`. */
  function Path(e: Endpoint): (p: string)
    ensures StartsWith(p, ApiRoot)
  {
    match e
    case Login => "/api/auth/login"
    case Signup => "/api/auth/signup"
    case UserProfile => "/api/consumer/profile"
    case UserData(u) => "/api/consumer/user-data/" + u
    case Cart(u) => "/api/cart/" + u
    case CartItem(u, i) => "/api/cart/" + u + "/" + i
    case Orders(u) => "/api/orders/" + u
    case UserOrders(u) => "/api/orders/user/" + u
    case CancelOrder(o) => "/api/orders/" + o + "/cancel"
    case HomeRecipes => "/api/home"
    case Search => "/api/search"
    case RecipeDetail(r) => "/api/recipes/" + r
  }

  /** The absolute URL of an endpoint: the base, then the path, with no
      separator added and none removed. */
  function CreateApiUrl(base: string, endpoint: string): (url: string)
    ensures |url| == |base| + |endpoint|
    ensures StartsWith(url, base)
    ensures url[|base|..] == endpoint
  {
    base + endpoint
  }

  /** Two endpoints give the same URL under one base only if they have the
      same path. */
  lemma CreateApiUrlInjective(base: string, e1: string, e2: string)
    requires CreateApiUrl(base, e1) == CreateApiUrl(base, e2)
    ensures e1 == e2
  {
  }

  /** An item of the cart lives below the cart itself. */
  lemma CartItemExtendsCart(u: string, i: string)
    ensures Path(CartItem(u, i)) == Path(Cart(u)) + "/" + i
    ensures StartsWith(Path(CartItem(u, i)), Path(Cart(u)))
    ensures StartsWith(Path(Cart(u)), CartRoot) && StartsWith(Path(CartItem(u, i)), CartRoot)
  {
  }

  /** The orders templates put their parameter at a fixed place: after
      `/api/orders/` (and `user/`), or between `/api/orders/` and `/cancel`. */
  lemma OrderTemplatesPlaceParameter(u: string, o: string)
    ensures Path(Orders(u))[..12] == "/api/orders/" && Path(Orders(u))[12..] == u
    ensures Path(UserOrders(u))[..17] == "/api/orders/user/" && Path(UserOrders(u))[17..] == u
    ensures var p := Path(CancelOrder(o));
      |p| == |o| + 19 && p[..12] == "/api/orders/" && p[12..12 + |o|] == o && p[12 + |o|..] == "/cancel"
  {
  }

  /** Whether two endpoints are the same entry of the table (and, for a
      cart item, belong to the same user), so that they differ at most in
      their parameter. */
  predicate SameTemplate(e1: Endpoint, e2: Endpoint)
  {
    match (e1, e2)
    case (Login, Login) => true
    case (Signup, Signup) => true
    case (UserProfile, UserProfile) => true
    case (UserData(_), UserData(_)) => true
    case (Cart(_), Cart(_)) => true
    case (CartItem(u1, _), CartItem(u2, _)) => u1 == u2
    case (Orders(_), Orders(_)) => true
    case (UserOrders(_), UserOrders(_)) => true
    case (CancelOrder(_), CancelOrder(_)) => true
    case (HomeRecipes, HomeRecipes) => true
    case (Search, Search) => true
    case (RecipeDetail(_), RecipeDetail(_)) => true
    case _ => false
  }

  /** Appending after a common prefix is injective. */
  lemma {:induction false} PrefixCancel(a: string, x: string, y: string)
    requires a + x == a + y
    ensures x == y
  {
    assert x == (a + x)[|a|..];
    assert y == (a + y)[|a|..];
  }

  /** Prepending before a common suffix is injective. */
  lemma {:induction false} SuffixCancel(x: string, y: string, b: string)
    requires x + b == y + b
    ensures x == y
  {
    assert |x| == |y|;
    assert x == (x + b)[..|x|];
    assert y == (y + b)[..|y|];
  }

  /** Within one template the path determines the parameter: distinct ids
      give distinct paths, so for instance the deletes of two different
      cart items never target the same URL. */
  lemma {:induction false} PathInjectiveWithinTemplate(e1: Endpoint, e2: Endpoint)
    requires SameTemplate(e1, e2)
    requires Path(e1) == Path(e2)
    ensures e1 == e2
  {
    match (e1, e2)
    case (UserData(a), UserData(b)) => PrefixCancel("/api/consumer/user-data/", a, b);
    case (Cart(a), Cart(b)) => PrefixCancel("/api/cart/", a, b);
    case (CartItem(u, a), CartItem(_, b)) =>
      assert Path(e1) == ("/api/cart/" + u + "/") + a;
      assert Path(e2) == ("/api/cart/" + u + "/") + b;
      PrefixCancel("/api/cart/" + u + "/", a, b);
    case (Orders(a), Orders(b)) => PrefixCancel("/api/orders/", a, b);
    case (UserOrders(a), UserOrders(b)) => PrefixCancel("/api/orders/user/", a, b);
    case (CancelOrder(a), CancelOrder(b)) =>
      assert Path(e1) == "/api/orders/" + (a + "/cancel");
      assert Path(e2) == "/api/orders/" + (b + "/cancel");
      PrefixCancel("/api/orders/", a + "/cancel", b + "/cancel");
      SuffixCancel(a, b, "/cancel");
    case (RecipeDetail(a), RecipeDetail(b)) => PrefixCancel("/api/recipes/", a, b);
    case _ =>
  }

  /** Across templates the table is ambiguous: cancelling the order with id
      `user` and listing the orders of the user with id `cancel` use the
      same path. */
  lemma CancelOrderOverlapsUserOrders()
    ensures Path(CancelOrder("user")) == Path(UserOrders("cancel"))
  {
  }

  /** A base that ends in `/` (the production default does) is followed by
      a path that starts with `/`, so the URL holds `//api/` where they meet. */
  lemma {:induction false} TrailingSlashDoublesSlash(base: string, e: Endpoint)
    requires base != [] && base[|base| - 1] == '/'
    ensures var url := CreateApiUrl(base, Path(e));
      |base| + 5 <= |url| && url[|base| - 1..|base| + 5] == "//api/"
  {
    var url := CreateApiUrl(base, Path(e));
    var p := Path(e);
    assert p[..5] == ApiRoot;
    assert url[|base| - 1] == '/';
    assert url[|base|..|base| + 5] == p[..5];
    assert url[|base| - 1..|base| + 5] == [url[|base| - 1]] + url[|base|..|base| + 5];
  }

  /** Every URL built on the production default contains `//api/`. */
  lemma {:induction false} ProdDefaultDoublesSlash(e: Endpoint)
    ensures var url := CreateApiUrl(ProdDefaultBaseUrl, Path(e));
      url[|ProdDefaultBaseUrl| - 1..|ProdDefaultBaseUrl| + 5] == "//api/"
  {
    TrailingSlashDoublesSlash(ProdDefaultBaseUrl, e);
  }
}
