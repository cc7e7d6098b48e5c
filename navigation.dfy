/** The app's route table: one fixed route string per destination, the
    product-detail route built from a product id, and the empty-string
    fallback for a missing product id argument. */
module Navigation {

  datatype Option<T> = None | Some(value: T)

  /** The destinations of the navigation graph. */
  datatype Screen = Welcome | SignIn | SignUp | Home | ProductDetail | Cart | Checkout

  /** The path before the product id, shared by the route template and by
      every concrete product-detail route. */
  const ProductDetailPrefix: string := "product_detail/"

  /** Each destination's `route`; the product-detail one is the template with
      the `{productId}` placeholder. */
  function Route(s: Screen): (r: string)
    ensures s == ProductDetail ==> r == CreateRoute("{productId}")
    ensures s != ProductDetail ==> 0 < |r| < |ProductDetailPrefix|
  {
    match s
    case Welcome => "welcome"
    case SignIn => "signin"
    case SignUp => "signup"
    case Home => "home"
    case ProductDetail => ProductDetailPrefix + "{productId}"
    case Cart => "cart"
    case Checkout => "checkout"
  }

  /** `Screen.ProductDetail.createRoute(productId)`. */
  function CreateRoute(productId: string): (r: string)
    ensures |r| == |ProductDetailPrefix| + |productId|
    ensures r[..|ProductDetailPrefix|] == ProductDetailPrefix
    ensures r[|ProductDetailPrefix|..] == productId
  {
    ProductDetailPrefix + productId
  }

  /** The inverse of `CreateRoute`: the text after the product-detail prefix,
      or `None` for a route that does not start with it. */
  function ParseProductRoute(route: string): Option<string>
  {
    if |route| >= |ProductDetailPrefix| && route[..|ProductDetailPrefix|] == ProductDetailPrefix
    then Some(route[|ProductDetailPrefix|..])
    else None
  }

  /** `arguments?.getString("productId") ?: ""`. */
  function ResolveProductId(arg: Option<string>): (r: string)
    ensures arg == None ==> r == ""
    ensures forall v :: arg == Some(v) ==> r == v
  {
    match arg
    case None => ""
    case Some(v) => v
  }

  /** The graph starts at the welcome screen. */
  function StartDestination(): (r: string)
    ensures r == "welcome" && ParseProductRoute(r) == None
    ensures forall s :: Route(s) == r <==> s == Welcome
  {
    Route(Welcome)
  }

  /** Parsing a created route gives the product id back. */
  lemma ParseCreateRoute(productId: string)
    ensures ParseProductRoute(CreateRoute(productId)) == Some(productId)
  {
  }

  /** Every route that parses to an id is the created route of that id. */
  lemma CreateRouteOfParse(route: string, productId: string)
    requires ParseProductRoute(route) == Some(productId)
    ensures CreateRoute(productId) == route
  {
  }

  /** Distinct product ids give distinct routes. */
  lemma CreateRouteInjective(a: string, b: string)
    requires CreateRoute(a) == CreateRoute(b)
    ensures a == b
  {
  }

  /** The template is the created route of the placeholder, so it carries the
      same prefix as every concrete product-detail route. */
  lemma TemplateSharesPrefix()
    ensures Route(ProductDetail) == CreateRoute("{productId}")
    ensures ParseProductRoute(Route(ProductDetail)) == Some("{productId}")
  {
  }

  /** The seven routes are pairwise distinct. */
  lemma RoutesDistinct(s: Screen, t: Screen)
    requires s != t
    ensures Route(s) != Route(t)
  {
  }

  /** No fixed route is a product-detail route: none of them starts with the
      prefix, so none equals any `CreateRoute` output. */
  lemma FixedRoutesAreNotProductRoutes(s: Screen, productId: string)
    requires s != ProductDetail
    ensures ParseProductRoute(Route(s)) == None
    ensures Route(s) != CreateRoute(productId)
  {
  }

  /** The id the product-detail screen receives after navigating to
      `CreateRoute(productId)` is `productId`; a route without the prefix
      delivers the fallback "". */
  lemma ProductIdDelivered(productId: string, route: string)
    ensures ResolveProductId(ParseProductRoute(CreateRoute(productId))) == productId
    ensures ParseProductRoute(route) == None ==> ResolveProductId(ParseProductRoute(route)) == ""
  {
  }
}
