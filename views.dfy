/**
 * The view-level rules: the ajax title list, the per-user detail listing,
 * the slug taken back out of a request path, and the calls the main page
 * and the search page make into `query_context`.
 */
module Views {
  import opened Wrappers
  import opened Text
  import opened Models
  import opened Aggregation
  import opened Forms

  // -----------------------------------------------------------------------
  // load_titles
  // -----------------------------------------------------------------------

  /** A placeholder option of the title drop-down. */
  datatype Choice = Choice(pk: string, title: string)

  /** What the drop-down template receives as `titles`. */
  datatype Titles = ProductOptions(products: seq<CatalogEntry>) | Placeholder(choices: seq<Choice>)

  const ChooseCompanyFirst: string := "Выберите сначала производителя"

  /** Errors the views raise: a non-integer manufacturer key, an anonymous visitor in an account filter, a path too short to index. */
  datatype ViewError = ValueError | TypeError | PathIndexError

  /**
   * `load_titles` for the `company` GET parameter `company` (absent: `None`)
   * against the catalog in its default order.
   */
  function LoadTitles(company: Option<string>, catalog: seq<CatalogEntry>): (r: Result<Titles, ViewError>)
    ensures !Truthy(company) ==> r == Success(Placeholder([Choice("", ChooseCompanyFirst)]))
    ensures Truthy(company) ==> (r.Success? <==> ParseInt(company.value).Some?)
    ensures Truthy(company) && r.Success? ==>
              r.value.ProductOptions? &&
              (forall e :: e in r.value.products <==>
                             e in catalog && e.product.company.Some? &&
                             e.product.company.value == ParseInt(company.value).value) &&
              (TitleOrdered(catalog) ==> TitleOrdered(r.value.products))
  {
    if company.Some? && company.value != "" then
      match ParseInt(company.value)
      case Some(n) => Success(ProductOptions(CompanyProducts(catalog, n)))
      case None => Failure(ValueError)
    else
      Success(Placeholder([Choice("", ChooseCompanyFirst)]))
  }

  /** The value a `<select>` of manufacturers submits is the decimal primary key, which selects that manufacturer's products. */
  lemma LoadTitlesForSelectedCompany(c: CompanyId, catalog: seq<CatalogEntry>)
    ensures LoadTitles(Some(ShowNat(c)), catalog) == Success(ProductOptions(CompanyProducts(catalog, c)))
  {
    ParseShowNat(c);
  }

  // -----------------------------------------------------------------------
  // Detail.get_context_data: product_set
  // -----------------------------------------------------------------------

  /** One row of `product_set`: key, shop name, cost and weight. */
  datatype DetailRow = DetailRow(pk: ProdInfoId, shop: Option<string>, cost: real, weight: real)

  /** `shop__shop` across the nullable foreign key. */
  function ShopName(s: Option<ShopId>, shops: map<ShopId, Shop>): Option<string> {
    if s.Some? && s.value in shops then Some(shops[s.value].shop) else None
  }

  function ToDetailRow(s: StockRow, shops: map<ShopId, Shop>): DetailRow {
    DetailRow(s.pk, ShopName(s.row.shop, shops), s.row.cost, s.row.weight)
  }

  predicate OwnedRowOf(s: StockRow, user: UserId, p: ProductId) {
    s.row.account == user && s.row.title == p
  }

  /**
   * The `product_set` of the detail page: the
   * ledger rows of the requesting user that reference the displayed product,
   * in ledger order.
   */
  function ProductSet(ledger: seq<StockRow>, user: UserId, p: ProductId, shops: map<ShopId, Shop>): (r: seq<DetailRow>)
    ensures |r| <= |ledger|
    ensures forall d :: d in r ==> exists s :: s in ledger && OwnedRowOf(s, user, p) && d == ToDetailRow(s, shops)
    ensures forall s :: s in ledger && OwnedRowOf(s, user, p) ==> ToDetailRow(s, shops) in r
    decreases |ledger|
  {
    if ledger == [] then []
    else
      var rest := ProductSet(ledger[1..], user, p, shops);
      assert forall s :: s in ledger[1..] ==> s in ledger;
      assert forall s :: s in ledger ==> s == ledger[0] || s in ledger[1..];
      (if OwnedRowOf(ledger[0], user, p) then [ToDetailRow(ledger[0], shops)] else []) + rest
  }

  /** Another user's rows never appear, whatever they hold. */
  lemma {:induction false} ProductSetIgnoresOthers(ledger: seq<StockRow>, s: StockRow, user: UserId, p: ProductId,
                                                   shops: map<ShopId, Shop>)
    requires s.row.account != user
    ensures ProductSet(ledger + [s], user, p, shops) == ProductSet(ledger, user, p, shops)
    decreases |ledger|
  {
    if ledger == [] {
      assert [s][1..] == [];
    } else {
      assert (ledger + [s])[1..] == ledger[1..] + [s];
      ProductSetIgnoresOthers(ledger[1..], s, user, p, shops);
    }
  }

  // -----------------------------------------------------------------------
  // The slug in the request path
  // -----------------------------------------------------------------------

  /** The third part from the end of the path split at '/'; `None` where Python raises IndexError (fewer than three parts). */
  function SlugFromPath(path: string): (r: Option<string>)
    ensures r.Some? <==> |Split(path, '/')| >= 3
  {
    var parts := Split(path, '/');
    if |parts| >= 3 then Some(parts[|parts| - 3]) else None
  }

  /** The three routes whose views read the slug from the path. */
  datatype Route =
    | EditProdInfo(slug: string, id: nat)
    | DeleteProdInfo(slug: string, id: nat)
    | AddProdInfoDetail(slug: string)

  /** The path of a route below the prefix where the application is mounted. */
  function RoutePath(r: Route): string {
    match r
    case EditProdInfo(slug, id) => "detail" + "/" + slug + "/" + ShowNat(id) + "/" + ""
    case DeleteProdInfo(slug, id) => "detail" + "/" + slug + "/" + ShowNat(id) + "/" + "delete"
    case AddProdInfoDetail(slug) => "detail" + "/" + slug + "/" + "add_prodinfo" + "/" + ""
  }

  predicate SlugChar(c: char) {
    c == '-' || c == '_' || ('a' <= c <= 'z') || ('A' <= c <= 'Z') || IsDigit(c)
  }

  /** What the `<slug:...>` converter accepts. */
  predicate IsSlug(s: string) {
    |s| > 0 && forall i :: 0 <= i < |s| ==> SlugChar(s[i])
  }

  /**
   * For every route with a slug-shaped slug, under any mount prefix, the
   * third part from the end of the path is the slug.
   */
  lemma SlugFromRoute(prefix: string, r: Route)
    requires IsSlug(r.slug)
    ensures SlugFromPath(prefix + RoutePath(r)) == Some(r.slug)
  {
    SlugHasNoSlash(r.slug);
    match r {
      case EditProdInfo(slug, id) => SlugFromEditPath(prefix, slug, id);
      case DeleteProdInfo(slug, id) => SlugFromDeletePath(prefix, slug, id);
      case AddProdInfoDetail(slug) => SlugFromAddPath(prefix, slug);
    }
  }

  lemma SlugFromEditPath(prefix: string, slug: string, id: nat)
    requires '/' !in slug
    ensures SlugFromPath(prefix + RoutePath(EditProdInfo(slug, id))) == Some(slug)
  {
    var n := ShowNat(id);
    NoSlashInDigits(n);
    MountedPath(prefix, "detail", slug, n, "");
    SlugBeforeTwoParts(prefix + "detail", slug, n, "");
  }

  lemma SlugFromDeletePath(prefix: string, slug: string, id: nat)
    requires '/' !in slug
    ensures SlugFromPath(prefix + RoutePath(DeleteProdInfo(slug, id))) == Some(slug)
  {
    var n := ShowNat(id);
    NoSlashInDigits(n);
    MountedPath(prefix, "detail", slug, n, "delete");
    SlugBeforeTwoParts(prefix + "detail", slug, n, "delete");
  }

  lemma SlugFromAddPath(prefix: string, slug: string)
    requires '/' !in slug
    ensures SlugFromPath(prefix + RoutePath(AddProdInfoDetail(slug))) == Some(slug)
  {
    MountedPath(prefix, "detail", slug, "add_prodinfo", "");
    SlugBeforeTwoParts(prefix + "detail", slug, "add_prodinfo", "");
  }

  /** Mounting a path of six pieces under a prefix only regroups the concatenation. */
  lemma MountedPath(prefix: string, d: string, slug: string, x: string, y: string)
    ensures prefix + (d + "/" + slug + "/" + x + "/" + y) == (prefix + d) + "/" + slug + "/" + x + "/" + y
  {
  }

  lemma SlugHasNoSlash(s: string)
    requires IsSlug(s)
    ensures '/' !in s
  {
  }

  /** A slash-free part followed by two more slash-free parts is the third part from the end. */
  lemma SlugBeforeTwoParts(head: string, slug: string, x: string, y: string)
    requires '/' !in slug && '/' !in x && '/' !in y
    ensures SlugFromPath(head + "/" + slug + "/" + x + "/" + y) == Some(slug)
  {
    SplitNoSep(slug, '/');
    SplitNoSep(x, '/');
    SplitNoSep(y, '/');
    SplitJoin(head + "/" + slug + "/" + x, '/', y);
    SplitJoin(head + "/" + slug, '/', x);
    SplitJoin(head, '/', slug);
    var parts := Split(head, '/') + [slug] + [x] + [y];
    assert Split(head + "/" + slug + "/" + x + "/" + y, '/') == parts;
    assert parts[|parts| - 3] == slug;
  }

  lemma NoSlashInDigits(s: string)
    requires AllDigits(s)
    ensures '/' !in s
  {
  }

  // -----------------------------------------------------------------------
  // The views that read the slug
  // -----------------------------------------------------------------------

  /** `DetailProdInfoEdit` and `DetailProdInfoDelete`: the entry's key and the slug from the path join the context. */
  method ProdInfoPageContext(base: Context, pk: ProdInfoId, path: string) returns (r: Result<Context, ViewError>)
    ensures r.Failure? <==> SlugFromPath(path).None?
    ensures r.Success? ==> r.value == base["pk" := Key(pk)]["slug" := Str(SlugFromPath(path).value)]
  {
    var context := base;
    context := context["pk" := Key(pk)];
    var parts := Split(path, '/');
    if |parts| < 3 {
      return Failure(PathIndexError);
    }
    context := context["slug" := Str(parts[|parts| - 3])];
    r := Success(context);
  }

  /** `DetailProdInfoAdd.get_context_data`: the slug from the path joins the context. */
  method AddPageContext(base: Context, path: string) returns (r: Result<Context, ViewError>)
    ensures r.Failure? <==> SlugFromPath(path).None?
    ensures r.Success? ==> r.value == base["slug" := Str(SlugFromPath(path).value)]
  {
    var parts := Split(path, '/');
    if |parts| < 3 {
      return Failure(PathIndexError);
    }
    r := Success(base["slug" := Str(parts[|parts| - 3])]);
  }

  /** `DetailProdInfoAdd.get_form_kwargs` and the form built from them: the product is the one the path names. */
  method DetailProdInfoAddForm(user: Option<UserId>, path: string, catalog: seq<CatalogEntry>)
    returns (r: Result<AddProdInfoForm, FormError>)
    ensures SlugFromPath(path).None? ==> r.Failure? && r.error == IndexError
    ensures SlugFromPath(path).Some? ==> (r.Failure? <==> InitialFor(catalog, SlugFromPath(path).value).None?)
    ensures r.Success? ==> fresh(r.value) && r.value.userInfo == user &&
                           r.value.initial == InitialFor(catalog, SlugFromPath(path).value).value
  {
    var slug := SlugFromPath(path);
    if slug.None? {
      return Failure(IndexError);
    }
    r := NewAddProdInfoForm(user, slug.value, catalog);
  }

  /**
   * On the add page of a listed product (slugs being unique), the form
   * starts from that product and its manufacturer.
   */
  lemma AddFormOnProductPage(prefix: string, catalog: seq<CatalogEntry>, k: nat)
    requires k < |catalog| && IsSlug(catalog[k].product.slug)
    requires forall i, j :: 0 <= i < j < |catalog| ==> catalog[i].product.slug != catalog[j].product.slug
    ensures SlugFromPath(prefix + RoutePath(AddProdInfoDetail(catalog[k].product.slug))) == Some(catalog[k].product.slug)
    ensures InitialFor(catalog, catalog[k].product.slug) == Some(Initial(catalog[k].id, catalog[k].product.company))
  {
    SlugFromRoute(prefix, AddProdInfoDetail(catalog[k].product.slug));
    InitialForUniqueSlug(catalog, k);
  }

  // -----------------------------------------------------------------------
  // MainPage and Search
  // -----------------------------------------------------------------------

  /**
   * `MainPage.get_context_data`: the list view's own context `base` goes
   * through `query_context` for the request user, with no search string.
   */
  method MainPageContext(user: UserId, base: Context, ledger: seq<ProdInfo>, catalog: seq<CatalogEntry>,
                         companies: map<CompanyId, Company>) returns (r: Context)
    requires Covered(ledger, catalog)
    ensures r == ContextAfter(user, Some(base), None, ledger, catalog, companies)
    ensures |UserRows(ledger, user)| > 0 ==>
              forall k :: k in base && k != "add_dict" && k != "count_sum" ==> k in r && r[k] == base[k]
  {
    r := QueryContext(user, Some(base), None, ledger, catalog, companies);
    ContextContents(user, Some(base), None, ledger, catalog, companies);
    assert |UserRows(ledger, user)| > 0 ==> forall k :: k in base && k != "add_dict" && k != "count_sum" ==> KeptKey(base, k, None);
  }

  /**
   * `Search.get_queryset`: `query_context` for the request user with the
   * `q` parameter and no starting context. The view has no login
   * requirement; for an anonymous visitor (`None`) the ORM filter on
   * `account` raises.
   */
  method SearchQueryset(user: Option<UserId>, q: Option<string>, ledger: seq<ProdInfo>, catalog: seq<CatalogEntry>,
                        companies: map<CompanyId, Company>) returns (r: Result<Context, ViewError>)
    requires Covered(ledger, catalog)
    ensures r.Failure? <==> user.None?
    ensures r.Success? ==> r.value == ContextAfter(user.value, None, q, ledger, catalog, companies)
    ensures r.Success? && |UserRows(ledger, user.value)| > 0 ==>
              r.value.Keys == (if Truthy(q) then {"add_dict", "count_sum", "products"} else {"add_dict", "count_sum"})
  {
    if user.None? {
      return Failure(TypeError);
    }
    var c := QueryContext(user.value, None, q, ledger, catalog, companies);
    ContextContents(user.value, None, q, ledger, catalog, companies);
    r := Success(c);
  }
}
