/**
 * The catalog and the stock ledger: the four tables of the application and
 * the rules the database and the models' `save()` impose on them.
 *
 * Every `save()` re-derives `slug` from the current name; names and slugs are
 * unique (a duplicate is refused and nothing changes); a stock entry belongs
 * to one product (CASCADE) and one user (CASCADE) and may name a manufacturer
 * and a shop (SET_NULL).
 */
module Models {
  import opened Wrappers

  type CompanyId = nat
  type ShopId = nat
  type ProductId = nat
  type ProdInfoId = nat
  type UserId = nat

  /** A manufacturer; `company` is its unique name. */
  datatype Company = Company(company: string, slug: string)

  /** A retailer; `shop` is its unique name. */
  datatype Shop = Shop(shop: string, slug: string)

  /** A catalog product with the weight a unit of it should have. */
  datatype Product = Product(title: string, slug: string, company: Option<CompanyId>, refWeight: real)

  /** One stock entry: a unit of product `title` owned by `account`. */
  datatype ProdInfo = ProdInfo(title: ProductId, account: UserId, company: Option<CompanyId>,
                               shop: Option<ShopId>, cost: real, weight: real)

  /** A row of the Product table together with its primary key. */
  datatype CatalogEntry = CatalogEntry(id: ProductId, product: Product)

  /** A row of the ProdInfo table together with its primary key. */
  datatype StockRow = StockRow(pk: ProdInfoId, row: ProdInfo)

  /** What a form submits to create a stock entry (the owner is set apart). */
  datatype ProdInfoInput = ProdInfoInput(title: ProductId, company: Option<CompanyId>,
                                         shop: Option<ShopId>, cost: Option<real>, weight: Option<real>)

  datatype StoreError =
    | DuplicateKey(field: string)
    | NotFound(field: string)
    | ValidationError(field: string)
    | IntegrityError(field: string)

  /** The value `cost` takes when none is given (`default=0`). */
  const DefaultCost: real := 0.0

  // -----------------------------------------------------------------------
  // Table invariants
  // -----------------------------------------------------------------------

  predicate KeysBelow<V>(m: map<nat, V>, n: nat) {
    forall k :: k in m ==> k < n
  }

  ghost predicate CompaniesOk(t: map<CompanyId, Company>, slugify: string -> string) {
    && (forall c :: c in t ==> t[c].slug == slugify(t[c].company))
    && (forall a, b :: a in t && b in t && a != b ==> t[a].company != t[b].company && t[a].slug != t[b].slug)
  }

  ghost predicate ShopsOk(t: map<ShopId, Shop>, slugify: string -> string) {
    && (forall s :: s in t ==> t[s].slug == slugify(t[s].shop))
    && (forall a, b :: a in t && b in t && a != b ==> t[a].shop != t[b].shop && t[a].slug != t[b].slug)
  }

  ghost predicate ProductsOk(t: map<ProductId, Product>, companies: map<CompanyId, Company>,
                             slugify: string -> string) {
    && (forall p :: p in t ==> t[p].slug == slugify(t[p].title))
    && (forall a, b :: a in t && b in t && a != b ==> t[a].title != t[b].title && t[a].slug != t[b].slug)
    && (forall p :: p in t && t[p].company.Some? ==> t[p].company.value in companies)
  }

  /** Every stock entry points at an existing product, manufacturer and shop. */
  ghost predicate StockOk(t: map<ProdInfoId, ProdInfo>, products: map<ProductId, Product>,
                          companies: map<CompanyId, Company>, shops: map<ShopId, Shop>) {
    forall i :: i in t ==>
      && t[i].title in products
      && (t[i].company.Some? ==> t[i].company.value in companies)
      && (t[i].shop.Some? ==> t[i].shop.value in shops)
  }

  // -----------------------------------------------------------------------
  // Lookups used by the uniqueness checks
  // -----------------------------------------------------------------------

  predicate CompanyNameTaken(t: map<CompanyId, Company>, except: Option<CompanyId>, name: string) {
    exists c :: c in t && Some(c) != except && t[c].company == name
  }

  predicate CompanySlugTaken(t: map<CompanyId, Company>, except: Option<CompanyId>, slug: string) {
    exists c :: c in t && Some(c) != except && t[c].slug == slug
  }

  predicate ShopNameTaken(t: map<ShopId, Shop>, except: Option<ShopId>, name: string) {
    exists s :: s in t && Some(s) != except && t[s].shop == name
  }

  predicate ShopSlugTaken(t: map<ShopId, Shop>, except: Option<ShopId>, slug: string) {
    exists s :: s in t && Some(s) != except && t[s].slug == slug
  }

  predicate TitleTaken(t: map<ProductId, Product>, except: Option<ProductId>, title: string) {
    exists p :: p in t && Some(p) != except && t[p].title == title
  }

  predicate ProductSlugTaken(t: map<ProductId, Product>, except: Option<ProductId>, slug: string) {
    exists p :: p in t && Some(p) != except && t[p].slug == slug
  }

  /** A nullable foreign key is either null or names an existing row. */
  predicate RefOk<K, V>(r: Option<K>, t: map<K, V>) {
    r.None? || r.value in t
  }

  // -----------------------------------------------------------------------
  // on_delete rules, on the tables as values
  // -----------------------------------------------------------------------

  /** CASCADE from Product: the stock entries of product `p` go with it. */
  function WithoutProductRows(t: map<ProdInfoId, ProdInfo>, p: ProductId): (r: map<ProdInfoId, ProdInfo>)
    ensures forall i :: i in r <==> i in t && t[i].title != p
    ensures forall i :: i in r ==> r[i] == t[i]
  {
    map i | i in t && t[i].title != p :: t[i]
  }

  /** CASCADE from the user table: the stock entries owned by `u` go with the user. */
  function WithoutAccountRows(t: map<ProdInfoId, ProdInfo>, u: UserId): (r: map<ProdInfoId, ProdInfo>)
    ensures forall i :: i in r <==> i in t && t[i].account != u
    ensures forall i :: i in r ==> r[i] == t[i]
  {
    map i | i in t && t[i].account != u :: t[i]
  }

  /** SET_NULL from Company on the stock entries: every entry survives. */
  function NullStockCompany(t: map<ProdInfoId, ProdInfo>, c: CompanyId): (r: map<ProdInfoId, ProdInfo>)
    ensures r.Keys == t.Keys
    ensures forall i :: i in r ==> r[i].company != Some(c) &&
                                   r[i] == (if t[i].company == Some(c) then t[i].(company := None) else t[i])
  {
    map i | i in t :: if t[i].company == Some(c) then t[i].(company := None) else t[i]
  }

  /** SET_NULL from Company on the products: every product survives. */
  function NullProductCompany(t: map<ProductId, Product>, c: CompanyId): (r: map<ProductId, Product>)
    ensures r.Keys == t.Keys
    ensures forall p :: p in r ==> r[p].company != Some(c) &&
                                   r[p] == (if t[p].company == Some(c) then t[p].(company := None) else t[p])
  {
    map p | p in t :: if t[p].company == Some(c) then t[p].(company := None) else t[p]
  }

  /** SET_NULL from Shop on the stock entries: every entry survives. */
  function NullStockShop(t: map<ProdInfoId, ProdInfo>, s: ShopId): (r: map<ProdInfoId, ProdInfo>)
    ensures r.Keys == t.Keys
    ensures forall i :: i in r ==> r[i].shop != Some(s) &&
                                   r[i] == (if t[i].shop == Some(s) then t[i].(shop := None) else t[i])
  {
    map i | i in t :: if t[i].shop == Some(s) then t[i].(shop := None) else t[i]
  }

  /** The row a new stock entry becomes: `cost` defaults to 0, the owner is given apart. */
  function NewProdInfo(account: UserId, input: ProdInfoInput): (r: ProdInfo)
    requires input.weight.Some?
    ensures r.account == account && r.title == input.title
    ensures r.company == input.company && r.shop == input.shop && r.weight == input.weight.value
    ensures r.cost == if input.cost.Some? then input.cost.value else DefaultCost
  {
    ProdInfo(input.title, account, input.company, input.shop,
             if input.cost.Some? then input.cost.value else DefaultCost, input.weight.value)
  }

  /** The first reason a new stock entry is refused, checked in the order the form and the database do. */
  function ProdInfoError(account: Option<UserId>, input: ProdInfoInput, products: map<ProductId, Product>,
                         companies: map<CompanyId, Company>, shops: map<ShopId, Shop>): (e: Option<StoreError>)
    ensures e.None? <==> input.title in products && RefOk(input.company, companies) &&
                         RefOk(input.shop, shops) && input.weight.Some? && account.Some?
  {
    if input.title !in products then Some(NotFound("title"))
    else if !RefOk(input.company, companies) then Some(NotFound("company"))
    else if !RefOk(input.shop, shops) then Some(NotFound("shop"))
    else if input.weight.None? then Some(ValidationError("weight"))
    else if account.None? then Some(IntegrityError("account"))
    else None
  }

  /** SET_NULL keeps the products consistent with the smaller Company table. */
  lemma NullProductCompanyOk(t: map<ProductId, Product>, companies: map<CompanyId, Company>,
                             slugify: string -> string, c: CompanyId)
    requires ProductsOk(t, companies, slugify)
    ensures ProductsOk(NullProductCompany(t, c), companies - {c}, slugify)
  {
    var r := NullProductCompany(t, c);
    forall p | p in r
      ensures r[p].title == t[p].title && r[p].slug == t[p].slug
      ensures r[p].company.Some? ==> r[p].company.value in companies - {c}
    {
    }
  }

  /** SET_NULL keeps the stock entries consistent with the smaller Company table. */
  lemma NullStockCompanyOk(t: map<ProdInfoId, ProdInfo>, products: map<ProductId, Product>,
                           companies: map<CompanyId, Company>, shops: map<ShopId, Shop>, c: CompanyId)
    requires StockOk(t, products, companies, shops)
    ensures StockOk(NullStockCompany(t, c), products, companies - {c}, shops)
  {
  }

  // -----------------------------------------------------------------------
  // The store
  // -----------------------------------------------------------------------

  /**
   * The four tables. `slugify` is the transliterating slug function, left
   * uninterpreted: the store only relies on it being a function. Fresh
   * primary keys come from `nextId`, start at 1 (a row with pk 0 would read
   * as unsaved) and are never reused.
   */
  class Store {
    const slugify: string -> string
    var companies: map<CompanyId, Company>
    var shops: map<ShopId, Shop>
    var products: map<ProductId, Product>
    var stock: map<ProdInfoId, ProdInfo>
    var nextId: nat

    ghost predicate Valid()
      reads this
    {
      && CompaniesOk(companies, slugify)
      && ShopsOk(shops, slugify)
      && ProductsOk(products, companies, slugify)
      && StockOk(stock, products, companies, shops)
      && KeysBelow(companies, nextId) && KeysBelow(shops, nextId)
      && KeysBelow(products, nextId) && KeysBelow(stock, nextId)
      && nextId >= 1 && 0 !in companies && 0 !in shops && 0 !in products && 0 !in stock
    }

    constructor (slugify: string -> string)
      ensures Valid() && this.slugify == slugify
      ensures companies == map[] && shops == map[] && products == map[] && stock == map[]
    {
      this.slugify := slugify;
      companies, shops, products, stock := map[], map[], map[], map[];
      nextId := 1;
    }

    // --- Company ---------------------------------------------------------

    /** `Company(company=name).save()` on a new row. */
    method CreateCompany(name: string) returns (r: Result<CompanyId, StoreError>)
      requires Valid()
      modifies this
      ensures Valid()
      ensures r.Failure? <==> CompanyNameTaken(old(companies), None, name) ||
                              CompanySlugTaken(old(companies), None, slugify(name))
      ensures r.Failure? ==> r.error.DuplicateKey? && unchanged(this)
      ensures r.Success? ==> r.value !in old(companies) &&
                             companies == old(companies)[r.value := Company(name, slugify(name))]
      ensures shops == old(shops) && products == old(products) && stock == old(stock)
    {
      var slug := slugify(name);
      if CompanyNameTaken(companies, None, name) {
        return Failure(DuplicateKey("company"));
      }
      if CompanySlugTaken(companies, None, slug) {
        return Failure(DuplicateKey("slug"));
      }
      var id := nextId;
      companies := companies[id := Company(name, slug)];
      nextId := nextId + 1;
      r := Success(id);
    }

    /** `save()` on an existing company under the name `name`. */
    method SaveCompany(id: CompanyId, name: string) returns (r: Result<CompanyId, StoreError>)
      requires Valid()
      modifies this
      ensures Valid()
      ensures r.Failure? <==> id !in old(companies) || CompanyNameTaken(old(companies), Some(id), name) ||
                              CompanySlugTaken(old(companies), Some(id), slugify(name))
      ensures r.Failure? ==> unchanged(this)
      ensures r.Success? ==> r.value == id && companies == old(companies)[id := Company(name, slugify(name))]
      ensures r.Success? && name == old(companies[id].company) ==> companies[id] == old(companies[id])
      ensures shops == old(shops) && products == old(products) && stock == old(stock)
    {
      if id !in companies {
        return Failure(NotFound("company"));
      }
      var slug := slugify(name);
      if CompanyNameTaken(companies, Some(id), name) {
        return Failure(DuplicateKey("company"));
      }
      if CompanySlugTaken(companies, Some(id), slug) {
        return Failure(DuplicateKey("slug"));
      }
      companies := companies[id := Company(name, slug)];
      r := Success(id);
    }

    /** Deleting a company nulls `company` on its products and stock entries, which survive. */
    method DeleteCompany(id: CompanyId) returns (r: Result<CompanyId, StoreError>)
      requires Valid()
      modifies this
      ensures Valid()
      ensures r.Failure? <==> id !in old(companies)
      ensures r.Failure? ==> unchanged(this)
      ensures r.Success? ==> r.value == id && companies == old(companies) - {id} &&
                             products == NullProductCompany(old(products), id) &&
                             stock == NullStockCompany(old(stock), id)
      ensures shops == old(shops)
    {
      if id !in companies {
        return Failure(NotFound("company"));
      }
      NullProductCompanyOk(products, companies, slugify, id);
      NullStockCompanyOk(stock, products, companies, shops, id);
      companies := companies - {id};
      products := NullProductCompany(products, id);
      stock := NullStockCompany(stock, id);
      r := Success(id);
    }

    // --- Shop ------------------------------------------------------------

    /** `Shop(shop=name).save()` on a new row. */
    method CreateShop(name: string) returns (r: Result<ShopId, StoreError>)
      requires Valid()
      modifies this
      ensures Valid()
      ensures r.Failure? <==> ShopNameTaken(old(shops), None, name) ||
                              ShopSlugTaken(old(shops), None, slugify(name))
      ensures r.Failure? ==> r.error.DuplicateKey? && unchanged(this)
      ensures r.Success? ==> r.value !in old(shops) && shops == old(shops)[r.value := Shop(name, slugify(name))]
      ensures companies == old(companies) && products == old(products) && stock == old(stock)
    {
      var slug := slugify(name);
      if ShopNameTaken(shops, None, name) {
        return Failure(DuplicateKey("shop"));
      }
      if ShopSlugTaken(shops, None, slug) {
        return Failure(DuplicateKey("slug"));
      }
      var id := nextId;
      shops := shops[id := Shop(name, slug)];
      nextId := nextId + 1;
      r := Success(id);
    }

    /** `save()` on an existing shop under the name `name`. */
    method SaveShop(id: ShopId, name: string) returns (r: Result<ShopId, StoreError>)
      requires Valid()
      modifies this
      ensures Valid()
      ensures r.Failure? <==> id !in old(shops) || ShopNameTaken(old(shops), Some(id), name) ||
                              ShopSlugTaken(old(shops), Some(id), slugify(name))
      ensures r.Failure? ==> unchanged(this)
      ensures r.Success? ==> r.value == id && shops == old(shops)[id := Shop(name, slugify(name))]
      ensures r.Success? && name == old(shops[id].shop) ==> shops[id] == old(shops[id])
      ensures companies == old(companies) && products == old(products) && stock == old(stock)
    {
      if id !in shops {
        return Failure(NotFound("shop"));
      }
      var slug := slugify(name);
      if ShopNameTaken(shops, Some(id), name) {
        return Failure(DuplicateKey("shop"));
      }
      if ShopSlugTaken(shops, Some(id), slug) {
        return Failure(DuplicateKey("slug"));
      }
      shops := shops[id := Shop(name, slug)];
      r := Success(id);
    }

    /** Deleting a shop nulls `shop` on its stock entries, which survive. */
    method DeleteShop(id: ShopId) returns (r: Result<ShopId, StoreError>)
      requires Valid()
      modifies this
      ensures Valid()
      ensures r.Failure? <==> id !in old(shops)
      ensures r.Failure? ==> unchanged(this)
      ensures r.Success? ==> r.value == id && shops == old(shops) - {id} && stock == NullStockShop(old(stock), id)
      ensures companies == old(companies) && products == old(products)
    {
      if id !in shops {
        return Failure(NotFound("shop"));
      }
      shops := shops - {id};
      stock := NullStockShop(stock, id);
      r := Success(id);
    }

    // --- Product ---------------------------------------------------------

    /** `Product(...).save()` on a new row; `ref_weight` is required. */
    method CreateProduct(title: string, company: Option<CompanyId>, refWeight: Option<real>)
      returns (r: Result<ProductId, StoreError>)
      requires Valid()
      modifies this
      ensures Valid()
      ensures r.Failure? <==> refWeight.None? || !RefOk(company, old(companies)) ||
                              TitleTaken(old(products), None, title) ||
                              ProductSlugTaken(old(products), None, slugify(title))
      ensures r.Failure? ==> unchanged(this)
      ensures r.Success? ==> r.value !in old(products) &&
                             products == old(products)[r.value := Product(title, slugify(title), company, refWeight.value)]
      ensures companies == old(companies) && shops == old(shops) && stock == old(stock)
    {
      if refWeight.None? {
        return Failure(ValidationError("ref_weight"));
      }
      if !RefOk(company, companies) {
        return Failure(NotFound("company"));
      }
      var slug := slugify(title);
      if TitleTaken(products, None, title) {
        return Failure(DuplicateKey("title"));
      }
      if ProductSlugTaken(products, None, slug) {
        return Failure(DuplicateKey("slug"));
      }
      var id := nextId;
      products := products[id := Product(title, slug, company, refWeight.value)];
      nextId := nextId + 1;
      r := Success(id);
    }

    /** `save()` on an existing product with edited title, manufacturer and reference weight. */
    method SaveProduct(id: ProductId, title: string, company: Option<CompanyId>, refWeight: real)
      returns (r: Result<ProductId, StoreError>)
      requires Valid()
      modifies this
      ensures Valid()
      ensures r.Failure? <==> id !in old(products) || !RefOk(company, old(companies)) ||
                              TitleTaken(old(products), Some(id), title) ||
                              ProductSlugTaken(old(products), Some(id), slugify(title))
      ensures r.Failure? ==> unchanged(this)
      ensures r.Success? ==> r.value == id &&
                             products == old(products)[id := Product(title, slugify(title), company, refWeight)]
      ensures r.Success? && title == old(products[id].title) ==> products[id].slug == old(products[id].slug)
      ensures companies == old(companies) && shops == old(shops) && stock == old(stock)
    {
      if id !in products {
        return Failure(NotFound("product"));
      }
      if !RefOk(company, companies) {
        return Failure(NotFound("company"));
      }
      var slug := slugify(title);
      if TitleTaken(products, Some(id), title) {
        return Failure(DuplicateKey("title"));
      }
      if ProductSlugTaken(products, Some(id), slug) {
        return Failure(DuplicateKey("slug"));
      }
      products := products[id := Product(title, slug, company, refWeight)];
      r := Success(id);
    }

    /** Deleting a product deletes every stock entry of it. */
    method DeleteProduct(id: ProductId) returns (r: Result<ProductId, StoreError>)
      requires Valid()
      modifies this
      ensures Valid()
      ensures r.Failure? <==> id !in old(products)
      ensures r.Failure? ==> unchanged(this)
      ensures r.Success? ==> r.value == id && products == old(products) - {id} &&
                             stock == WithoutProductRows(old(stock), id)
      ensures companies == old(companies) && shops == old(shops)
    {
      if id !in products {
        return Failure(NotFound("product"));
      }
      products := products - {id};
      stock := WithoutProductRows(stock, id);
      r := Success(id);
    }

    // --- Stock entries ---------------------------------------------------

    /** Saving a new stock entry for `account`; `account` is None for an anonymous request. */
    method CreateProdInfo(account: Option<UserId>, input: ProdInfoInput) returns (r: Result<ProdInfoId, StoreError>)
      requires Valid()
      modifies this
      ensures Valid()
      ensures r.Failure? <==> ProdInfoError(account, input, old(products), old(companies), old(shops)).Some?
      ensures r.Failure? ==> r.error == ProdInfoError(account, input, old(products), old(companies), old(shops)).value
      ensures r.Failure? ==> unchanged(this)
      ensures r.Success? ==> r.value !in old(stock) &&
                             stock == old(stock)[r.value := NewProdInfo(account.value, input)]
      ensures companies == old(companies) && shops == old(shops) && products == old(products)
    {
      var e := ProdInfoError(account, input, products, companies, shops);
      if e.Some? {
        return Failure(e.value);
      }
      var id := nextId;
      stock := stock[id := NewProdInfo(account.value, input)];
      nextId := nextId + 1;
      r := Success(id);
    }

    /** Saving an edited stock entry: only `shop`, `cost` and `weight` are written. No owner check is made. */
    method SaveProdInfo(id: ProdInfoId, shop: Option<ShopId>, cost: real, weight: real)
      returns (r: Result<ProdInfoId, StoreError>)
      requires Valid()
      modifies this
      ensures Valid()
      ensures r.Failure? <==> id !in old(stock) || !RefOk(shop, old(shops))
      ensures r.Failure? ==> unchanged(this)
      ensures r.Success? ==> r.value == id &&
                             stock == old(stock)[id := old(stock[id]).(shop := shop, cost := cost, weight := weight)]
      ensures companies == old(companies) && shops == old(shops) && products == old(products)
    {
      if id !in stock {
        return Failure(NotFound("prodinfo"));
      }
      if !RefOk(shop, shops) {
        return Failure(NotFound("shop"));
      }
      stock := stock[id := stock[id].(shop := shop, cost := cost, weight := weight)];
      r := Success(id);
    }

    /** Deleting one stock entry. No owner check is made. */
    method DeleteProdInfo(id: ProdInfoId) returns (r: Result<ProdInfoId, StoreError>)
      requires Valid()
      modifies this
      ensures Valid()
      ensures r.Failure? <==> id !in old(stock)
      ensures r.Failure? ==> unchanged(this)
      ensures r.Success? ==> r.value == id && stock == old(stock) - {id}
      ensures companies == old(companies) && shops == old(shops) && products == old(products)
    {
      if id !in stock {
        return Failure(NotFound("prodinfo"));
      }
      stock := stock - {id};
      r := Success(id);
    }

    /** Deleting user `u` (in the auth tables) deletes every stock entry the user owns. */
    method DeleteUser(u: UserId)
      requires Valid()
      modifies this
      ensures Valid()
      ensures stock == WithoutAccountRows(old(stock), u)
      ensures companies == old(companies) && shops == old(shops) && products == old(products)
    {
      stock := WithoutAccountRows(stock, u);
    }
  }

  /** Creating "Acme" twice: the second save is refused and the first row is kept as it was. */
  method DuplicateCompanyRefused(slugify: string -> string)
  {
    var store := new Store(slugify);
    var first := store.CreateCompany("Acme");
    assert first.Success?;
    var row := store.companies[first.value];
    assert CompanyNameTaken(store.companies, None, "Acme");
    var second := store.CreateCompany("Acme");
    assert second.Failure? && second.error.DuplicateKey?;
    assert store.companies[first.value] == row;
  }
}
