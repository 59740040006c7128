/**
 * The stock-entry forms: which products the title drop-down offers, the
 * initial values of the add-to-this-product form, the owner a saved entry
 * receives, and the fields the edit form writes.
 */
module Forms {
  import opened Wrappers
  import opened Text
  import opened Models
  import opened Aggregation

  datatype FormError =
    | AttributeError
    | IndexError
    | InvalidChoice(field: string)
    | Required(field: string)
    | Refused(error: StoreError)

  /** Submitted form data: field name to the submitted string. */
  type FormData = map<string, string>

  /** The model instance a form is bound to: its primary key (`None` before the first save) and its manufacturer. */
  datatype Instance = Instance(pk: Option<ProdInfoId>, company: Option<CompanyId>)

  /** `if self.instance.pk:` — an unsaved instance and the key 0 are both false. */
  predicate HasPk(i: Instance) {
    i.pk.Some? && i.pk.value != 0
  }

  /** Whether the submitted stock-row field `name` was left empty. */
  predicate Blank(input: ProdInfoInput, name: string) {
    || (name == "company" && input.company.None?)
    || (name == "shop" && input.shop.None?)
    || (name == "cost" && input.cost.None?)
    || (name == "weight" && input.weight.None?)
  }

  /**
   * The first empty required field of a stock-row form, in the forms' field
   * order. No field of `ProdInfo` allows blanks, so the `ModelForm` requires
   * company, shop, cost and weight, whatever the columns accept.
   */
  function MissingField(input: ProdInfoInput): (r: Option<string>)
    ensures r.None? <==> input.company.Some? && input.shop.Some? && input.cost.Some? && input.weight.Some?
    ensures r.Some? ==> Blank(input, r.value)
  {
    if input.company.None? then Some("company")
    else if input.shop.None? then Some("shop")
    else if input.cost.None? then Some("cost")
    else if input.weight.None? then Some("weight")
    else None
  }

  /** A row saved through a validated form has a company and a shop, and takes the submitted cost rather than the column default. */
  lemma ValidatedRowComplete(account: UserId, input: ProdInfoInput)
    requires MissingField(input).None?
    ensures NewProdInfo(account, input).company.Some? && NewProdInfo(account, input).shop.Some?
    ensures NewProdInfo(account, input).cost == input.cost.value
  {
  }

  // -----------------------------------------------------------------------
  // ProductInfoForm: the title choices
  // -----------------------------------------------------------------------

  /**
   * The title choices exactly as the constructor computes them. For a saved
   * instance it asks the manufacturer for `title_set`, a reverse accessor no
   * model declares (a Company has `product_set` and `prodinfo_set`), so that
   * branch always raises AttributeError.
   */
  function TitleChoicesAsWritten(data: FormData, instance: Instance, catalog: seq<CatalogEntry>)
    : (r: Result<seq<CatalogEntry>, FormError>)
    ensures r.Failure? <==> "company" !in data && HasPk(instance)
    ensures r.Success? ==> forall e :: e in r.value ==> e in catalog
  {
    if "company" in data then
      match ParseInt(data["company"])
      case Some(n) => Success(CompanyProducts(catalog, n))
      case None => Success([])
    else if HasPk(instance) then
      Failure(AttributeError)
    else
      Success([])
  }

  /**
   * The title choices with the saved-instance branch reading the
   * manufacturer's products, ordered by title. An instance without a
   * manufacturer still raises, as `None.product_set` would.
   */
  function TitleChoices(data: FormData, instance: Instance, catalog: seq<CatalogEntry>)
    : (r: Result<seq<CatalogEntry>, FormError>)
    ensures r.Failure? <==> "company" !in data && HasPk(instance) && instance.company.None?
    ensures r.Success? ==> forall e :: e in r.value ==> e in catalog
    ensures r.Success? && TitleOrdered(catalog) ==> TitleOrdered(r.value)
  {
    if "company" in data then
      match ParseInt(data["company"])
      case Some(n) => Success(CompanyProducts(catalog, n))
      case None => Success([])
    else if HasPk(instance) then
      if instance.company.Some? then Success(CompanyProducts(catalog, instance.company.value))
      else Failure(AttributeError)
    else
      Success([])
  }

  /** Without submitted `company` and without a saved instance, nothing may be chosen. */
  lemma TitleChoicesDefaultEmpty(data: FormData, instance: Instance, catalog: seq<CatalogEntry>)
    requires "company" !in data && !HasPk(instance)
    ensures TitleChoices(data, instance, catalog) == Success([])
  {
  }

  /** The manufacturer drop-down submits the decimal key; the choices are then that manufacturer's products, in title order. */
  lemma TitleChoicesForSelectedCompany(data: FormData, instance: Instance, catalog: seq<CatalogEntry>, c: CompanyId)
    requires "company" in data && data["company"] == ShowNat(c)
    ensures TitleChoices(data, instance, catalog) == Success(CompanyProducts(catalog, c))
    ensures forall e :: e in TitleChoices(data, instance, catalog).value <==>
                        e in catalog && e.product.company == Some(c)
  {
    ParseShowNat(c);
  }

  /** A `company` value that is not an integer leaves the choices empty and raises nothing. */
  lemma TitleChoicesUnparsable(data: FormData, instance: Instance, catalog: seq<CatalogEntry>)
    requires "company" in data && ParseInt(data["company"]).None?
    ensures TitleChoices(data, instance, catalog) == Success([])
  {
  }

  /** For a saved instance and no submitted `company`, the choices are the instance manufacturer's products. */
  lemma TitleChoicesForInstance(data: FormData, instance: Instance, catalog: seq<CatalogEntry>)
    requires "company" !in data && HasPk(instance) && instance.company.Some?
    ensures TitleChoices(data, instance, catalog).Success?
    ensures forall e :: e in TitleChoices(data, instance, catalog).value <==>
                        e in catalog && e.product.company == instance.company
  {
  }

  /** The two definitions differ exactly on a saved instance bound to a form without `company` data. */
  lemma TitleSetMissing(c: CompanyId, catalog: seq<CatalogEntry>)
    ensures TitleChoicesAsWritten(map[], Instance(Some(1), Some(c)), catalog) == Failure(AttributeError)
    ensures TitleChoices(map[], Instance(Some(1), Some(c)), catalog) == Success(CompanyProducts(catalog, c))
  {
  }

  /** Keys start at 1, so every stored row reads as saved. */
  lemma StoredRowHasPk(store: Store, id: ProdInfoId)
    requires store.Valid() && id in store.stock
    ensures HasPk(Instance(Some(id), store.stock[id].company))
  {
  }

  /** As written, binding the form to any stored row without `company` data raises. */
  lemma StoredRowTitleSetMissing(store: Store, id: ProdInfoId, catalog: seq<CatalogEntry>)
    requires store.Valid() && id in store.stock
    ensures TitleChoicesAsWritten(map[], Instance(Some(id), store.stock[id].company), catalog) == Failure(AttributeError)
  {
    StoredRowHasPk(store, id);
  }

  /**
   * One POST both selects the choices and carries the stored `company`: when
   * the two agree, the chosen title is a product of the stored manufacturer.
   */
  lemma ChosenTitleOfSubmittedCompany(data: FormData, instance: Instance, catalog: seq<CatalogEntry>,
                                      c: CompanyId, input: ProdInfoInput)
    requires "company" in data && data["company"] == ShowNat(c) && input.company == Some(c)
    requires input.title in Ids(TitleChoices(data, instance, catalog).value)
    ensures exists e :: e in catalog && e.id == input.title && e.product.company == input.company
  {
    TitleChoicesForSelectedCompany(data, instance, catalog, c);
    var choices := TitleChoices(data, instance, catalog).value;
    var i :| 0 <= i < |choices| && Ids(choices)[i] == input.title;
    assert choices[i] in choices;
  }

  lemma TitleChoicesAgreeElsewhere(data: FormData, instance: Instance, catalog: seq<CatalogEntry>)
    requires "company" in data || !HasPk(instance)
    ensures TitleChoicesAsWritten(data, instance, catalog) == TitleChoices(data, instance, catalog)
  {
  }

  // -----------------------------------------------------------------------
  // ProductInfoForm
  // -----------------------------------------------------------------------

  /** The add-a-unit form: the owner to assign and the products its title field accepts. */
  class ProductInfoForm {
    const userInfo: Option<UserId>
    var titleChoices: seq<CatalogEntry>

    /** The field set-up before the data is looked at: no product can be chosen. */
    constructor (userInfo: Option<UserId>)
      ensures this.userInfo == userInfo && titleChoices == []
    {
      this.userInfo := userInfo;
      titleChoices := [];
    }

    /**
     * Form validation (the title against the choices, then the required
     * fields), then the save: the new entry belongs to `userInfo`, whatever
     * was submitted.
     */
    method Save(store: Store, input: ProdInfoInput) returns (r: Result<ProdInfoId, FormError>)
      requires store.Valid()
      modifies store
      ensures store.Valid()
      ensures r.Success? <==> input.title in Ids(titleChoices) && MissingField(input).None? &&
                              ProdInfoError(userInfo, input, old(store.products), old(store.companies),
                                            old(store.shops)).None?
      ensures input.title !in Ids(titleChoices) ==> r == Failure(InvalidChoice("title")) && unchanged(store)
      ensures input.title in Ids(titleChoices) && MissingField(input).Some? ==>
                r == Failure(Required(MissingField(input).value))
      ensures input.title in Ids(titleChoices) && MissingField(input).None? && r.Failure? ==>
                r == Failure(Refused(ProdInfoError(userInfo, input, old(store.products), old(store.companies),
                                                   old(store.shops)).value))
      ensures r.Success? ==> r.value !in old(store.stock) &&
                             store.stock == old(store.stock)[r.value := NewProdInfo(userInfo.value, input)] &&
                             store.stock[r.value].account == userInfo.value
      ensures r.Failure? ==> unchanged(store)
      ensures store.products == old(store.products) && store.companies == old(store.companies) &&
              store.shops == old(store.shops)
    {
      if input.title !in Ids(titleChoices) {
        return Failure(InvalidChoice("title"));
      }
      var missing := MissingField(input);
      if missing.Some? {
        return Failure(Required(missing.value));
      }
      var saved := store.CreateProdInfo(userInfo, input);
      match saved
      case Success(id) => r := Success(id);
      case Failure(e) => r := Failure(Refused(e));
    }
  }

  /** Building the add-a-unit form for `userInfo` from the submitted data and the bound instance, failing where the constructor raises. */
  method NewProductInfoForm(userInfo: Option<UserId>, data: FormData, instance: Instance, catalog: seq<CatalogEntry>)
    returns (r: Result<ProductInfoForm, FormError>)
    ensures r.Failure? <==> TitleChoices(data, instance, catalog).Failure?
    ensures r.Failure? ==> r.error == AttributeError
    ensures r.Success? ==> fresh(r.value) && r.value.userInfo == userInfo &&
                           r.value.titleChoices == TitleChoices(data, instance, catalog).value
    ensures TitleChoicesAsWritten(data, instance, catalog).Success? ==>
              r.Success? && r.value.titleChoices == TitleChoicesAsWritten(data, instance, catalog).value
  {
    var form := new ProductInfoForm(userInfo);
    if "company" in data {
      var n := ParseInt(data["company"]);
      if n.Some? {
        form.titleChoices := CompanyProducts(catalog, n.value);
      }
    } else if instance.pk.Some? && instance.pk.value != 0 {
      if instance.company.None? {
        return Failure(AttributeError);
      }
      form.titleChoices := CompanyProducts(catalog, instance.company.value);
    }
    r := Success(form);
  }

  // -----------------------------------------------------------------------
  // AddProdInfoForm
  // -----------------------------------------------------------------------

  /** The initial `title` and `company` of the form. */
  datatype Initial = Initial(title: ProductId, company: Option<CompanyId>)

  /** Key and manufacturer of the first product carrying `slug`; `None` where the form indexes an empty result and raises. */
  function InitialFor(catalog: seq<CatalogEntry>, slug: string): (r: Option<Initial>)
    ensures r.None? <==> forall e :: e in catalog ==> e.product.slug != slug
    ensures r.Some? ==> exists i :: 0 <= i < |catalog| && catalog[i].product.slug == slug &&
                                    (forall j :: 0 <= j < i ==> catalog[j].product.slug != slug) &&
                                    r.value == Initial(catalog[i].id, catalog[i].product.company)
    decreases |catalog|
  {
    if catalog == [] then None
    else if catalog[0].product.slug == slug then Some(Initial(catalog[0].id, catalog[0].product.company))
    else
      var r := InitialFor(catalog[1..], slug);
      assert forall e :: e in catalog ==> e == catalog[0] || e in catalog[1..];
      assert r.Some? ==> exists i :: 0 <= i < |catalog| && catalog[i].product.slug == slug &&
                                     (forall j :: 0 <= j < i ==> catalog[j].product.slug != slug) &&
                                     r.value == Initial(catalog[i].id, catalog[i].product.company) by {
        if r.Some? {
          var rest := catalog[1..];
          var i :| 0 <= i < |rest| && rest[i].product.slug == slug &&
                   (forall j :: 0 <= j < i ==> rest[j].product.slug != slug) &&
                   r.value == Initial(rest[i].id, rest[i].product.company);
          assert catalog[i + 1] == rest[i];
          forall j | 0 <= j < i + 1 ensures catalog[j].product.slug != slug {
            if j > 0 { assert catalog[j] == rest[j - 1]; }
          }
        }
      }
      r
  }

  /** With slugs unique, the initial values are those of the one product carrying the slug. */
  lemma InitialForUniqueSlug(catalog: seq<CatalogEntry>, k: nat)
    requires k < |catalog|
    requires forall i, j :: 0 <= i < j < |catalog| ==> catalog[i].product.slug != catalog[j].product.slug
    ensures InitialFor(catalog, catalog[k].product.slug) == Some(Initial(catalog[k].id, catalog[k].product.company))
  {
    var r := InitialFor(catalog, catalog[k].product.slug);
    assert catalog[k] in catalog;
    var i :| 0 <= i < |catalog| && catalog[i].product.slug == catalog[k].product.slug &&
             (forall j :: 0 <= j < i ==> catalog[j].product.slug != catalog[k].product.slug) &&
             r.value == Initial(catalog[i].id, catalog[i].product.company);
  }

  /** The add-a-unit-of-this-product form. */
  class AddProdInfoForm {
    const userInfo: Option<UserId>
    var initial: Initial

    constructor (userInfo: Option<UserId>, initial: Initial)
      ensures this.userInfo == userInfo && this.initial == initial
    {
      this.userInfo := userInfo;
      this.initial := initial;
    }

    /** Form validation of the required fields, then the save: the new entry belongs to `userInfo`, whatever was submitted. */
    method Save(store: Store, input: ProdInfoInput) returns (r: Result<ProdInfoId, FormError>)
      requires store.Valid()
      modifies store
      ensures store.Valid()
      ensures r.Success? <==> MissingField(input).None? &&
                              ProdInfoError(userInfo, input, old(store.products), old(store.companies),
                                            old(store.shops)).None?
      ensures MissingField(input).Some? ==> r == Failure(Required(MissingField(input).value))
      ensures MissingField(input).None? && r.Failure? ==>
                r == Failure(Refused(ProdInfoError(userInfo, input, old(store.products), old(store.companies),
                                                   old(store.shops)).value))
      ensures r.Success? ==> r.value !in old(store.stock) &&
                             store.stock == old(store.stock)[r.value := NewProdInfo(userInfo.value, input)] &&
                             store.stock[r.value].account == userInfo.value
      ensures r.Failure? ==> unchanged(store)
      ensures store.products == old(store.products) && store.companies == old(store.companies) &&
              store.shops == old(store.shops)
    {
      var missing := MissingField(input);
      if missing.Some? {
        return Failure(Required(missing.value));
      }
      var saved := store.CreateProdInfo(userInfo, input);
      match saved
      case Success(id) => r := Success(id);
      case Failure(e) => r := Failure(Refused(e));
    }
  }

  /** Building the add-to-this-product form for `userInfo` and `slug`, failing with IndexError when no product has the slug. */
  method NewAddProdInfoForm(userInfo: Option<UserId>, slug: string, catalog: seq<CatalogEntry>)
    returns (r: Result<AddProdInfoForm, FormError>)
    ensures r.Failure? <==> InitialFor(catalog, slug).None?
    ensures r.Failure? ==> r.error == IndexError
    ensures r.Success? ==> fresh(r.value) && r.value.userInfo == userInfo &&
                           r.value.initial == InitialFor(catalog, slug).value
  {
    var q := InitialFor(catalog, slug);
    if q.None? {
      return Failure(IndexError);
    }
    var form := new AddProdInfoForm(userInfo, q.value);
    r := Success(form);
  }

  // -----------------------------------------------------------------------
  // DetailProdInfo: the edit form
  // -----------------------------------------------------------------------

  /** The three fields the edit form exposes, as submitted; an empty field is `None`. */
  datatype DetailEdit = DetailEdit(shop: Option<ShopId>, cost: Option<real>, weight: Option<real>)

  /** Whether the edit-form field `name` was left empty. */
  predicate EditBlank(e: DetailEdit, name: string) {
    || (name == "shop" && e.shop.None?)
    || (name == "cost" && e.cost.None?)
    || (name == "weight" && e.weight.None?)
  }

  /** The first empty field of the edit form: all three are required, as for the other stock-row forms. */
  function MissingEditField(e: DetailEdit): (r: Option<string>)
    ensures r.None? <==> e.shop.Some? && e.cost.Some? && e.weight.Some?
    ensures r.Some? ==> EditBlank(e, r.value)
  {
    if e.shop.None? then Some("shop")
    else if e.cost.None? then Some("cost")
    else if e.weight.None? then Some("weight")
    else None
  }

  /** A row after a complete edit: product, owner and manufacturer are outside the form. */
  function ApplyDetailEdit(row: ProdInfo, e: DetailEdit): (r: ProdInfo)
    requires MissingEditField(e).None?
    ensures r.title == row.title && r.account == row.account && r.company == row.company
    ensures r.shop == e.shop && r.cost == e.cost.value && r.weight == e.weight.value
  {
    row.(shop := e.shop, cost := e.cost.value, weight := e.weight.value)
  }

  /** `DetailProdInfoEdit` saving the form for entry `id`; no check of who owns the entry. */
  method SaveDetailProdInfo(store: Store, id: ProdInfoId, e: DetailEdit) returns (r: Result<ProdInfoId, FormError>)
    requires store.Valid()
    modifies store
    ensures store.Valid()
    ensures r.Failure? <==> id !in old(store.stock) || MissingEditField(e).Some? || !RefOk(e.shop, old(store.shops))
    ensures id !in old(store.stock) ==> r == Failure(Refused(NotFound("prodinfo")))
    ensures id in old(store.stock) && MissingEditField(e).Some? ==> r == Failure(Required(MissingEditField(e).value))
    ensures r.Failure? ==> unchanged(store)
    ensures r.Success? ==> r.value == id && MissingEditField(e).None? &&
                           store.stock == old(store.stock)[id := ApplyDetailEdit(old(store.stock[id]), e)]
    ensures store.products == old(store.products) && store.companies == old(store.companies) &&
            store.shops == old(store.shops)
  {
    if id !in store.stock {
      return Failure(Refused(NotFound("prodinfo")));
    }
    var missing := MissingEditField(e);
    if missing.Some? {
      return Failure(Required(missing.value));
    }
    var saved := store.SaveProdInfo(id, e.shop, e.cost.value, e.weight.value);
    match saved
    case Success(i) => r := Success(i);
    case Failure(err) => r := Failure(Refused(err));
  }
}
