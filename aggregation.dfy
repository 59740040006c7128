/**
 * `query_context`: the per-user stock report shown on the main page and on
 * the search page.
 *
 * The database queries are written as filters over sequences (`Select`,
 * `Groups`); the Python loops that attach `not_full` to the report are a
 * method with loop invariants, proved to produce `Report`.
 */
module Aggregation {
  import opened Wrappers
  import opened Text
  import opened Models

  // -----------------------------------------------------------------------
  // Report and context values
  // -----------------------------------------------------------------------

  /** A button offering to create a new catalog or ledger row. */
  datatype Button = Button(title: string, address: string)

  /** `add_dict`: the four creation buttons, in this order. */
  const AddButtons: seq<Button> := [
    Button("Новый производитель", "add_company"),
    Button("Новый магазин", "add_shop"),
    Button("Добавить новый товар", "add_newproduct"),
    Button("Добавить единицу товара", "add_product")
  ]

  /**
   * One entry of `count_sum`: the user's units of product `title` made by
   * `company`, how many there are and their total weight; `notFull` is the
   * `not_full` key, absent on most entries.
   */
  datatype Group = Group(title: ProductId, company: Option<CompanyId>, count: nat, weight: real,
                         notFull: Option<nat>)

  /** A value of the template context. `Framework` stands for anything the view machinery put there. */
  datatype Value =
    | AddDict(buttons: seq<Button>)
    | ProductList(products: seq<CatalogEntry>)
    | CountSum(groups: seq<Group>)
    | Str(text: string)
    | Key(pk: nat)
    | Framework(name: string)

  type Context = map<string, Value>

  // -----------------------------------------------------------------------
  // Filters over rows
  // -----------------------------------------------------------------------

  function AccountOf(r: ProdInfo): UserId { r.account }
  function TitleOf(r: ProdInfo): ProductId { r.title }
  function CompanyOf(r: ProdInfo): Option<CompanyId> { r.company }
  function WeightOf(r: ProdInfo): real { r.weight }
  function EntryId(e: CatalogEntry): ProductId { e.id }

  /** The elements of `xs` whose key is `k`, in their order: an ORM filter on one field. */
  function Select<T(==,!new), K(==)>(xs: seq<T>, key: T -> K, k: K): (r: seq<T>)
    ensures |r| <= |xs|
    decreases |xs|
  {
    if xs == [] then [] else (if key(xs[0]) == k then [xs[0]] else []) + Select(xs[1..], key, k)
  }

  /** The selection holds exactly the elements with that key. */
  lemma {:induction false} SelectMembers<T(!new), K>(xs: seq<T>, key: T -> K, k: K)
    ensures forall x :: x in Select(xs, key, k) <==> x in xs && key(x) == k
    decreases |xs|
  {
    if xs != [] {
      SelectMembers(xs[1..], key, k);
      assert forall x :: x in xs <==> x == xs[0] || x in xs[1..];
    }
  }

  /** The key of every element, in order. */
  function KeysOf<T, K>(xs: seq<T>, key: T -> K): (r: seq<K>)
    ensures |r| == |xs|
    ensures forall i :: 0 <= i < |xs| ==> r[i] == key(xs[i])
    decreases |xs|
  {
    if xs == [] then [] else [key(xs[0])] + KeysOf(xs[1..], key)
  }

  predicate NoDup<K(==)>(s: seq<K>) {
    forall i, j :: 0 <= i < j < |s| ==> s[i] != s[j]
  }

  /** The distinct elements of `ks` in order of first appearance. */
  function Distinct<K(==,!new)>(ks: seq<K>): (d: seq<K>)
    ensures forall k :: k in d <==> k in ks
    ensures NoDup(d)
    decreases |ks|
  {
    if ks == [] then []
    else
      var d := Distinct(ks[..|ks| - 1]);
      assert forall k :: k in ks[..|ks| - 1] ==> k in ks;
      assert forall k :: k in ks ==> k in ks[..|ks| - 1] || k == ks[|ks| - 1];
      if ks[|ks| - 1] in d then d else d + [ks[|ks| - 1]]
  }

  function Total<T>(xs: seq<T>, w: T -> real): real
    decreases |xs|
  {
    if xs == [] then 0.0 else w(xs[0]) + Total(xs[1..], w)
  }

  /** The ledger rows owned by `user`, in table order. */
  function UserRows(ledger: seq<ProdInfo>, user: UserId): (r: seq<ProdInfo>)
    ensures forall x :: x in r <==> x in ledger && x.account == user
  {
    SelectMembers(ledger, AccountOf, user);
    Select(ledger, AccountOf, user)
  }

  /** The rows of product `p`. */
  function RowsOf(rows: seq<ProdInfo>, p: ProductId): seq<ProdInfo> {
    Select(rows, TitleOf, p)
  }

  /** The rows of product `p` made by `c`: one (title, company) group. */
  function KeyRows(rows: seq<ProdInfo>, p: ProductId, c: Option<CompanyId>): seq<ProdInfo> {
    Select(RowsOf(rows, p), CompanyOf, c)
  }

  /** The manufacturers named by the rows of product `p`, each once. */
  function CompaniesOf(rows: seq<ProdInfo>, p: ProductId): seq<Option<CompanyId>> {
    Distinct(KeysOf(RowsOf(rows, p), CompanyOf))
  }

  function Ids(catalog: seq<CatalogEntry>): seq<ProductId> {
    KeysOf(catalog, EntryId)
  }

  // -----------------------------------------------------------------------
  // Partition counting
  // -----------------------------------------------------------------------

  /** Sum over the keys `ks` of the size of each key's selection. */
  function CountBy<T(==,!new), K(==)>(xs: seq<T>, key: T -> K, ks: seq<K>): nat
    decreases |ks|
  {
    if ks == [] then 0 else |Select(xs, key, ks[0])| + CountBy(xs, key, ks[1..])
  }

  /** Sum over the keys `ks` of the weight of each key's selection. */
  function WeightBy<T(==,!new), K(==)>(xs: seq<T>, key: T -> K, w: T -> real, ks: seq<K>): real
    decreases |ks|
  {
    if ks == [] then 0.0 else Total(Select(xs, key, ks[0]), w) + WeightBy(xs, key, w, ks[1..])
  }

  lemma {:induction false} SelectTotal<T(!new), K>(xs: seq<T>, key: T -> K, w: T -> real, k: K)
    requires xs != []
    ensures |Select(xs, key, k)| == (if key(xs[0]) == k then 1 else 0) + |Select(xs[1..], key, k)|
    ensures Total(Select(xs, key, k), w) == (if key(xs[0]) == k then w(xs[0]) else 0.0) + Total(Select(xs[1..], key, k), w)
  {
    if key(xs[0]) == k {
      var s := Select(xs, key, k);
      assert s == [xs[0]] + Select(xs[1..], key, k);
      assert s[1..] == Select(xs[1..], key, k);
    } else {
      assert Select(xs, key, k) == Select(xs[1..], key, k);
    }
  }

  /** Removing the first element lowers the partition sums by its share, once if its key is listed. */
  lemma {:induction false} PartitionCons<T(!new), K>(xs: seq<T>, key: T -> K, w: T -> real, ks: seq<K>)
    requires xs != [] && NoDup(ks)
    ensures CountBy(xs, key, ks) == (if key(xs[0]) in ks then 1 else 0) + CountBy(xs[1..], key, ks)
    ensures WeightBy(xs, key, w, ks) == (if key(xs[0]) in ks then w(xs[0]) else 0.0) + WeightBy(xs[1..], key, w, ks)
    decreases |ks|
  {
    if ks != [] {
      assert NoDup(ks[1..]);
      PartitionCons(xs, key, w, ks[1..]);
      SelectTotal(xs, key, w, ks[0]);
      assert key(xs[0]) in ks <==> key(xs[0]) == ks[0] || key(xs[0]) in ks[1..];
      assert key(xs[0]) == ks[0] ==> key(xs[0]) !in ks[1..];
    }
  }

  /** Grouping by a key that takes only listed, distinct values loses and duplicates nothing. */
  lemma {:induction false} Partition<T(!new), K>(xs: seq<T>, key: T -> K, w: T -> real, ks: seq<K>)
    requires NoDup(ks)
    requires forall x :: x in xs ==> key(x) in ks
    ensures CountBy(xs, key, ks) == |xs|
    ensures WeightBy(xs, key, w, ks) == Total(xs, w)
    decreases |xs|
  {
    if xs == [] {
      PartitionEmpty(xs, key, w, ks);
    } else {
      assert forall x :: x in xs[1..] ==> x in xs;
      PartitionCons(xs, key, w, ks);
      Partition(xs[1..], key, w, ks);
    }
  }

  lemma {:induction false} PartitionEmpty<T(!new), K>(xs: seq<T>, key: T -> K, w: T -> real, ks: seq<K>)
    requires xs == []
    ensures CountBy(xs, key, ks) == 0 && WeightBy(xs, key, w, ks) == 0.0
    decreases |ks|
  {
    if ks != [] { PartitionEmpty(xs, key, w, ks[1..]); }
  }

  // -----------------------------------------------------------------------
  // The grouped query: values('title', 'company').annotate(...).order_by('title')
  // -----------------------------------------------------------------------

  function MakeGroup(rows: seq<ProdInfo>, p: ProductId, c: Option<CompanyId>): Group {
    Group(p, c, |KeyRows(rows, p, c)|, Total(KeyRows(rows, p, c), WeightOf), None)
  }

  /** One group per listed manufacturer of product `p`. */
  function GroupsFor(rows: seq<ProdInfo>, p: ProductId, cs: seq<Option<CompanyId>>): (r: seq<Group>)
    ensures |r| == |cs|
    ensures forall i :: 0 <= i < |cs| ==> r[i] == MakeGroup(rows, p, cs[i])
    decreases |cs|
  {
    if cs == [] then [] else [MakeGroup(rows, p, cs[0])] + GroupsFor(rows, p, cs[1..])
  }

  /**
   * The grouped rows, product by product in catalog order (ordering by the
   * foreign key `title` uses `Product.Meta.ordering`, the title), and within
   * a product by first appearance of the manufacturer.
   */
  function Groups(rows: seq<ProdInfo>, catalog: seq<CatalogEntry>): (r: seq<Group>)
    ensures forall g :: g in r ==> g.title in Ids(catalog) && g.company in CompaniesOf(rows, g.title) &&
                                   g == MakeGroup(rows, g.title, g.company)
    decreases |catalog|
  {
    if catalog == [] then []
    else
      var head := GroupsFor(rows, catalog[0].id, CompaniesOf(rows, catalog[0].id));
      var tail := Groups(rows, catalog[1..]);
      assert forall g :: g in head ==> g.title == catalog[0].id && g.company in CompaniesOf(rows, g.title) &&
                                       g == MakeGroup(rows, g.title, g.company) by {
        forall g | g in head
          ensures g.title == catalog[0].id && g.company in CompaniesOf(rows, g.title) &&
                  g == MakeGroup(rows, g.title, g.company)
        {
          var i :| 0 <= i < |head| && head[i] == g;
        }
      }
      assert Ids(catalog) == [catalog[0].id] + Ids(catalog[1..]);
      head + tail
  }

  function SumCounts(gs: seq<Group>): nat
    decreases |gs|
  {
    if gs == [] then 0 else gs[0].count + SumCounts(gs[1..])
  }

  function SumWeights(gs: seq<Group>): real
    decreases |gs|
  {
    if gs == [] then 0.0 else gs[0].weight + SumWeights(gs[1..])
  }

  lemma {:induction false} SumsConcat(a: seq<Group>, b: seq<Group>)
    ensures SumCounts(a + b) == SumCounts(a) + SumCounts(b)
    ensures SumWeights(a + b) == SumWeights(a) + SumWeights(b)
    decreases |a|
  {
    if a == [] {
      assert a + b == b;
    } else {
      assert (a + b)[1..] == a[1..] + b;
      SumsConcat(a[1..], b);
    }
  }

  lemma {:induction false} SumsGroupsFor(rows: seq<ProdInfo>, p: ProductId, cs: seq<Option<CompanyId>>)
    ensures SumCounts(GroupsFor(rows, p, cs)) == CountBy(RowsOf(rows, p), CompanyOf, cs)
    ensures SumWeights(GroupsFor(rows, p, cs)) == WeightBy(RowsOf(rows, p), CompanyOf, WeightOf, cs)
    decreases |cs|
  {
    if cs != [] { SumsGroupsFor(rows, p, cs[1..]); }
  }

  /** The groups of one product account for exactly that product's rows. */
  lemma SumsProduct(rows: seq<ProdInfo>, p: ProductId)
    ensures SumCounts(GroupsFor(rows, p, CompaniesOf(rows, p))) == |RowsOf(rows, p)|
    ensures SumWeights(GroupsFor(rows, p, CompaniesOf(rows, p))) == Total(RowsOf(rows, p), WeightOf)
  {
    var own := RowsOf(rows, p);
    var cs := CompaniesOf(rows, p);
    forall x | x in own ensures CompanyOf(x) in cs {
      var i :| 0 <= i < |own| && own[i] == x;
      assert KeysOf(own, CompanyOf)[i] == CompanyOf(x);
    }
    SumsGroupsFor(rows, p, cs);
    Partition(own, CompanyOf, WeightOf, cs);
  }

  lemma {:induction false} SumsGroups(rows: seq<ProdInfo>, catalog: seq<CatalogEntry>)
    ensures SumCounts(Groups(rows, catalog)) == CountBy(rows, TitleOf, Ids(catalog))
    ensures SumWeights(Groups(rows, catalog)) == WeightBy(rows, TitleOf, WeightOf, Ids(catalog))
    decreases |catalog|
  {
    if catalog != [] {
      var p := catalog[0].id;
      SumsConcat(GroupsFor(rows, p, CompaniesOf(rows, p)), Groups(rows, catalog[1..]));
      SumsProduct(rows, p);
      SumsGroups(rows, catalog[1..]);
      assert Ids(catalog) == [p] + Ids(catalog[1..]);
      assert Ids(catalog)[1..] == Ids(catalog[1..]);
    }
  }

  // -----------------------------------------------------------------------
  // not_full
  // -----------------------------------------------------------------------

  /** The units, among `rows`, of product `p` whose weight is not exactly `ref`. */
  function Mismatches(rows: seq<ProdInfo>, p: ProductId, ref: real): nat
    decreases |rows|
  {
    if rows == [] then 0
    else
      var last := rows[|rows| - 1];
      Mismatches(rows[..|rows| - 1], p, ref) + (if last.title == p && last.weight != ref then 1 else 0)
  }

  lemma {:induction false} MismatchesBound(rows: seq<ProdInfo>, p: ProductId, ref: real)
    ensures Mismatches(rows, p, ref) <= |RowsOf(rows, p)|
    decreases |rows|
  {
    if rows != [] {
      var init := rows[..|rows| - 1];
      var last := rows[|rows| - 1];
      MismatchesBound(init, p, ref);
      SelectSnoc(init, TitleOf, last, p);
      assert init + [last] == rows;
    }
  }

  lemma {:induction false} SelectSnoc<T(!new), K>(xs: seq<T>, key: T -> K, x: T, k: K)
    ensures Select(xs + [x], key, k) == Select(xs, key, k) + (if key(x) == k then [x] else [])
    decreases |xs|
  {
    var tail := if key(x) == k then [x] else [];
    if xs == [] {
      assert xs + [x] == [x] && [x][1..] == [];
    } else {
      var ys := xs + [x];
      assert ys[0] == xs[0] && ys[1..] == xs[1..] + [x];
      SelectSnoc(xs[1..], key, x, k);
      var head := if key(xs[0]) == k then [xs[0]] else [];
      assert Select(ys, key, k) == head + (Select(xs[1..], key, k) + tail);
      assert head + (Select(xs[1..], key, k) + tail) == (head + Select(xs[1..], key, k)) + tail;
    }
  }

  /** The reference weight of product `p`: that of the first catalog entry with id `p`. */
  function RefWeight(catalog: seq<CatalogEntry>, p: ProductId): real
    requires p in Ids(catalog)
  {
    IdListed(catalog, p);
    Select(catalog, EntryId, p)[0].product.refWeight
  }

  /** The title of product `p`, as the ordering sees it. */
  function TitleOfProduct(catalog: seq<CatalogEntry>, p: ProductId): string
    requires p in Ids(catalog)
  {
    IdListed(catalog, p);
    Select(catalog, EntryId, p)[0].product.title
  }

  lemma IdListed(catalog: seq<CatalogEntry>, p: ProductId)
    requires p in Ids(catalog)
    ensures Select(catalog, EntryId, p) != []
  {
    var i :| 0 <= i < |catalog| && Ids(catalog)[i] == p;
    SelectMembers(catalog, EntryId, p);
    assert catalog[i] in Select(catalog, EntryId, p);
  }

  /** The last entry of `count_sum` with its title: the one the loop leaves in `not_full`. */
  predicate LastOfTitle(gs: seq<Group>, i: int) {
    0 <= i < |gs| && forall j :: i < j < |gs| ==> gs[j].title != gs[i].title
  }

  function Annotated(g: Group, rows: seq<ProdInfo>, catalog: seq<CatalogEntry>): Group
    requires g.title in Ids(catalog)
  {
    g.(notFull := Some(Mismatches(rows, g.title, RefWeight(catalog, g.title))))
  }

  /** `count_sum` after the loop: only the last entry of each title carries `not_full`. */
  function Annotate(gs: seq<Group>, rows: seq<ProdInfo>, catalog: seq<CatalogEntry>): (r: seq<Group>)
    requires forall g :: g in gs ==> g.title in Ids(catalog)
    ensures |r| == |gs|
  {
    seq(|gs|, i requires 0 <= i < |gs| => if LastOfTitle(gs, i) then Annotated(gs[i], rows, catalog) else gs[i])
  }

  /** Every stock entry names a listed product (the foreign key of `title`). */
  predicate Covered(rows: seq<ProdInfo>, catalog: seq<CatalogEntry>) {
    forall x :: x in rows ==> x.title in Ids(catalog)
  }

  /** The value stored under `count_sum` for the user's rows `rows`. */
  function Report(rows: seq<ProdInfo>, catalog: seq<CatalogEntry>): seq<Group> {
    Annotate(Groups(rows, catalog), rows, catalog)
  }

  // -----------------------------------------------------------------------
  // What the report promises
  // -----------------------------------------------------------------------

  /** Primary keys of the catalog are distinct. */
  predicate IdsUnique(catalog: seq<CatalogEntry>) {
    NoDup(Ids(catalog))
  }

  /** The catalog lists products in ascending title order, the default ordering of products. */
  predicate TitleOrdered(catalog: seq<CatalogEntry>) {
    forall i, j :: 0 <= i < j < |catalog| ==> TitleBefore(catalog[i].product.title, catalog[j].product.title)
  }

  /** The catalog sequence shows the Product table: each entry is the product stored under its id, and every product is listed. */
  predicate Presents(catalog: seq<CatalogEntry>, products: map<ProductId, Product>) {
    && (forall i :: 0 <= i < |catalog| ==> catalog[i].id in products && products[catalog[i].id] == catalog[i].product)
    && (forall p :: p in products ==> p in Ids(catalog))
  }

  /**
   * A title-ordered listing of the table lists every product once, and a
   * ledger whose entries reference existing products is covered by it.
   */
  lemma PresentedCatalog(catalog: seq<CatalogEntry>, products: map<ProductId, Product>, rows: seq<ProdInfo>)
    requires Presents(catalog, products) && TitleOrdered(catalog)
    requires forall x :: x in rows ==> x.title in products
    ensures IdsUnique(catalog)
    ensures Covered(rows, catalog)
  {
    forall i, j | 0 <= i < j < |Ids(catalog)| ensures Ids(catalog)[i] != Ids(catalog)[j] {
      if Ids(catalog)[i] == Ids(catalog)[j] {
        TitleBeforeIrreflexive(catalog[i].product.title);
      }
    }
  }

  /** The counts of the report add up to the number of the user's rows, the weights to their total weight. */
  lemma ReportTotals(rows: seq<ProdInfo>, catalog: seq<CatalogEntry>)
    requires IdsUnique(catalog) && Covered(rows, catalog)
    ensures SumCounts(Report(rows, catalog)) == |rows|
    ensures SumWeights(Report(rows, catalog)) == Total(rows, WeightOf)
  {
    SumsGroups(rows, catalog);
    forall x | x in rows ensures TitleOf(x) in Ids(catalog) { }
    Partition(rows, TitleOf, WeightOf, Ids(catalog));
    SumsReport(rows, catalog);
  }

  /** Annotating `not_full` leaves the counts and weights alone. */
  lemma SumsReport(rows: seq<ProdInfo>, catalog: seq<CatalogEntry>)
    ensures SumCounts(Report(rows, catalog)) == SumCounts(Groups(rows, catalog))
    ensures SumWeights(Report(rows, catalog)) == SumWeights(Groups(rows, catalog))
  {
    var gs := Groups(rows, catalog);
    var rep := Report(rows, catalog);
    forall i | 0 <= i < |gs| ensures gs[i].count == rep[i].count && gs[i].weight == rep[i].weight {
    }
    SumsAnnotate(gs, rep);
  }

  lemma {:induction false} SumsAnnotate(a: seq<Group>, b: seq<Group>)
    requires |a| == |b|
    requires forall i :: 0 <= i < |a| ==> a[i].count == b[i].count && a[i].weight == b[i].weight
    ensures SumCounts(a) == SumCounts(b) && SumWeights(a) == SumWeights(b)
    decreases |a|
  {
    if a != [] { SumsAnnotate(a[1..], b[1..]); }
  }

  /**
   * Each report entry counts exactly the user's rows of its (title, company)
   * and sums their weights; no entry is empty.
   */
  lemma ReportEntries(rows: seq<ProdInfo>, catalog: seq<CatalogEntry>)
    requires Covered(rows, catalog)
    ensures forall g :: g in Report(rows, catalog) ==>
              g.count == |KeyRows(rows, g.title, g.company)| > 0 &&
              g.weight == Total(KeyRows(rows, g.title, g.company), WeightOf)
  {
    var gs := Groups(rows, catalog);
    var rep := Report(rows, catalog);
    forall g | g in rep
      ensures g.count == |KeyRows(rows, g.title, g.company)| > 0 &&
              g.weight == Total(KeyRows(rows, g.title, g.company), WeightOf)
    {
      var i :| 0 <= i < |rep| && rep[i] == g;
      assert gs[i] in gs;
      GroupNonEmpty(rows, gs[i].title, gs[i].company);
    }
  }

  lemma GroupNonEmpty(rows: seq<ProdInfo>, p: ProductId, c: Option<CompanyId>)
    requires c in CompaniesOf(rows, p)
    ensures |KeyRows(rows, p, c)| > 0
    ensures exists x :: x in rows && x.title == p && x.company == c
  {
    var own := RowsOf(rows, p);
    var i :| 0 <= i < |own| && KeysOf(own, CompanyOf)[i] == c;
    assert own[i] in own;
    SelectMembers(rows, TitleOf, p);
    SelectMembers(own, CompanyOf, c);
    assert own[i] in KeyRows(rows, p, c);
  }

  /** Every (title, company) of the user's rows has an entry, and only one. */
  lemma ReportKeys(rows: seq<ProdInfo>, catalog: seq<CatalogEntry>)
    requires IdsUnique(catalog) && Covered(rows, catalog)
    ensures forall x :: x in rows ==> exists i :: 0 <= i < |Report(rows, catalog)| &&
                                       Report(rows, catalog)[i].title == x.title &&
                                       Report(rows, catalog)[i].company == x.company
    ensures forall i, j :: 0 <= i < j < |Report(rows, catalog)| ==>
              Report(rows, catalog)[i].title != Report(rows, catalog)[j].title ||
              Report(rows, catalog)[i].company != Report(rows, catalog)[j].company
  {
    var gs := Groups(rows, catalog);
    var rep := Report(rows, catalog);
    forall x | x in rows
      ensures exists i :: 0 <= i < |rep| && rep[i].title == x.title && rep[i].company == x.company
    {
      RowHasGroup(rows, catalog, x);
      var i :| 0 <= i < |gs| && gs[i] == MakeGroup(rows, x.title, x.company);
      assert rep[i].title == x.title && rep[i].company == x.company;
    }
    GroupKeysDistinct(rows, catalog);
  }

  lemma {:induction false} RowHasGroup(rows: seq<ProdInfo>, catalog: seq<CatalogEntry>, x: ProdInfo)
    requires x in rows && x.title in Ids(catalog)
    ensures MakeGroup(rows, x.title, x.company) in Groups(rows, catalog)
    decreases |catalog|
  {
    assert Ids(catalog) == [catalog[0].id] + Ids(catalog[1..]);
    if catalog[0].id == x.title {
      var own := RowsOf(rows, x.title);
      var cs := CompaniesOf(rows, x.title);
      SelectMembers(rows, TitleOf, x.title);
      assert x in own;
      var i :| 0 <= i < |own| && own[i] == x;
      assert KeysOf(own, CompanyOf)[i] == x.company;
      assert x.company in cs;
      var k :| 0 <= k < |cs| && cs[k] == x.company;
      var head := GroupsFor(rows, x.title, cs);
      assert head[k] == MakeGroup(rows, x.title, x.company);
      assert Groups(rows, catalog) == head + Groups(rows, catalog[1..]);
    } else {
      RowHasGroup(rows, catalog[1..], x);
    }
  }

  /** No two groups share a (title, company) key. */
  predicate KeysDistinct(gs: seq<Group>) {
    forall i, j :: 0 <= i < j < |gs| ==> gs[i].title != gs[j].title || gs[i].company != gs[j].company
  }

  lemma {:induction false} GroupKeysDistinct(rows: seq<ProdInfo>, catalog: seq<CatalogEntry>)
    requires IdsUnique(catalog)
    ensures forall i, j :: 0 <= i < j < |Groups(rows, catalog)| ==>
              Groups(rows, catalog)[i].title != Groups(rows, catalog)[j].title ||
              Groups(rows, catalog)[i].company != Groups(rows, catalog)[j].company
    decreases |catalog|
  {
    if catalog != [] {
      var p := catalog[0].id;
      var head := GroupsFor(rows, p, CompaniesOf(rows, p));
      var tail := Groups(rows, catalog[1..]);
      assert Groups(rows, catalog) == head + tail;
      TailUnique(catalog);
      GroupKeysDistinct(rows, catalog[1..]);
      HeadKeysDistinct(rows, p);
      assert forall h :: h in tail ==> h.title != p;
      KeysDistinctConcat(head, tail, p);
    }
  }

  /** The groups of one product have distinct manufacturers. */
  lemma HeadKeysDistinct(rows: seq<ProdInfo>, p: ProductId)
    ensures KeysDistinct(GroupsFor(rows, p, CompaniesOf(rows, p)))
    ensures forall g :: g in GroupsFor(rows, p, CompaniesOf(rows, p)) ==> g.title == p
  {
    var cs := CompaniesOf(rows, p);
    var head := GroupsFor(rows, p, cs);
    forall i, j | 0 <= i < j < |head| ensures head[i].company != head[j].company {
      assert head[i].company == cs[i] && head[j].company == cs[j];
    }
  }

  lemma KeysDistinctConcat(head: seq<Group>, tail: seq<Group>, p: ProductId)
    requires KeysDistinct(head) && KeysDistinct(tail)
    requires forall g :: g in head ==> g.title == p
    requires forall h :: h in tail ==> h.title != p
    ensures KeysDistinct(head + tail)
  {
    var gs := head + tail;
    forall i, j | 0 <= i < j < |gs| ensures gs[i].title != gs[j].title || gs[i].company != gs[j].company {
      if j < |head| {
        assert gs[i] == head[i] && gs[j] == head[j];
      } else if i >= |head| {
        assert gs[i] == tail[i - |head|] && gs[j] == tail[j - |head|];
      } else {
        assert gs[i] == head[i] && gs[j] == tail[j - |head|];
      }
    }
  }

  /** The report lists its entries in ascending product title. */
  lemma ReportOrdered(rows: seq<ProdInfo>, catalog: seq<CatalogEntry>)
    requires IdsUnique(catalog) && TitleOrdered(catalog)
    ensures forall i, j :: 0 <= i < j < |Report(rows, catalog)| ==>
              Report(rows, catalog)[i].title == Report(rows, catalog)[j].title ||
              TitleBefore(TitleOfProduct(catalog, Report(rows, catalog)[i].title),
                          TitleOfProduct(catalog, Report(rows, catalog)[j].title))
  {
    GroupsOrdered(rows, catalog);
  }

  lemma {:induction false} GroupsOrdered(rows: seq<ProdInfo>, catalog: seq<CatalogEntry>)
    requires IdsUnique(catalog) && TitleOrdered(catalog)
    ensures forall i, j :: 0 <= i < j < |Groups(rows, catalog)| ==>
              Groups(rows, catalog)[i].title == Groups(rows, catalog)[j].title ||
              TitleBefore(TitleOfProduct(catalog, Groups(rows, catalog)[i].title),
                          TitleOfProduct(catalog, Groups(rows, catalog)[j].title))
    decreases |catalog|
  {
    if catalog != [] {
      var p := catalog[0].id;
      var rest := catalog[1..];
      var head := GroupsFor(rows, p, CompaniesOf(rows, p));
      var tail := Groups(rows, rest);
      var gs := Groups(rows, catalog);
      assert gs == head + tail;
      TailUnique(catalog);
      TailOrdered(catalog);
      GroupsOrdered(rows, rest);
      assert TitleOfProduct(catalog, p) == catalog[0].product.title;
      forall i, j | 0 <= i < j < |gs|
        ensures gs[i].title == gs[j].title ||
                TitleBefore(TitleOfProduct(catalog, gs[i].title), TitleOfProduct(catalog, gs[j].title))
      {
        if j < |head| {
          assert gs[i].title == p && gs[j].title == p;
        } else if i >= |head| {
          assert gs[i] == tail[i - |head|] && gs[j] == tail[j - |head|];
          assert gs[i] in tail && gs[j] in tail;
          TailTitle(catalog, gs[i].title);
          TailTitle(catalog, gs[j].title);
        } else {
          assert gs[i].title == p;
          assert gs[j] in tail;
          TailTitle(catalog, gs[j].title);
        }
      }
    }
  }

  lemma TailUnique(catalog: seq<CatalogEntry>)
    requires catalog != [] && IdsUnique(catalog)
    ensures IdsUnique(catalog[1..])
    ensures catalog[0].id !in Ids(catalog[1..])
  {
    var rest := catalog[1..];
    assert Ids(catalog) == [catalog[0].id] + Ids(rest);
    forall a, b | 0 <= a < b < |Ids(rest)| ensures Ids(rest)[a] != Ids(rest)[b] {
      assert Ids(rest)[a] == Ids(catalog)[a + 1] && Ids(rest)[b] == Ids(catalog)[b + 1];
    }
  }

  lemma TailOrdered(catalog: seq<CatalogEntry>)
    requires catalog != [] && TitleOrdered(catalog)
    ensures TitleOrdered(catalog[1..])
  {
    var rest := catalog[1..];
    forall a, b | 0 <= a < b < |rest|
      ensures TitleBefore(rest[a].product.title, rest[b].product.title)
    {
      assert rest[a] == catalog[a + 1] && rest[b] == catalog[b + 1];
    }
  }

  /** A product listed after the first one keeps its title and sorts after the first. */
  lemma TailTitle(catalog: seq<CatalogEntry>, q: ProductId)
    requires catalog != [] && IdsUnique(catalog) && TitleOrdered(catalog)
    requires q in Ids(catalog[1..])
    ensures q in Ids(catalog) && q != catalog[0].id
    ensures TitleOfProduct(catalog, q) == TitleOfProduct(catalog[1..], q)
    ensures TitleBefore(catalog[0].product.title, TitleOfProduct(catalog, q))
  {
    var rest := catalog[1..];
    assert Ids(catalog) == [catalog[0].id] + Ids(rest);
    TailUnique(catalog);
    assert Select(catalog, EntryId, q) == Select(rest, EntryId, q);
    TitleAt(rest, q);
    var k :| 0 <= k < |rest| && rest[k].id == q && TitleOfProduct(rest, q) == rest[k].product.title;
    assert rest[k] == catalog[k + 1];
  }

  /** The title `TitleOfProduct` gives is that of some catalog entry with that id, at some position. */
  lemma TitleAt(catalog: seq<CatalogEntry>, q: ProductId)
    requires q in Ids(catalog)
    ensures exists k :: 0 <= k < |catalog| && catalog[k].id == q && TitleOfProduct(catalog, q) == catalog[k].product.title
  {
    IdListed(catalog, q);
    var e := Select(catalog, EntryId, q)[0];
    assert e in Select(catalog, EntryId, q);
    SelectMembers(catalog, EntryId, q);
    var k :| 0 <= k < |catalog| && catalog[k] == e;
  }

  /**
   * `not_full` is on exactly the last entry of each product title; its value
   * is the number of the user's units of that product, whatever their
   * manufacturer, whose weight differs from the reference weight, so it lies
   * between 0 and that product's unit count.
   */
  lemma ReportNotFull(rows: seq<ProdInfo>, catalog: seq<CatalogEntry>)
    ensures forall i :: 0 <= i < |Report(rows, catalog)| ==>
              (Report(rows, catalog)[i].notFull.Some? <==> LastOfTitle(Report(rows, catalog), i))
    ensures forall i :: 0 <= i < |Report(rows, catalog)| && Report(rows, catalog)[i].notFull.Some? ==>
              var g := Report(rows, catalog)[i];
              g.title in Ids(catalog) &&
              g.notFull.value == Mismatches(rows, g.title, RefWeight(catalog, g.title)) &&
              g.notFull.value <= |RowsOf(rows, g.title)|
  {
    var gs := Groups(rows, catalog);
    var rep := Report(rows, catalog);
    forall i | 0 <= i < |rep|
      ensures (rep[i].notFull.Some? <==> LastOfTitle(rep, i))
      ensures rep[i].notFull.Some? ==>
                rep[i].title in Ids(catalog) &&
                rep[i].notFull.value == Mismatches(rows, rep[i].title, RefWeight(catalog, rep[i].title)) &&
                rep[i].notFull.value <= |RowsOf(rows, rep[i].title)|
    {
      assert gs[i] in gs;
      assert LastOfTitle(rep, i) <==> LastOfTitle(gs, i) by {
        assert forall j :: 0 <= j < |gs| ==> rep[j].title == gs[j].title;
      }
      MismatchesBound(rows, gs[i].title, RefWeight(catalog, gs[i].title));
    }
  }

  /** The worked example: reference 10.0, weights 10.0, 10.0, 9.5 give one mismatch; 10.0 three times none. */
  lemma MismatchExample(u: UserId, p: ProductId)
    ensures Mismatches([ProdInfo(p, u, None, None, 0.0, 10.0), ProdInfo(p, u, None, None, 0.0, 10.0),
                        ProdInfo(p, u, None, None, 0.0, 9.5)], p, 10.0) == 1
    ensures Mismatches([ProdInfo(p, u, None, None, 0.0, 10.0), ProdInfo(p, u, None, None, 0.0, 10.0),
                        ProdInfo(p, u, None, None, 0.0, 10.0)], p, 10.0) == 0
  {
    var a := ProdInfo(p, u, None, None, 0.0, 10.0);
    var b := ProdInfo(p, u, None, None, 0.0, 9.5);
    assert [a, a, b][..2] == [a, a] && [a, a, a][..2] == [a, a];
    assert [a, a][..1] == [a] && [a][..0] == [];
    assert Mismatches([a], p, 10.0) == 0;
    assert Mismatches([a, a], p, 10.0) == 0;
  }

  // -----------------------------------------------------------------------
  // Search and the context
  // -----------------------------------------------------------------------

  /** `if get_request:` — absent and empty strings are false. */
  predicate Truthy(q: Option<string>) {
    q.Some? && q.value != ""
  }

  /** A product matches when its title, or its manufacturer's name, contains `q` ignoring case; a product without manufacturer matches on its title only. */
  predicate SearchMatches(e: CatalogEntry, companies: map<CompanyId, Company>, q: string) {
    IContains(e.product.title, q) ||
    (e.product.company.Some? && e.product.company.value in companies &&
     IContains(companies[e.product.company.value].company, q))
  }

  /** The products the search shows: every matching product of the whole catalog, whoever owns stock of it. */
  function Search(catalog: seq<CatalogEntry>, companies: map<CompanyId, Company>, q: string): (r: seq<CatalogEntry>)
    ensures forall e :: e in r <==> e in catalog && SearchMatches(e, companies, q)
    ensures TitleOrdered(catalog) ==> TitleOrdered(r)
  {
    var matches := (e: CatalogEntry) => SearchMatches(e, companies, q);
    SelectMembers(catalog, matches, true);
    SelectOrdered(catalog, matches, true);
    Select(catalog, matches, true)
  }

  function EntryCompany(e: CatalogEntry): Option<CompanyId> { e.product.company }

  /** The products made by manufacturer `n`, in the default title order; no product has a negative manufacturer id. */
  function CompanyProducts(catalog: seq<CatalogEntry>, n: int): (r: seq<CatalogEntry>)
    ensures forall e :: e in r <==> e in catalog && e.product.company.Some? && e.product.company.value == n
    ensures TitleOrdered(catalog) ==> TitleOrdered(r)
  {
    if n < 0 then []
    else
      SelectMembers(catalog, EntryCompany, Some(n));
      SelectOrdered(catalog, EntryCompany, Some(n));
      Select(catalog, EntryCompany, Some(n))
  }

  /** Filtering a catalog keeps its title order. */
  lemma {:induction false} SelectOrdered<K>(catalog: seq<CatalogEntry>, key: CatalogEntry -> K, k: K)
    ensures TitleOrdered(catalog) ==> TitleOrdered(Select(catalog, key, k))
    decreases |catalog|
  {
    if catalog != [] && TitleOrdered(catalog) {
      var rest := catalog[1..];
      TailOrdered(catalog);
      SelectOrdered(rest, key, k);
      SelectMembers(rest, key, k);
      var tail := Select(rest, key, k);
      forall e | e in tail ensures TitleBefore(catalog[0].product.title, e.product.title) {
        var j :| 0 <= j < |rest| && rest[j] == e;
        assert catalog[j + 1] == e;
      }
    }
  }

  /** The context the function starts from: the caller's dict, or an empty one for anything else. */
  function StartContext(context: Option<Context>): Context {
    if context.Some? then context.value else map[]
  }

  /** A key of the caller's context that the function neither sets nor discards. */
  predicate KeptKey(c: Context, k: string, q: Option<string>) {
    k in c && k != "add_dict" && k != "count_sum" && (k == "products" ==> !Truthy(q))
  }

  /** The context after the search step. */
  function WithSearch(c: Context, q: Option<string>, catalog: seq<CatalogEntry>, companies: map<CompanyId, Company>): Context {
    if Truthy(q) then c["products" := ProductList(Search(catalog, companies, q.value))] else c
  }

  /** The value `query_context(user, context, get_request)` returns. */
  function ContextAfter(user: UserId, context: Option<Context>, q: Option<string>, ledger: seq<ProdInfo>,
                        catalog: seq<CatalogEntry>, companies: map<CompanyId, Company>): Context
    requires Covered(ledger, catalog)
  {
    var counting := UserRows(ledger, user);
    if |counting| == 0 then map["add_dict" := AddDict(AddButtons)]
    else WithSearch(StartContext(context), q, catalog, companies)
           ["add_dict" := AddDict(AddButtons)]
           ["count_sum" := CountSum(Report(counting, catalog))]
  }

  /**
   * What the returned context holds: for a user without rows only the
   * buttons; otherwise the buttons, the report, the search result when a
   * search string was given, and every other key of the caller's context.
   */
  lemma ContextContents(user: UserId, context: Option<Context>, q: Option<string>, ledger: seq<ProdInfo>,
                        catalog: seq<CatalogEntry>, companies: map<CompanyId, Company>)
    requires Covered(ledger, catalog)
    ensures |UserRows(ledger, user)| == 0 ==>
              ContextAfter(user, context, q, ledger, catalog, companies) == map["add_dict" := AddDict(AddButtons)]
    ensures |UserRows(ledger, user)| > 0 ==>
              var r := ContextAfter(user, context, q, ledger, catalog, companies);
              && "add_dict" in r && r["add_dict"] == AddDict(AddButtons)
              && "count_sum" in r && r["count_sum"] == CountSum(Report(UserRows(ledger, user), catalog))
              && (Truthy(q) ==> "products" in r && r["products"] == ProductList(Search(catalog, companies, q.value)))
              && (forall k :: KeptKey(StartContext(context), k, q) ==> k in r && r[k] == StartContext(context)[k])
              && (forall k :: k in r ==> k in StartContext(context) || k == "add_dict" || k == "count_sum" ||
                                         (k == "products" && Truthy(q)))
  {
    var counting := UserRows(ledger, user);
    if |counting| > 0 {
      var start := StartContext(context);
      var searched := WithSearch(start, q, catalog, companies);
      var r := searched["add_dict" := AddDict(AddButtons)]["count_sum" := CountSum(Report(counting, catalog))];
      assert ContextAfter(user, context, q, ledger, catalog, companies) == r;
      forall k | KeptKey(start, k, q) ensures k in r && r[k] == start[k] {
        assert k in searched && searched[k] == start[k];
      }
    }
  }

  /** Rows of other users change nothing in the user's context. */
  lemma OtherUsersIgnored(user: UserId, context: Option<Context>, q: Option<string>, ledger: seq<ProdInfo>,
                          x: ProdInfo, catalog: seq<CatalogEntry>, companies: map<CompanyId, Company>)
    requires Covered(ledger + [x], catalog) && x.account != user
    ensures Covered(ledger, catalog)
    ensures ContextAfter(user, context, q, ledger + [x], catalog, companies) ==
            ContextAfter(user, context, q, ledger, catalog, companies)
  {
    assert forall y :: y in ledger ==> y in ledger + [x];
    SelectSnoc(ledger, AccountOf, x, user);
    assert UserRows(ledger + [x], user) == UserRows(ledger, user);
  }

  // -----------------------------------------------------------------------
  // The loops of query_context
  // -----------------------------------------------------------------------

  /** The scan of `count_sum` for entries of product `p`: the last match wins. */
  method LastGroupOf(countSum: seq<Group>, p: ProductId) returns (idx: nat)
    requires exists i :: 0 <= i < |countSum| && countSum[i].title == p
    ensures idx < |countSum| && countSum[idx].title == p && LastOfTitle(countSum, idx)
  {
    var notFull: Option<nat> := None;
    for i := 0 to |countSum|
      invariant notFull.None? ==> forall j :: 0 <= j < i ==> countSum[j].title != p
      invariant notFull.Some? ==> notFull.value < i && countSum[notFull.value].title == p &&
                                  forall j :: notFull.value < j < i ==> countSum[j].title != p
    {
      if countSum[i].title == p {
        notFull := Some(i);
      }
    }
    idx := notFull.value;
  }

  /** The count, over all the user's rows, of units of product `p` whose weight is not `ref`. */
  method CountMismatches(counting: seq<ProdInfo>, p: ProductId, ref: real) returns (cnt: nat)
    ensures cnt == Mismatches(counting, p, ref)
  {
    cnt := 0;
    for i := 0 to |counting|
      invariant cnt == Mismatches(counting[..i], p, ref)
    {
      assert counting[..i + 1][..i] == counting[..i];
      if counting[i].title == p && counting[i].weight != ref {
        cnt := cnt + 1;
      }
    }
    assert counting[..|counting|] == counting;
  }

  /** Some row of `rows[..k]` is of product `t`. */
  predicate Seen(rows: seq<ProdInfo>, k: int, t: ProductId) {
    exists j :: 0 <= j < k && j < |rows| && rows[j].title == t
  }

  /** `count_sum` after the first `k` rounds of the annotation loop. */
  ghost function Partial(groups: seq<Group>, rows: seq<ProdInfo>, catalog: seq<CatalogEntry>, k: int): seq<Group>
    requires forall g :: g in groups ==> g.title in Ids(catalog)
  {
    seq(|groups|, i requires 0 <= i < |groups| =>
      if LastOfTitle(groups, i) && Seen(rows, k, groups[i].title) then Annotated(groups[i], rows, catalog) else groups[i])
  }

  /** One round annotates the last entry of the round's product, which may already carry the same annotation. */
  lemma PartialStep(groups: seq<Group>, rows: seq<ProdInfo>, catalog: seq<CatalogEntry>, k: nat, idx: nat)
    requires forall g :: g in groups ==> g.title in Ids(catalog)
    requires k < |rows| && LastOfTitle(groups, idx) && groups[idx].title == rows[k].title
    ensures Partial(groups, rows, catalog, k + 1) ==
            Partial(groups, rows, catalog, k)[idx := Annotated(groups[idx], rows, catalog)]
  {
    var before := Partial(groups, rows, catalog, k);
    var after := Partial(groups, rows, catalog, k + 1);
    forall i | 0 <= i < |groups|
      ensures after[i] == before[idx := Annotated(groups[idx], rows, catalog)][i]
    {
      if groups[i].title == rows[k].title {
        assert Seen(rows, k + 1, groups[i].title);
      } else {
        assert Seen(rows, k + 1, groups[i].title) <==> Seen(rows, k, groups[i].title) by {
          if Seen(rows, k + 1, groups[i].title) {
            var j :| 0 <= j < k + 1 && j < |rows| && rows[j].title == groups[i].title;
            assert j < k;
          }
        }
      }
    }
  }

  /** The rounds leave the entries' titles alone, so the loop finds the same last entries in `count_sum` as in the grouping. */
  lemma TitlesKept(groups: seq<Group>, rows: seq<ProdInfo>, catalog: seq<CatalogEntry>, k: int)
    requires forall g :: g in groups ==> g.title in Ids(catalog)
    ensures |Partial(groups, rows, catalog, k)| == |groups|
    ensures forall i :: 0 <= i < |groups| ==> Partial(groups, rows, catalog, k)[i].title == groups[i].title
    ensures forall i :: LastOfTitle(Partial(groups, rows, catalog, k), i) <==> LastOfTitle(groups, i)
  {
  }

  /** After every row has been seen the loop has produced the report. */
  lemma PartialDone(rows: seq<ProdInfo>, catalog: seq<CatalogEntry>)
    ensures Partial(Groups(rows, catalog), rows, catalog, |rows|) == Report(rows, catalog)
  {
    var groups := Groups(rows, catalog);
    forall i | 0 <= i < |groups| ensures Seen(rows, |rows|, groups[i].title) {
      assert groups[i] in groups;
      GroupNonEmpty(rows, groups[i].title, groups[i].company);
      var x :| x in rows && x.title == groups[i].title && x.company == groups[i].company;
      var j :| 0 <= j < |rows| && rows[j] == x;
    }
  }

  /** In every round the scan of `count_sum` finds an entry of the round's product. */
  lemma FindsGroup(groups: seq<Group>, rows: seq<ProdInfo>, catalog: seq<CatalogEntry>, k: nat)
    requires groups == Groups(rows, catalog) && Covered(rows, catalog) && k < |rows|
    ensures exists i :: 0 <= i < |Partial(groups, rows, catalog, k)| &&
                        Partial(groups, rows, catalog, k)[i].title == rows[k].title
  {
    assert rows[k] in rows;
    TitlesKept(groups, rows, catalog, k);
    RowHasGroup(rows, catalog, rows[k]);
    var i :| 0 <= i < |groups| && groups[i] == MakeGroup(rows, rows[k].title, rows[k].company);
    assert Partial(groups, rows, catalog, k)[i].title == rows[k].title;
  }

  /** One round of the loop turns the state after `k` rounds into the state after `k + 1`. */
  lemma AnnotateStep(groups: seq<Group>, rows: seq<ProdInfo>, catalog: seq<CatalogEntry>, k: nat, idx: nat, cnt: nat,
                     current: seq<Group>)
    requires forall g :: g in groups ==> g.title in Ids(catalog)
    requires k < |rows| && rows[k].title in Ids(catalog) && current == Partial(groups, rows, catalog, k)
    requires idx < |current| && current[idx].title == rows[k].title && LastOfTitle(current, idx)
    requires cnt == Mismatches(rows, rows[k].title, RefWeight(catalog, rows[k].title))
    ensures current[idx := current[idx].(notFull := Some(cnt))] == Partial(groups, rows, catalog, k + 1)
  {
    TitlesKept(groups, rows, catalog, k);
    PartialStep(groups, rows, catalog, k, idx);
  }

  /**
   * The loop over the user's rows: for each row, the last `count_sum` entry
   * of its product receives the number of that product's units whose weight
   * is off the reference.
   */
  method AnnotateCounts(counting: seq<ProdInfo>, catalog: seq<CatalogEntry>) returns (countSum: seq<Group>)
    requires Covered(counting, catalog)
    ensures countSum == Report(counting, catalog)
  {
    countSum := Groups(counting, catalog);
    ghost var groups := countSum;
    var products := catalog;
    assert countSum == Partial(groups, counting, catalog, 0);
    for k := 0 to |counting|
      invariant countSum == Partial(groups, counting, catalog, k)
    {
      var p := counting[k];
      assert p in counting;
      var ref := RefWeight(products, p.title);
      FindsGroup(groups, counting, catalog, k);
      var idx := LastGroupOf(countSum, p.title);
      var cnt := CountMismatches(counting, p.title, ref);
      AnnotateStep(groups, counting, catalog, k, idx, cnt, countSum);
      countSum := countSum[idx := countSum[idx].(notFull := Some(cnt))];
    }
    PartialDone(counting, catalog);
  }

  /**
   * `query_context(user, context, get_request)` over the ledger `ledger`
   * (the ProdInfo table), the catalog `catalog` (the Product table in its
   * default order) and the Company table `companies`.
   */
  method QueryContext(user: UserId, context: Option<Context>, getRequest: Option<string>, ledger: seq<ProdInfo>,
                      catalog: seq<CatalogEntry>, companies: map<CompanyId, Company>) returns (r: Context)
    requires Covered(ledger, catalog)
    ensures r == ContextAfter(user, context, getRequest, ledger, catalog, companies)
  {
    var ctx: Context := if context.Some? then context.value else map[];
    if getRequest.Some? && getRequest.value != "" {
      ctx := ctx["products" := ProductList(Search(catalog, companies, getRequest.value))];
    }
    var counting := UserRows(ledger, user);
    if |counting| == 0 {
      ctx := map[];
      ctx := ctx["add_dict" := AddDict(AddButtons)];
      return ctx;
    }
    ctx := ctx["add_dict" := AddDict(AddButtons)];

    assert Covered(counting, catalog);
    var countSum := AnnotateCounts(counting, catalog);
    ctx := ctx["count_sum" := CountSum(countSum)];
    r := ctx;
  }
}
