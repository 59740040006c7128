# DreadStorage stock-keeping core in Dafny

DreadStorage is a small Django inventory application. Users register
manufacturers (`Company`), shops (`Shop`) and products (`Product`, which has a
reference pack weight). They then record individual stock units (`ProdInfo`):
one row per pack bought, with its shop, cost and measured weight. The main page
shows one card per (product, company) group of the user's stock. Each card has
a count and a summed weight, and the last card of each product reports how many
of that product's units differ from the reference weight (`not_full`).

This project models that core and proves its properties:

- `Text`: the string primitives the core relies on: ASCII case folding for
  `icontains`, lexicographic title order, `str.split`, `int()` on a decimal
  string, and decimal rendering of ids.
- `Models`: the records and their field rules. The class `Models.Store` holds the
  four tables as maps and has create / save / delete methods. Every save
  re-derives the slug from the name. Names, titles and slugs are unique. Foreign
  keys follow their `CASCADE` / `SET_NULL` rules.
- `Aggregation`: `query_context`. The main page's cards are specified by
  grouping, counting, summing and mismatch-counting functions over a sequence
  of stock rows. `Aggregation.QueryContext` is the imperative version with the
  source's nested loops, with the dictionary updates rendered as map updates
  on a local copy, proved equal to that specification.
- `Views`: `load_titles`, the per-user detail listing, slug extraction by
  `split('/')[-3]` along with the routes it serves, and the `MainPage` /
  `Search` calls into `query_context`.
- `Forms`: the title-choice rule of `ProductInfoForm`, the initial values of
  `AddProdInfoForm`, the required fields, owner assignment on save, and the
  editable fields of `DetailProdInfo`.

Database querysets become sequences of records in database order. Ordering by
title is an input property, `Aggregation.TitleOrdered`, of the catalog sequence.
Weights and costs are `real`, so sums and the strict `!=` comparison stay exact.
`pytils` `slugify` is an arbitrary total function, stored in the `Store`.
The request user, the `GET` parameters and the request path are parameters.

Two behaviours for a user who is not logged in are modelled as the code has them, without a corrected counterpart, because the code does not show which outcome was meant. `Search` (project/crm/views.py:43-58) has no `LoginRequiredMixin` and passes the anonymous user on to `query_context`, whose owner filter raises `TypeError` (`Views.SearchQueryset`). `AddProduct` (project/crm/views.py:86-99) has no `LoginRequiredMixin` either and gives the form `user_info=None`, so the save leaves `account` empty and the store refuses the row with an `IntegrityError` (`Forms.ProductInfoForm.Save`, `Models.ProdInfoError`).

## Model

| member | source | states |
|---|---|---|
| Text.Lower | project/crm/utils1.py:42 | lower-casing keeps the length and maps every character by ASCII case folding |
| Text.IContainsAt | project/crm/utils1.py:42 | the case-insensitive containment test holds exactly when some position of the text matches the folded pattern |
| Text.TitleBeforeIrreflexive | project/crm/models.py:80-81 | no title sorts before itself |
| Text.TitleBeforeTransitive | project/crm/models.py:80-81 | title order is transitive |
| Text.Split | project/crm/views.py:160 | splitting always yields at least one part |
| Text.SplitNoSep | project/crm/views.py:160 | a string without the separator splits into itself alone |
| Text.SplitJoin | project/crm/views.py:160 | splitting `a + sep + b` where `a` has no separator gives `a` followed by the parts of `b` |
| Text.ParseInt | project/crm/forms.py:79 | `int()` accepts an optional sign followed by one or more ASCII digits and nothing else; the value is that of the digits, negated after a `-` |
| Text.ShowNat | project/crm/urls.py:9-10 | a rendered id is a non-empty string of digits |
| Text.ParseShowNat | project/crm/forms.py:79 | parsing a rendered id gives the id back |
| Text.ParseSignedShowNat | project/crm/forms.py:79 | a rendered number with a leading `-` parses to its negation, with a leading `+` to itself |
| Models.WithoutProductRows | project/crm/models.py:10 | after a product is deleted, exactly the stock rows of other products remain, unchanged |
| Models.WithoutAccountRows | project/crm/models.py:11 | after a user is deleted, exactly the stock rows of other users remain, unchanged |
| Models.NullStockCompany | project/crm/models.py:12 | every stock row survives; a row pointing at the deleted company gets a null company, and nothing else changes |
| Models.NullProductCompany | project/crm/models.py:62 | every product survives; a product of the deleted company gets a null company, and nothing else changes |
| Models.NullStockShop | project/crm/models.py:13 | every stock row survives; a row of the deleted shop gets a null shop, and nothing else changes |
| Models.NewProdInfo | project/crm/models.py:10-15 | a new stock row takes its fields from the input; a missing cost becomes 0 |
| Models.ProdInfoError | project/crm/models.py:10-15 | a stock row is refused exactly when its product, company or shop does not exist, its weight is missing or it has no owner |
| Models.NullProductCompanyOk | project/crm/models.py:59-62 | nulling a deleted company keeps the product table's uniqueness and reference invariant |
| Models.NullStockCompanyOk | project/crm/models.py:12 | nulling a deleted company keeps the stock table's reference invariant |
| Models.Store.constructor | project/crm/models.py:7-81 | a new store has four empty tables and satisfies its invariant, under which keys start at 1 |
| Models.Store.CreateCompany | project/crm/models.py:25-36 | creation is refused, with the store unchanged, exactly when the name or its slug is taken; otherwise exactly one company is added, with slug `slugify(name)`; `Models.DuplicateCompanyRefused` walks through a second "Acme" being refused |
| Models.Store.SaveCompany | project/crm/models.py:32-36 | a save overwrites the slug from the current name; re-saving the same name leaves the row as it was; a clash with another company is refused |
| Models.Store.DeleteCompany | project/crm/models.py:12 | the company goes; its stock rows stay with a null company, and so do its products (`Product.company`, line 62) |
| Models.Store.CreateShop | project/crm/models.py:42-53 | creation is refused exactly when the name or its slug is taken; otherwise one shop is added, with slug `slugify(name)` |
| Models.Store.SaveShop | project/crm/models.py:49-53 | a save re-derives the slug; same name gives the same row; a clash is refused |
| Models.Store.DeleteShop | project/crm/models.py:13 | the shop goes; its stock rows stay, with a null shop |
| Models.Store.CreateProduct | project/crm/models.py:59-75 | refused exactly on a missing reference weight, a company id that does not exist, or a taken title or slug (no company at all is accepted); otherwise one product is added, with slug `slugify(title)` |
| Models.Store.SaveProduct | project/crm/models.py:71-75 | a save re-derives the slug from the title; an unchanged title keeps the slug |
| Models.Store.DeleteProduct | project/crm/models.py:10 | the product goes, and every stock row of it is deleted |
| Models.Store.CreateProdInfo | project/crm/models.py:10-15 | refused exactly as `ProdInfoError` says, with the store unchanged; otherwise one new row `NewProdInfo(account, input)` is added |
| Models.Store.SaveProdInfo | project/crm/models.py:13-15 | an existing row gets the new shop, cost and weight; its product, owner and company are kept |
| Models.Store.DeleteProdInfo | project/crm/models.py:7-15 | exactly that stock row is removed |
| Models.Store.DeleteUser | project/crm/models.py:11 | every stock row of that user is deleted, and nothing else changes |
| Aggregation.Select | project/crm/utils1.py:45 | a filter is never longer than its input |
| Aggregation.SelectMembers | project/crm/utils1.py:45 | an element is in the filter exactly when it is in the input and satisfies the condition |
| Aggregation.Distinct | project/crm/utils1.py:60 | the distinct keys are exactly the keys present, each once |
| Aggregation.UserRows | project/crm/utils1.py:45 | only the user's rows are counted, and all of them |
| Aggregation.Partition | project/crm/utils1.py:60-62 | counting per distinct key covers every row once, so the counts add to the row count and the weights to the total |
| Aggregation.GroupsFor | project/crm/utils1.py:60-62 | each group of one product is one of that product's companies, with its count and weight |
| Aggregation.Groups | project/crm/utils1.py:60-64 | every entry's title is a product the user holds and its company is one that occurs with it, with the count and weight of that group |
| Aggregation.SumsGroups | project/crm/utils1.py:60-62 | the group counts add to the number of rows and the group weights to their total weight |
| Aggregation.MismatchesBound | project/crm/utils1.py:81-84 | the mismatch count of a product lies between 0 and that product's row count |
| Aggregation.Annotate | project/crm/utils1.py:71-87 | annotation keeps the number of entries |
| Aggregation.PresentedCatalog | project/crm/models.py:80-81 | a title-ordered listing of the product table lists each product once and covers every stock row |
| Aggregation.ReportTotals | project/crm/utils1.py:60-62 | the counts of `count_sum` add up to `len(counting)` and its weights to the total weight of the user's rows |
| Aggregation.ReportEntries | project/crm/utils1.py:60-62 | each entry's count is the number of the user's rows with its (title, company), which is positive, and its weight is the sum of their weights |
| Aggregation.ReportKeys | project/crm/utils1.py:60-62 | every (title, company) pair of the user's rows has an entry, and no pair has two |
| Aggregation.ReportOrdered | project/crm/utils1.py:63 | for a title-ordered catalog, entries of different products appear in title order |
| Aggregation.GroupsOrdered | project/crm/utils1.py:63 | the grouping visits products in catalog order, so titles are non-decreasing |
| Aggregation.ReportNotFull | project/crm/utils1.py:71-87 | an entry carries `not_full` exactly when it is the last entry of its title; the value is the number of that product's rows (any company) whose weight differs from the reference weight, and it is at most the product's row count |
| Aggregation.MismatchExample | project/crm/utils1.py:83 | with reference 10.0, weights 10, 10 and 9.5 give one mismatch and weights 10, 10, 10 give none |
| Aggregation.Search | project/crm/utils1.py:40-43 | the search result is every product whose title or company name contains the query case-insensitively, nothing else, whatever the user, in catalog order |
| Aggregation.CompanyProducts | project/crm/views.py:116 | the products of a company id are exactly those whose company is that id, in catalog order; a negative id matches none |
| Aggregation.SelectOrdered | project/crm/models.py:80-81 | filtering a title-ordered catalog keeps it title-ordered |
| Aggregation.ContextContents | project/crm/utils1.py:37-90 | with no rows the context is exactly `{add_dict}`; otherwise it holds the caller's keys (when it passed a dictionary), the search result for a truthy query, `add_dict` and `count_sum`, and nothing else |
| Aggregation.OtherUsersIgnored | project/crm/utils1.py:45 | adding another user's row does not change the context |
| Aggregation.LastGroupOf | project/crm/utils1.py:76-78 | the inner scan leaves `not_full` on the last entry with the product's title |
| Aggregation.CountMismatches | project/crm/utils1.py:81-84 | the inner loop counts the product's rows whose weight differs from the reference weight |
| Aggregation.PartialStep | project/crm/utils1.py:71-87 | one pass of the outer loop annotates the last entry of the current row's product with its mismatch count |
| Aggregation.PartialDone | project/crm/utils1.py:71-87 | after every row is visited, each product the user holds has been annotated |
| Aggregation.AnnotateCounts | project/crm/utils1.py:60-87 | the nested loops produce exactly the specified report |
| Aggregation.QueryContext | project/crm/utils1.py:14-91 | `query_context` returns exactly `ContextAfter`: a non-dictionary context is replaced by an empty one, an empty ledger discards everything but `add_dict`, and otherwise the search result, `add_dict` and the annotated `count_sum` are added |
| Views.LoadTitles | project/crm/views.py:104-119 | a missing or empty company gives one placeholder with pk `''`; otherwise the company's products in title order, or a `ValueError` when the id is not an integer |
| Views.LoadTitlesForSelectedCompany | project/crm/views.py:114-116 | a company id sent back as the parameter lists exactly that company's products |
| Views.ProductSet | project/crm/views.py:137-138 | the detail listing holds exactly the rows owned by the user for the shown product, as (pk, shop name, cost, weight) |
| Views.ProductSetIgnoresOthers | project/crm/views.py:137 | another user's row never enters the listing |
| Views.SlugFromPath | project/crm/views.py:160 | taking the third part from the end (here and at lines 176, 214 and 224) is defined exactly when the path has at least three parts |
| Views.SlugFromRoute | project/crm/urls.py:9-12 | for the edit, delete and add-unit routes, the third part from the end is the product's slug, whatever the mount prefix |
| Views.SlugFromEditPath | project/crm/urls.py:9 | `detail/<slug>/<id>/` yields `<slug>` |
| Views.SlugFromDeletePath | project/crm/urls.py:10 | `detail/<slug>/<id>/delete` yields `<slug>` |
| Views.SlugFromAddPath | project/crm/urls.py:12 | `detail/<slug>/add_prodinfo/` yields `<slug>` |
| Views.ProdInfoPageContext | project/crm/views.py:157-178 | the edit and delete pages add `pk` and the slug from the path, or fail with an index error when the path has fewer than three parts |
| Views.AddPageContext | project/crm/views.py:211-215 | the add-unit page adds the slug from the path |
| Views.DetailProdInfoAddForm | project/crm/views.py:217-226 | the add-unit form gets the user and the slug from the path; it fails exactly when the path is too short or no product has that slug |
| Views.AddFormOnProductPage | project/crm/urls.py:12 | on a product's own add-unit page the form starts with that product and its company |
| Views.MainPageContext | project/crm/views.py:31-37 | the main page passes the request user and the framework context, unfiltered; when the user has stock rows the framework's keys are kept, otherwise only the report keys (`count_sum`, `add_dict`) are guaranteed |
| Views.SearchQueryset | project/crm/views.py:50-58 | the search passes the user and `q` without further filtering; an anonymous user fails with `TypeError` |
| Forms.TitleChoicesAsWritten | project/crm/forms.py:70-85 | the rule as written fails exactly when there is no company in the data and the instance has a pk |
| Forms.TitleChoices | project/crm/forms.py:70-85 | choices are empty by default, the parsed company's products when `company` is sent, empty on a parse error, and otherwise the instance company's products, all in title order |
| Forms.TitleChoicesDefaultEmpty | project/crm/forms.py:71 | without company data or a saved instance the choices are empty |
| Forms.TitleChoicesForSelectedCompany | project/crm/forms.py:75-80 | a sent company id gives exactly that company's products |
| Forms.TitleChoicesUnparsable | project/crm/forms.py:81-82 | an unparsable company leaves the choices empty without an error |
| Forms.TitleChoicesForInstance | project/crm/forms.py:83-85 | a saved instance with a company lists exactly that company's products |
| Forms.TitleSetMissing | project/crm/forms.py:85 | for a saved instance with pk 1 and no company data, the code as written raises `AttributeError` where the intended rule lists the company's products |
| Forms.StoredRowHasPk | project/crm/forms.py:83 | every row the store holds has a non-zero key, so a form bound to it takes the saved-instance branch |
| Forms.StoredRowTitleSetMissing | project/crm/forms.py:83-85 | as written, a form bound to any stored row without `company` data raises `AttributeError` |
| Forms.MissingField | project/crm/models.py:12-15 | a stock-row form is complete exactly when company, shop, cost and weight are all filled in, since none of these columns allows blanks; otherwise it names an empty one |
| Forms.ValidatedRowComplete | project/crm/models.py:12-15 | a row saved through a validated form has a company and a shop and the submitted cost, never the column default |
| Forms.ChosenTitleOfSubmittedCompany | project/crm/forms.py:75-80 | when the posted `company` that selects the choices is also the stored company, the chosen title is a product of that company |
| Forms.TitleChoicesAgreeElsewhere | project/crm/forms.py:75-85 | outside that branch the code as written and the corrected rule agree |
| Forms.ProductInfoForm.constructor | project/crm/forms.py:68-71 | a new form keeps the user and starts with no title choices |
| Forms.ProductInfoForm.Save | project/crm/forms.py:87-91 | the save succeeds exactly when the title is among the choices, company, shop, cost and weight are all filled in, and `ProdInfoError` does not hold for the form's user; a title outside the choices gives `InvalidChoice`, then an empty field gives `Required`, then the store's refusal (`IntegrityError` on `account` when there is no user), each with the store unchanged; a refusal by the store carries exactly the `ProdInfoError` value; a successful save stores the row with `account` set to the form's user, whatever was submitted; the other tables never change |
| Forms.NewProductInfoForm | project/crm/forms.py:68-85 | the form's title choices are `TitleChoices`, and it fails with `AttributeError` exactly when that rule does; wherever the code as written succeeds, the form has the choices the code as written computes |
| Forms.InitialFor | project/crm/forms.py:169-171 | there is no initial value exactly when no product has the slug; otherwise it is the pk and company of the first product with it |
| Forms.InitialForUniqueSlug | project/crm/forms.py:169-171 | with unique slugs, a product's slug selects that product |
| Forms.AddProdInfoForm.constructor | project/crm/forms.py:166-171 | the form keeps the user and the initial values |
| Forms.AddProdInfoForm.Save | project/crm/forms.py:174-178 | the save succeeds exactly when company, shop, cost and weight are all filled in and `ProdInfoError` does not hold for the form's user; an empty field gives `Required`, then the store's refusal (`IntegrityError` on `account` when there is no user), each with the store unchanged; a refusal by the store carries exactly the `ProdInfoError` value; a successful save stores the row with `account` set to the form's user; the other tables never change |
| Forms.NewAddProdInfoForm | project/crm/forms.py:166-172 | the form fails with `IndexError` exactly when no product has the slug |
| Forms.ApplyDetailEdit | project/crm/forms.py:137-139 | a complete edit sets shop, cost and weight to the submitted values; product, owner and company are kept |
| Forms.MissingEditField | project/crm/forms.py:139 | the edit form is complete exactly when shop, cost and weight are all filled in; otherwise it names an empty one |
| Forms.SaveDetailProdInfo | project/crm/forms.py:137-139 | the edit succeeds exactly when the entry exists, shop, cost and weight are all filled in and the shop exists; an unknown entry is `NotFound`, an empty field `Required`, each with the store unchanged; a success updates exactly that row's editable fields and no other table |

## Left out

- Registration, login, logout, captcha and password reset: these are the auth subsystem, email I/O and token generation.
- Templates, widgets, `empty_label` texts, pagination and `LoginRequiredMixin` redirects: these are framework presentation.
- The product photo and `OverwriteStorage`: blob storage in a file that is not part of this model.
- Admin configuration and the project URL wiring, apart from the fact that the app is mounted at the root (project/core/urls.py:37). The slug lemmas hold for any mount prefix.
- `slugify` is an arbitrary total function. The model proves nothing about its output, only that every save takes the slug from it.
- Float arithmetic: `cost`, `weight` and `ref_weight` are exact reals, so rounding in sums and in the `!=` comparison is not modelled.
- The 150-character `max_length` on names and slugs, and the character set that `SlugField` validates.
- Ids come from one counter shared by all tables, starting at 1 as database keys do. Database key allocation is not modelled beyond the fact that a fresh key is unused and non-zero.
- Text.Lower: folds only ASCII letters. Unicode case folding (Cyrillic titles) and database collation are left out. Title order is code-point order.
- Text.ParseInt: does not accept the surrounding whitespace, underscores or non-ASCII digits that Python's `int()` allows.
- Aggregation.Groups: the database leaves the order of groups with the same title unspecified. The model orders them by their first row.
- Models.ProdInfoError: only the checks the store itself makes (existing references, required weight, owner) are modelled. The forms add the required-field check (`Forms.MissingField`); other field cleaning (number parsing, the messages) is not modelled.
- A form with several invalid fields reports all of them. The form members return one error: the title choice first, then the first empty field in field order, then the store's refusal.
- Forms.ProductInfoForm.Save: the submitted title is always a product id, so an empty title field is not represented; a title outside the choices is `InvalidChoice`.
- Forms.ProductInfoForm.Save: in the source one POST carries both the `company` entry that selects the title choices and the `company` that is stored. The model takes them as separate inputs and does not require them to agree; `Forms.ChosenTitleOfSubmittedCompany` states what follows when they do.
- The `time_create` and `time_update` timestamps (project/crm/models.py:16 and 65-66) are clock effects that no property depends on.
- Ownership on edit and delete is not checked, because `DetailProdInfoEdit` and `DetailProdInfoDelete` do not filter by owner (project/crm/views.py:145-178).
- `DetailProductEdit` (project/crm/views.py:181-197) and the `CompanyForm` / `ShopForm` / `ProductForm` create views are covered only through the store's save rules. In particular `ProductForm` requires a company (`Product.company` allows no blank, and project/crm/forms.py:39 marks it required), while `Models.Store.CreateProduct` accepts a product without one, as the column allows.
- Forms.NewProductInfoForm: builds the title choices with the corrected rule `Forms.TitleChoices`. The code as written raises `AttributeError` for every saved instance without `company` data (see Findings, `Forms.TitleChoicesAsWritten`); the constructor's contract states where the two agree.
- Aggregation.QueryContext: when the context is a dictionary, `query_context` writes into the caller's own dictionary (project/crm/utils1.py:40-91). It writes `products` there even for a user without stock rows, for whom it then returns a fresh dictionary. For a user with stock rows it adds `add_dict` and `count_sum` too and returns that same object. The model returns a new map computed from the old one, so the changes to the caller's dictionary are not captured.
- The documentation says every card gets `not_full`. The code annotates only the last entry of each title (project/crm/utils1.py:76-78,87), and the model follows the code.

## Findings

| source | as written | input that shows it | evidently intended | confidence | as-written member | corrected member |
|---|---|---|---|---|---|---|
| project/crm/forms.py:85 | `self.instance.company.title_set` — `Company` has no `title_set` reverse accessor (its reverse relations are `product_set` and `prodinfo_set`), so the branch raises `AttributeError` | a `ProductInfoForm` bound to a saved instance with pk 1 and a company, with no `company` in the submitted data | list the products of the instance's company, ordered by title (`company.product_set.order_by('title')`) | not executed | Forms.TitleSetMissing | Forms.TitleChoices |
