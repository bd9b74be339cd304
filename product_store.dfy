/**
 * ProductDAO: product lookup, create-or-update from the admin form, delete
 * guarded by order references, and the name-filtered, newest-first, paged
 * product query. Image files are not modelled; only the image path a save
 * records, and the I/O failure that aborts a save or a delete, are.
 */
module ProductStore {
  import opened Wrappers
  import opened Text
  import opened Domain
  import opened Stores
  import opened ProductCodes

  const BLANK_CODE: string := "Product code cannot be null or empty"
  const NO_PRODUCT: string := "No product found with code: "
  const IN_ORDERS: string := "Cannot delete product because it is associated with existing orders."
  const IMAGE_SAVE_FAILED: string := "Failed to save product image: "
  const IMAGE_DELETE_FAILED: string := "Failed to delete product image: "

  /** findProduct: the product with this code, or None when no product has it. */
  function FindProduct(rows: map<string, Product>, code: string): (r: Option<Product>)
    requires KeyedByCode(rows)
    ensures r.None? <==> forall c :: c in rows ==> rows[c].code != code
    ensures r.Some? ==> r.value.code == code && code in rows && rows[code] == r.value
  {
    if code in rows then Some(rows[code]) else None
  }

  /** findProductInfo: the summary of the product with this code, or None. */
  function FindProductInfo(rows: map<string, Product>, code: string): (r: Option<ProductInfo>)
    requires KeyedByCode(rows)
    ensures r.None? <==> forall c :: c in rows ==> rows[c].code != code
    ensures r.Some? ==> (code in rows && r.value.code == code
      && r.value.name == rows[code].name && r.value.price == rows[code].price)
  {
    var found := FindProduct(rows, code);
    if found.None? then None else Some(InfoOf(found.value))
  }

  /** The form's fields that save copies onto the product, the parsed pet type among them. */
  predicate CopiesForm(p: Product, form: ProductForm, petType: PetType) {
    && p.code == form.code && p.name == form.name && p.price == form.price && p.petType == petType
    && p.breed == form.breed && p.age == form.age && p.gender == form.gender
    && p.description == form.description && p.status == form.status
  }

  // ---------------------------------------------------------------------------
  // Order references
  // ---------------------------------------------------------------------------

  /** The number of details naming the code. */
  function DetailCount(details: seq<OrderDetail>, code: string): (r: nat)
    ensures r > 0 <==> exists j :: 0 <= j < |details| && details[j].productCode == code
  {
    if |details| == 0 then 0
    else
      var rest := DetailCount(details[1..], code);
      assert forall j :: 1 <= j < |details| ==> details[j] == details[1..][j - 1];
      (if details[0].productCode == code then 1 else 0) + rest
  }

  /** `count(od) where od.productCode = :code` over every order's details. */
  function ReferenceCount(orders: seq<Order>, code: string): (r: nat)
    ensures r > 0 <==> exists i, j :: 0 <= i < |orders| && 0 <= j < |orders[i].details|
                                   && orders[i].details[j].productCode == code
  {
    if |orders| == 0 then 0
    else
      var rest := ReferenceCount(orders[1..], code);
      assert forall i :: 1 <= i < |orders| ==> orders[i] == orders[1..][i - 1];
      DetailCount(orders[0].details, code) + rest
  }

  // ---------------------------------------------------------------------------
  // The product query
  // ---------------------------------------------------------------------------

  /** The name filter: a null or blank term keeps everything, else the lower-cased name must contain the lower-cased term. */
  predicate Matches(p: Product, likeName: Option<string>) {
    IsNullOrBlank(likeName) || Contains(Lower(p.name), Lower(likeName.value))
  }

  /** The rows the query's where clause keeps, in table order. */
  function Matching(table: seq<Product>, likeName: Option<string>): (r: seq<Product>)
    ensures |r| <= |table|
    ensures forall p :: multiset(r)[p] == if Matches(p, likeName) then multiset(table)[p] else 0
  {
    if |table| == 0 then []
    else
      var rest := Matching(table[1..], likeName);
      assert table == [table[0]] + table[1..];
      if Matches(table[0], likeName) then [table[0]] + rest else rest
  }

  /** Newest first. */
  predicate SortedByDateDesc(s: seq<Product>) {
    forall i, j :: 0 <= i < j < |s| ==> s[i].createDate >= s[j].createDate
  }

  /** A row no older than `p` and than every row of `s` is no older than any row of a rearrangement of them. */
  lemma NotNewerThanHead(h: Product, p: Product, s: seq<Product>, r: seq<Product>)
    requires h.createDate >= p.createDate
    requires forall j :: 0 <= j < |s| ==> h.createDate >= s[j].createDate
    requires multiset(r) == multiset(s) + multiset{p}
    ensures forall k :: 0 <= k < |r| ==> h.createDate >= r[k].createDate
  {
    forall k | 0 <= k < |r|
      ensures h.createDate >= r[k].createDate
    {
      assert r[k] in multiset(r);
      if r[k] != p {
        assert r[k] in multiset(s);
        var j :| 0 <= j < |s| && s[j] == r[k];
      }
    }
  }

  /** `p` placed before the first row that is not newer than it. */
  function InsertByDate(p: Product, s: seq<Product>): (r: seq<Product>)
    requires SortedByDateDesc(s)
    ensures SortedByDateDesc(r)
    ensures multiset(r) == multiset(s) + multiset{p}
    ensures |r| == |s| + 1
  {
    if |s| == 0 || s[0].createDate <= p.createDate then [p] + s
    else
      var rest := InsertByDate(p, s[1..]);
      assert s == [s[0]] + s[1..];
      NotNewerThanHead(s[0], p, s[1..], rest);
      [s[0]] + rest
  }

  /** `order by createDate desc`; rows with equal dates keep their table order. */
  function SortByDateDesc(s: seq<Product>): (r: seq<Product>)
    ensures SortedByDateDesc(r)
    ensures multiset(r) == multiset(s)
    ensures |r| == |s|
  {
    if |s| == 0 then []
    else
      assert s == [s[0]] + s[1..];
      InsertByDate(s[0], SortByDateDesc(s[1..]))
  }

  function Min(a: int, b: int): int {
    if a <= b then a else b
  }

  /** setFirstResult(offset) and setMaxResults(size): at most `size` rows from position `offset` on. */
  function PageOf(s: seq<Product>, offset: nat, size: nat): (r: seq<Product>)
    ensures |r| == if offset >= |s| then 0 else Min(size, |s| - offset)
    ensures forall k :: 0 <= k < |r| ==> r[k] == s[offset + k]
  {
    if offset >= |s| then [] else s[offset..offset + Min(size, |s| - offset)]
  }

  /** Two adjacent pages together are the page that spans both. */
  lemma PagesConcatenate(s: seq<Product>, offset: nat, a: nat, b: nat)
    ensures PageOf(s, offset, a) + PageOf(s, offset + a, b) == PageOf(s, offset, a + b)
  {
    var left := PageOf(s, offset, a);
    var right := PageOf(s, offset + a, b);
    var whole := PageOf(s, offset, a + b);
    assert |left + right| == |whole|;
    forall k | 0 <= k < |whole|
      ensures (left + right)[k] == whole[k]
    {
      if k >= |left| {
        assert (left + right)[k] == right[k - |left|];
      }
    }
  }

  /** The matching rows, newest first: the list the pages are cut from. */
  function Ranked(table: seq<Product>, likeName: Option<string>): (r: seq<Product>)
    ensures SortedByDateDesc(r)
    ensures multiset(r) == multiset(Matching(table, likeName))
    ensures |r| == |Matching(table, likeName)|
    ensures forall k :: 0 <= k < |r| ==> Matches(r[k], likeName) && r[k] in table
  {
    var sorted := SortByDateDesc(Matching(table, likeName));
    forall k | 0 <= k < |sorted|
      ensures Matches(sorted[k], likeName) && sorted[k] in table
    {
      var p := sorted[k];
      assert p in multiset(sorted);
      assert multiset(Matching(table, likeName))[p] > 0;
      assert p in multiset(table);
    }
    sorted
  }

  /** The rows on the requested page, before they become summaries. */
  function QueryRows(table: seq<Product>, offset: nat, pageSize: nat, likeName: Option<string>): (r: seq<Product>)
    ensures |r| <= pageSize
    ensures SortedByDateDesc(r)
    ensures forall k :: 0 <= k < |r| ==> Matches(r[k], likeName) && r[k] in table
    ensures |r| == if offset >= |Ranked(table, likeName)| then 0 else Min(pageSize, |Ranked(table, likeName)| - offset)
    ensures forall k :: 0 <= k < |r| ==> r[k] == Ranked(table, likeName)[offset + k]
  {
    PageOf(Ranked(table, likeName), offset, pageSize)
  }

  /** A page of product summaries with the count of every row the filter keeps. */
  datatype ProductPage = ProductPage(content: seq<ProductInfo>, total: nat)

  /** queryProducts; the table is given in storage order. */
  function QueryProducts(table: seq<Product>, offset: nat, pageSize: nat, likeName: Option<string>): (r: ProductPage)
    ensures r.total == |Matching(table, likeName)|
    ensures |r.content| <= pageSize
    ensures forall k :: 0 <= k < |r.content| ==>
      exists p :: p in table && Matches(p, likeName) && r.content[k] == InfoOf(p)
    ensures |r.content| == |QueryRows(table, offset, pageSize, likeName)|
    ensures forall k :: 0 <= k < |r.content| ==> r.content[k] == InfoOf(QueryRows(table, offset, pageSize, likeName)[k])
  {
    var rows := QueryRows(table, offset, pageSize, likeName);
    var content := seq(|rows|, k requires 0 <= k < |rows| => InfoOf(rows[k]));
    assert forall k :: 0 <= k < |content| ==> rows[k] in table && Matches(rows[k], likeName) && content[k] == InfoOf(rows[k]);
    ProductPage(content, |Matching(table, likeName)|)
  }

  /** queryProducts(pageable): no name filter, so every row counts. */
  lemma UnfilteredQueryCountsAll(table: seq<Product>, offset: nat, pageSize: nat)
    ensures QueryProducts(table, offset, pageSize, None).total == |table|
  {
    assert multiset(Matching(table, None)) == multiset(table);
  }

  /** One page of the query is the page of the sorted matches at the same offset. */
  lemma QueryRowsIsPage(table: seq<Product>, likeName: Option<string>, offset: nat, pageSize: nat)
    ensures QueryRows(table, offset, pageSize, likeName) == PageOf(Ranked(table, likeName), offset, pageSize)
  {
  }

  /** The query as a function of the offset, for a fixed filter and page size. */
  function QueryPage(table: seq<Product>, likeName: Option<string>, pageSize: nat): nat -> seq<Product> {
    (offset: nat) => QueryRows(table, offset, pageSize, likeName)
  }

  /** Every page the query returns is the window of the sorted matches at its offset. */
  lemma QueryPagesAreWindows(table: seq<Product>, likeName: Option<string>, pageSize: nat)
    ensures forall o: nat :: QueryPage(table, likeName, pageSize)(o) == PageOf(Ranked(table, likeName), o, pageSize)
  {
    forall o: nat
      ensures QueryPage(table, likeName, pageSize)(o) == PageOf(Ranked(table, likeName), o, pageSize)
    {
      QueryRowsIsPage(table, likeName, o, pageSize);
    }
  }

  /** The rows of `pages` pages of `pageSize` requested one after another from `offset` on. */
  function Pages(page: nat -> seq<Product>, offset: nat, pageSize: nat, pages: nat): seq<Product>
    decreases pages
  {
    if pages == 0 then [] else page(offset) + Pages(page, offset + pageSize, pageSize, pages - 1)
  }

  /** Consecutive pages of a list together are the one page spanning them all. */
  lemma {:induction false} PagesSpan(page: nat -> seq<Product>, s: seq<Product>, offset: nat, pageSize: nat, pages: nat)
    requires forall o: nat :: page(o) == PageOf(s, o, pageSize)
    ensures Pages(page, offset, pageSize, pages) == PageOf(s, offset, pages * pageSize)
    decreases pages
  {
    if pages == 0 {
      assert PageOf(s, offset, 0) == [];
    } else {
      PagesSpan(page, s, offset + pageSize, pageSize, pages - 1);
      var rest: nat := (pages - 1) * pageSize;
      assert pageSize + rest == pages * pageSize;
      PagesConcatenate(s, offset, pageSize, rest);
    }
  }

  /**
   * Walking the query's pages 0, 1, 2, ... one after another lists every
   * matching row exactly once, newest first, once they cover the matches.
   */
  lemma PagesCoverMatches(table: seq<Product>, likeName: Option<string>, pageSize: nat, pages: nat)
    requires pages * pageSize >= |Matching(table, likeName)|
    ensures Pages(QueryPage(table, likeName, pageSize), 0, pageSize, pages) == Ranked(table, likeName)
  {
    var all := Ranked(table, likeName);
    QueryPagesAreWindows(table, likeName, pageSize);
    PagesSpan(QueryPage(table, likeName, pageSize), all, 0, pageSize, pages);
    assert PageOf(all, 0, pages * pageSize) == all[0..|all|];
  }

  class ProductDAO {
    const products: ProductRepository
    const orders: OrderRepository

    constructor (products: ProductRepository, orders: OrderRepository)
      ensures this.products == products && this.orders == orders
    {
      this.products := products;
      this.orders := orders;
    }

    /**
     * save: the form's code picks the product, created with clock reading
     * `now` as its createDate when absent. The form's fields overwrite the
     * product's; an unknown pet type name aborts the save. An upload is
     * written as "<code>_<millis><ext>" and recorded under /product-images/;
     * a failing copy (`ioError` holding its message) aborts the save.
     */
    method Save(form: ProductForm, now: Timestamp, millis: nat, ioError: Option<string>) returns (outcome: Outcome<Error>)
      requires products.Valid()
      modifies products`rows
      ensures products.Valid()
      ensures ParsePetType(form.petType).None? ==>
        outcome == Fail(IllegalArgument(PET_TYPE_PREFIX + form.petType)) && products.rows == old(products.rows)
      ensures ParsePetType(form.petType).Some? && HasFile(form.fileData) && ioError.Some? ==>
        outcome == Fail(Runtime(IMAGE_SAVE_FAILED + ioError.value)) && products.rows == old(products.rows)
      ensures ParsePetType(form.petType).Some? && !(HasFile(form.fileData) && ioError.Some?) ==>
        && outcome == Pass
        && form.code in products.rows
        && products.rows == old(products.rows)[form.code := products.rows[form.code]]
        && var p := products.rows[form.code];
           && CopiesForm(p, form, ParsePetType(form.petType).value)
           && p.createDate == (if form.code in old(products.rows) then old(products.rows)[form.code].createDate else now)
           && p.imagePath == (if HasFile(form.fileData)
                              then Some("/product-images/" + AddedImageName(form.code, millis, form.fileData.value.originalFilename))
                              else if form.code in old(products.rows) then old(products.rows)[form.code].imagePath
                              else None)
    {
      var code := form.code;
      var existing := FindProduct(products.rows, code);
      var createDate := if existing.None? then now else existing.value.createDate;
      var imagePath := if existing.None? then None else existing.value.imagePath;
      var petType := ParsePetType(form.petType);
      if petType.None? {
        return Fail(IllegalArgument(PET_TYPE_PREFIX + form.petType));
      }
      if HasFile(form.fileData) {
        if ioError.Some? {
          return Fail(Runtime(IMAGE_SAVE_FAILED + ioError.value));
        }
        var fileName := code + "_" + NatString(millis) + FileExtension(form.fileData.value.originalFilename);
        imagePath := Some("/product-images/" + fileName);
      }
      var product := Product(code, form.name, petType.value, form.breed, form.age, form.gender,
                             form.description, form.price, form.status, createDate, imagePath);
      products.rows := products.rows[code := product];
      outcome := Pass;
    }

    /**
     * delete: a null or blank code, and a code no product has, are refused
     * with IllegalArgumentException; a product that some order detail names
     * is refused and kept; a failing image delete (`ioError`) aborts;
     * otherwise exactly that product is removed.
     */
    method Delete(code: Option<string>, ioError: Option<string>) returns (outcome: Outcome<Error>)
      requires products.Valid()
      modifies products`rows
      ensures products.Valid()
      ensures IsNullOrBlank(code) ==>
        outcome == Fail(IllegalArgument(BLANK_CODE)) && products.rows == old(products.rows)
      ensures !IsNullOrBlank(code) && code.value !in old(products.rows) ==>
        outcome == Fail(IllegalArgument(NO_PRODUCT + code.value)) && products.rows == old(products.rows)
      ensures !IsNullOrBlank(code) && code.value in old(products.rows) ==>
        if ReferenceCount(orders.orders, code.value) > 0 then
          outcome == Fail(Runtime(IN_ORDERS)) && products.rows == old(products.rows)
        else if old(products.rows)[code.value].imagePath.Some? && ioError.Some? then
          outcome == Fail(Runtime(IMAGE_DELETE_FAILED + ioError.value)) && products.rows == old(products.rows)
        else
          outcome == Pass && products.rows == old(products.rows) - {code.value}
    {
      if IsNullOrBlank(code) {
        return Fail(IllegalArgument(BLANK_CODE));
      }
      var product := FindProduct(products.rows, code.value);
      if product.None? {
        return Fail(IllegalArgument(NO_PRODUCT + code.value));
      }
      var orderCount := ReferenceCount(orders.orders, code.value);
      if orderCount > 0 {
        return Fail(Runtime(IN_ORDERS));
      }
      if product.value.imagePath.Some? && ioError.Some? {
        return Fail(Runtime(IMAGE_DELETE_FAILED + ioError.value));
      }
      products.rows := products.rows - {code.value};
      outcome := Pass;
    }
  }
}
