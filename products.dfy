/** Products (business/product): the product object with its review list, and the
    product registry `ProductManager`. */
module Products {
  import opened Lists
  import opened Text
  import opened Tax
  import opened Records

  /** A product. Name, brand, maximum retail price and category have no setters,
      so they are constants; only the review list is ever replaced or appended to.
      A review list of `None` is the Java null a remotely loaded product may carry. */
  class Product {
    const name: string
    const brand: string
    const mrp: real
    const category: Category
    var reviews: Option<seq<Review>>

    constructor GeneralProduct(name: string, brand: string, mrp: real)
      ensures this.name == name && this.brand == brand && this.mrp == mrp
      ensures category == General && CategoryTag(category) == "GENERAL"
      ensures reviews == Some([])
    {
      this.name, this.brand, this.mrp := name, brand, mrp;
      category := General;
      reviews := Some([]);
    }

    constructor ReducedProduct(name: string, brand: string, mrp: real, averageRating: real)
      ensures this.name == name && this.brand == brand && this.mrp == mrp
      ensures category == Reduced(averageRating) && CategoryTag(category) == "REDUCED"
      ensures reviews == Some([])
    {
      this.name, this.brand, this.mrp := name, brand, mrp;
      category := Reduced(averageRating);
      reviews := Some([]);
    }

    constructor SuperReducedProduct(name: string, brand: string, mrp: real)
      ensures this.name == name && this.brand == brand && this.mrp == mrp
      ensures category == SuperReduced && CategoryTag(category) == "SUPER_REDUCED"
      ensures reviews == Some([])
    {
      this.name, this.brand, this.mrp := name, brand, mrp;
      category := SuperReduced;
      reviews := Some([]);
    }

    /** `addReview`: appends at the end; earlier reviews keep their order. Java
        would throw on a null list, so callers first replace it. */
    method AddReview(review: Review)
      requires reviews.Some?
      modifies this
      ensures reviews == Some(old(reviews).value + [review])
    {
      reviews := Some(reviews.value + [review]);
    }

    /** `setReviews`: the whole list is replaced. */
    method SetReviews(newReviews: Option<seq<Review>>)
      modifies this
      ensures reviews == newReviews
    {
      reviews := newReviews;
    }
  }

  /** The names of a product list, position by position. */
  function Names(ps: seq<Product>): (ns: seq<string>)
    ensures |ns| == |ps|
    ensures forall i :: 0 <= i < |ps| ==> ns[i] == ps[i].name
  {
    seq(|ps|, i requires 0 <= i < |ps| => ps[i].name)
  }

  /** What `getProductByName` finds in a list: the first product whose name equals
      `name` ignoring case, or null. */
  function Lookup(ps: seq<Product>, name: string): (p: Product?)
    ensures p == null <==> forall j {:trigger EqualsIgnoreCase(ps[j].name, name)} :: 0 <= j < |ps| ==> !EqualsIgnoreCase(ps[j].name, name)
    ensures p != null ==> p in ps && EqualsIgnoreCase(p.name, name)
  {
    var k := FirstIgnoreCase(Names(ps), name);
    if k < 0 then null else ps[k]
  }

  /** `matchProduct`: the lower-cased query occurs in the lower-cased name or brand. */
  predicate MatchProduct(p: Product, text: string)
  {
    Contains(ToLower(p.name), ToLower(text)) || Contains(ToLower(p.brand), ToLower(text))
  }

  /** The products of `ps` that match `text`, in list order. */
  function Matching(ps: seq<Product>, text: string): (r: seq<Product>)
    ensures |r| <= |ps|
    ensures forall i :: 0 <= i < |r| ==> r[i] in ps && MatchProduct(r[i], text)
    ensures forall i :: 0 <= i < |ps| && MatchProduct(ps[i], text) ==> ps[i] in r
  {
    if ps == [] then []
    else
      var last := ps[|ps| - 1];
      assert ps == ps[..|ps| - 1] + [last];
      Matching(ps[..|ps| - 1], text) + (if MatchProduct(last, text) then [last] else [])
  }

  /** An empty query matches every product, so the search returns the whole list. */
  lemma {:induction false} EmptyQueryMatchesAll(ps: seq<Product>)
    ensures Matching(ps, "") == ps
  {
    if ps != [] {
      var last := ps[|ps| - 1];
      EmptyQueryMatchesAll(ps[..|ps| - 1]);
      EmptyContained(ToLower(last.name));
      assert ToLower("") == "";
      assert ps == ps[..|ps| - 1] + [last];
    }
  }

  /** Searching a concatenation searches each part. */
  lemma {:induction false} MatchingAppend(a: seq<Product>, b: seq<Product>, text: string)
    ensures Matching(a + b, text) == Matching(a, text) + Matching(b, text)
  {
    if b != [] {
      var last := b[|b| - 1];
      assert (a + b)[..|a + b| - 1] == a + b[..|b| - 1];
      MatchingAppend(a, b[..|b| - 1], text);
    } else {
      assert a + b == a;
    }
  }

  /** The category a `createProduct` tag selects; any other tag selects nothing. */
  function ParseCategory(tag: string, averageRating: real): (c: Option<Category>)
    ensures c.Some? ==> EqualsIgnoreCase(CategoryTag(c.value), tag)
  {
    if EqualsIgnoreCase("GENERAL", tag) then Some(General)
    else if EqualsIgnoreCase("REDUCED", tag) then Some(Reduced(averageRating))
    else if EqualsIgnoreCase("SUPER_REDUCED", tag) then Some(SuperReduced)
    else None
  }

  /** At most one of the three tags matches, so the three sequential `if`s of
      `createProduct` create at most one product. */
  lemma TagsExclusive(tag: string)
    ensures !(EqualsIgnoreCase("GENERAL", tag) && EqualsIgnoreCase("REDUCED", tag))
    ensures !(EqualsIgnoreCase("GENERAL", tag) && EqualsIgnoreCase("SUPER_REDUCED", tag))
    ensures !(EqualsIgnoreCase("REDUCED", tag) && EqualsIgnoreCase("SUPER_REDUCED", tag))
  {
    assert ToLower("GENERAL")[0] == 'g';
    assert ToLower("REDUCED")[0] == 'r';
    assert |ToLower("SUPER_REDUCED")| == 13;
  }

  /** The tag a product constructor stores selects that same category again, in any case. */
  lemma TagRoundTrip(c: Category, tag: string)
    requires EqualsIgnoreCase(CategoryTag(c), tag)
    ensures ParseCategory(tag, if c.Reduced? then c.averageRating else 0.0) == Some(c)
  {
    TagsExclusive(tag);
  }

  /** Lowercase tags are accepted too. */
  lemma LowercaseTagAccepted()
    ensures ParseCategory("reduced", 4.0) == Some(Reduced(4.0))
  {
    assert ToLower("REDUCED") == "reduced";
    assert ToLower("reduced") == "reduced";
    TagsExclusive("reduced");
  }

  /** The product registry. In local mode it works on `productList`; in connected
      mode every query works on the list just loaded from the remote store, given
      here as the parameter `loaded`. */
  class ProductManager {
    const connected: bool
    var productList: seq<Product>

    /** Every product object is registered once: each one is created afresh. */
    ghost predicate Valid()
      reads this
    {
      Distinct(productList)
    }

    constructor (connected: bool)
      ensures this.connected == connected
      ensures productList == [] && Valid()
    {
      this.connected := connected;
      productList := [];
    }

    /** The list a query scans: the remote list when connected, the local one otherwise. */
    function Source(loaded: seq<Product>): seq<Product>
      reads this`productList
    {
      if connected then loaded else productList
    }

    /** `createProduct`: a recognised tag (any case) appends one new product of
        that class at the end, without checking the name; any other tag adds
        nothing and still reports success. When connected, the result is whether
        the remote save succeeded (`apiOk`); the local append happens either way. */
    method CreateProduct(name: string, brand: string, mrp: real, category: string,
                         averageRating: real, apiOk: bool) returns (ok: bool)
      requires Valid()
      modifies this
      ensures Valid()
      ensures ParseCategory(category, averageRating).None? ==> productList == old(productList)
      ensures ParseCategory(category, averageRating).Some? ==>
        && |productList| == |old(productList)| + 1
        && productList[..|old(productList)|] == old(productList)
        && fresh(productList[|old(productList)|])
      ensures ParseCategory(category, averageRating).Some? ==>
        var p := productList[|old(productList)|];
        && p.name == name && p.brand == brand && p.mrp == mrp
        && p.category == ParseCategory(category, averageRating).value
        && p.reviews == Some([])
      ensures ok == (ParseCategory(category, averageRating).None? || !connected || apiOk)
    {
      TagsExclusive(category);
      if EqualsIgnoreCase("GENERAL", category) {
        var p := new Product.GeneralProduct(name, brand, mrp);
        productList := productList + [p];
        if connected && !apiOk {
          return false;
        }
      }
      if EqualsIgnoreCase("REDUCED", category) {
        var p := new Product.ReducedProduct(name, brand, mrp, averageRating);
        productList := productList + [p];
        if connected && !apiOk {
          return false;
        }
      }
      if EqualsIgnoreCase("SUPER_REDUCED", category) {
        var p := new Product.SuperReducedProduct(name, brand, mrp);
        productList := productList + [p];
        if connected && !apiOk {
          return false;
        }
      }
      return true;
    }

    /** `nameProductExists`: some product's name equals `name` ignoring case. */
    method NameProductExists(name: string, loaded: seq<Product>) returns (found: bool)
      ensures found <==> exists j :: 0 <= j < |Source(loaded)| && EqualsIgnoreCase(Source(loaded)[j].name, name)
    {
      var products := Source(loaded);
      found := false;
      for i := 0 to |products|
        invariant found <==> exists j :: 0 <= j < i && EqualsIgnoreCase(products[j].name, name)
      {
        if EqualsIgnoreCase(products[i].name, name) {
          found := true;
        }
      }
    }

    /** `getProductByName`: the first product whose name equals `name` ignoring case, or null. */
    method GetProductByName(name: string, loaded: seq<Product>) returns (p: Product?)
      ensures p == Lookup(Source(loaded), name)
      ensures p == null <==> forall j :: 0 <= j < |Source(loaded)| ==> !EqualsIgnoreCase(Source(loaded)[j].name, name)
      ensures p != null ==> exists k :: (0 <= k < |Source(loaded)| && Source(loaded)[k] == p
        && EqualsIgnoreCase(p.name, name)
        && forall j :: 0 <= j < k ==> !EqualsIgnoreCase(Source(loaded)[j].name, name))
    {
      var products := Source(loaded);
      ghost var names := Names(products);
      for i := 0 to |products|
        invariant forall j :: 0 <= j < i ==> !EqualsIgnoreCase(products[j].name, name)
      {
        if EqualsIgnoreCase(products[i].name, name) {
          assert FirstIgnoreCase(names, name) == i;
          return products[i];
        }
      }
      return null;
    }

    /** `removeProduct`: an index in range removes that element and then the first
        further occurrence of the same object; an index out of range changes nothing. */
    method RemoveProduct(index: int)
      requires Valid()
      modifies this
      ensures Valid()
      ensures productList == if 0 <= index < |old(productList)|
        then RemoveFirst(RemoveAt(old(productList), index), old(productList)[index])
        else old(productList)
      ensures 0 <= index < |old(productList)| ==> productList == RemoveAt(old(productList), index)
    {
      if 0 <= index < |productList| {
        var productToRemove := productList[index];
        RemoveAtKeepsDistinct(productList, index);
        productList := RemoveAt(productList, index);
        productList := RemoveFirst(productList, productToRemove);
      }
    }

    /** `priceProductExceed`: true iff SOME product (any product, not a given one)
        has a maximum retail price of at least `price`; false on an empty list. */
    method PriceProductExceed(price: real, loaded: seq<Product>) returns (ok: bool)
      ensures ok <==> exists j :: 0 <= j < |Source(loaded)| && price <= Source(loaded)[j].mrp
    {
      var products := Source(loaded);
      ok := false;
      var i := 0;
      while i < |products|
        invariant 0 <= i <= |products|
        invariant !ok
        invariant forall j :: 0 <= j < i ==> price > products[j].mrp
      {
        if price <= products[i].mrp {
          ok := true;
          break;
        }
        i := i + 1;
      }
    }

    /** `searchProducts`: in list order, the products whose lower-cased name or
        brand contains the lower-cased query. */
    method SearchProducts(searchInput: string, loaded: seq<Product>) returns (results: seq<Product>)
      ensures results == Matching(Source(loaded), searchInput)
      ensures forall p :: p in results <==> p in Source(loaded) && MatchProduct(p, searchInput)
    {
      var products := Source(loaded);
      results := [];
      for i := 0 to |products|
        invariant results == Matching(products[..i], searchInput)
      {
        assert products[..i + 1] == products[..i] + [products[i]];
        if MatchProduct(products[i], searchInput) {
          results := results + [products[i]];
        }
      }
      assert products[..|products|] == products;
    }

    /** `addProductReview`: a null review list becomes empty first, then the
        review is appended at the end of that product's reviews. */
    method AddProductReview(rating: int, comment: string, product: Product)
      modifies product
      ensures product.reviews ==
        Some((if old(product.reviews).None? then [] else old(product.reviews).value) + [Review(rating, comment)])
    {
      if product.reviews.None? {
        product.SetReviews(Some([]));
      }
      product.AddReview(Review(rating, comment));
    }
  }
}
