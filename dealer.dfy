/** `DealerManager` (business): the two queries that join shops' catalogues with
    the product registry. */
module Dealer {
  import Lists
  import opened Text
  import opened Records
  import opened Products
  import opened Shops

  /** The products a catalogue resolves to, in catalogue order: each entry is looked
      up by name (first match ignoring case) and entries that do not resolve are
      skipped. Duplicate entries yield the product again. */
  function Resolve(entries: seq<CatalogueEntry>, ps: seq<Product>): (r: seq<Product>)
    ensures |r| <= |entries|
    ensures forall i :: 0 <= i < |r| ==> r[i] in ps
  {
    if entries == [] then []
    else
      var p := Lookup(ps, entries[|entries| - 1].productName);
      Resolve(entries[..|entries| - 1], ps) + (if p == null then [] else [p])
  }

  /** Resolving a concatenation resolves each part. */
  lemma {:induction false} ResolveAppend(a: seq<CatalogueEntry>, b: seq<CatalogueEntry>, ps: seq<Product>)
    ensures Resolve(a + b, ps) == Resolve(a, ps) + Resolve(b, ps)
  {
    if b == [] {
      assert a + b == a;
    } else {
      assert (a + b)[..|a + b| - 1] == a + b[..|b| - 1];
      ResolveAppend(a, b[..|b| - 1], ps);
    }
  }

  /** When every entry resolves, the result has one product per entry, position by position. */
  lemma {:induction false} ResolveAll(entries: seq<CatalogueEntry>, ps: seq<Product>)
    requires forall i :: 0 <= i < |entries| ==> Lookup(ps, entries[i].productName) != null
    ensures |Resolve(entries, ps)| == |entries|
    ensures forall i :: 0 <= i < |entries| ==> Resolve(entries, ps)[i] == Lookup(ps, entries[i].productName)
  {
    if entries != [] {
      var init := entries[..|entries| - 1];
      ResolveAll(init, ps);
      var r := Resolve(entries, ps);
      assert r == Resolve(init, ps) + [Lookup(ps, entries[|entries| - 1].productName)];
      forall i | 0 <= i < |entries|
        ensures r[i] == Lookup(ps, entries[i].productName)
      {
        if i < |init| {
          assert entries[i] == init[i];
        }
      }
    }
  }

  lemma ResolveStep(entries: seq<CatalogueEntry>, i: nat, ps: seq<Product>)
    requires i < |entries|
    ensures Resolve(entries[..i + 1], ps) == Resolve(entries[..i], ps) +
      (if Lookup(ps, entries[i].productName) == null then [] else [Lookup(ps, entries[i].productName)])
  {
    assert entries[..i + 1][..i] == entries[..i];
  }

  /** A product listed twice in a catalogue is returned twice. */
  lemma DuplicateEntriesRepeat(a: seq<CatalogueEntry>, e: CatalogueEntry, ps: seq<Product>)
    requires Lookup(ps, e.productName) != null
    ensures Resolve(a + [e, e], ps) == Resolve(a, ps) + [Lookup(ps, e.productName), Lookup(ps, e.productName)]
  {
    ResolveAppend(a, [e, e], ps);
    assert [e, e][..1] == [e];
  }

  /** How many catalogue entries name `name` ignoring case. */
  function CountNamed(c: seq<CatalogueEntry>, name: string): (n: nat)
    ensures n <= |c|
  {
    if c == [] then 0
    else CountNamed(c[..|c| - 1], name) + (if EqualsIgnoreCase(c[|c| - 1].productName, name) then 1 else 0)
  }

  lemma {:induction false} CountNamedPositive(c: seq<CatalogueEntry>, name: string)
    ensures CountNamed(c, name) > 0 <==> exists i :: 0 <= i < |c| && EqualsIgnoreCase(c[i].productName, name)
  {
    if c != [] {
      CountNamedPositive(c[..|c| - 1], name);
      assert forall i :: 0 <= i < |c| - 1 ==> c[..|c| - 1][i] == c[i];
    }
  }

  function Repeat(s: Shop, n: nat): (r: seq<Shop>)
    ensures |r| == n && forall i :: 0 <= i < n ==> r[i] == s
  {
    if n == 0 then [] else Repeat(s, n - 1) + [s]
  }

  /** `showInfoShops`' answer over a shop list: in list order, each shop once per
      catalogue entry naming the product ignoring case. */
  function ShopsSelling(ss: seq<Shop>, name: string): (r: seq<Shop>)
    reads ss
  {
    if ss == [] then []
    else
      var s := ss[|ss| - 1];
      ShopsSelling(ss[..|ss| - 1], name) + Repeat(s, CountNamed(s.catalogue, name))
  }

  /** A shop appears in the answer exactly when it is in the list and has a
      matching catalogue entry; shops with no such entry are absent. */
  lemma {:induction false} ShopsSellingMembership(ss: seq<Shop>, name: string, s: Shop)
    ensures s in ShopsSelling(ss, name) <==>
      s in ss && exists i :: 0 <= i < |s.catalogue| && EqualsIgnoreCase(s.catalogue[i].productName, name)
  {
    if ss != [] {
      var last := ss[|ss| - 1];
      ShopsSellingMembership(ss[..|ss| - 1], name, s);
      CountNamedPositive(s.catalogue, name);
      assert ss == ss[..|ss| - 1] + [last];
      if s == last && CountNamed(s.catalogue, name) > 0 {
        assert Repeat(s, CountNamed(s.catalogue, name))[0] == s;
      }
    }
  }

  /** A shop occurs in `Repeat(t, n)` n times if it is `t`, and not at all otherwise. */
  lemma {:induction false} RepeatCount(t: Shop, n: nat, s: Shop)
    ensures multiset(Repeat(t, n))[s] == if s == t then n else 0
  {
    if n > 0 {
      RepeatCount(t, n - 1, s);
    }
  }

  /** In a list of distinct shops the answer holds each listed shop exactly once per
      catalogue entry naming the product ignoring case, and no other shop. */
  lemma {:induction false} ShopsSellingCount(ss: seq<Shop>, name: string, s: Shop)
    requires Lists.Distinct(ss)
    ensures multiset(ShopsSelling(ss, name))[s] == if s in ss then CountNamed(s.catalogue, name) else 0
  {
    if ss != [] {
      var init, last := ss[..|ss| - 1], ss[|ss| - 1];
      assert ss == init + [last];
      assert Lists.Distinct(init);
      assert last !in init;
      ShopsSellingCount(init, name, s);
      RepeatCount(last, CountNamed(last.catalogue, name), s);
    }
  }

  class DealerManager {
    const shopManager: ShopManager
    const productManager: ProductManager
    /** The dealer's own connection flag, fixed at construction like each
        registry's; `showInfoShops` branches on it, not on the shop registry's. */
    const connected: bool

    constructor (shopManager: ShopManager, productManager: ProductManager, connected: bool)
      ensures this.shopManager == shopManager && this.productManager == productManager
      ensures this.connected == connected
    {
      this.shopManager := shopManager;
      this.productManager := productManager;
      this.connected := connected;
    }

    /** `getProductList`: empty unless the name passes the case-sensitive existence
        check; otherwise the resolved products of the catalogue of the shop found
        ignoring case, in catalogue order, unresolved entries skipped. */
    method GetProductList(shopName: string, loadedShops: seq<Shop>, loadedProducts: seq<Product>)
      returns (productsInCatalogue: seq<Product>)
      ensures !NameIn(shopManager.Source(loadedShops), shopName) ==> productsInCatalogue == []
      ensures NameIn(shopManager.Source(loadedShops), shopName) ==>
        var shop := FindIn(shopManager.Source(loadedShops), shopName);
        shop != null && productsInCatalogue == Resolve(shop.catalogue, productManager.Source(loadedProducts))
    {
      productsInCatalogue := [];
      var nameExists := shopManager.NameShopExists(shopName, loadedShops);
      if nameExists {
        NameInImpliesFound(shopManager.Source(loadedShops), shopName);
        var shop := shopManager.FindShopByName(shopName, loadedShops);
        if shop != null {
          var catalogue := shop.catalogue;
          ghost var products := productManager.Source(loadedProducts);
          for i := 0 to |catalogue|
            invariant productsInCatalogue == Resolve(catalogue[..i], products)
          {
            ResolveStep(catalogue, i, products);
            var product := productManager.GetProductByName(catalogue[i].productName, loadedProducts);
            if product != null {
              productsInCatalogue := productsInCatalogue + [product];
            }
          }
          assert catalogue[..|catalogue|] == catalogue;
        }
      }
    }

    /** `showInfoShops`: over the remote shop list when the dealer is connected and
        the registry's own list otherwise, in list order, each shop once per
        catalogue entry whose product name equals the product's name ignoring case. */
    method ShowInfoShops(product: Product, loadedShops: seq<Shop>) returns (results: seq<Shop>)
      ensures results == ShopsSelling(if connected then loadedShops else shopManager.shopList, product.name)
    {
      var shops := if connected then loadedShops else shopManager.shopList;
      var productName := product.name;
      results := [];
      for i := 0 to |shops|
        invariant results == ShopsSelling(shops[..i], productName)
      {
        var copies := MatchingEntries(shops[i], productName);
        results := results + copies;
        assert shops[..i + 1][..i] == shops[..i];
      }
      assert shops[..|shops|] == shops;
    }

    /** The inner loop of `showInfoShops`: the shop once per catalogue entry whose
        product name equals `productName` ignoring case. */
    method MatchingEntries(s: Shop, productName: string) returns (copies: seq<Shop>)
      ensures copies == Repeat(s, CountNamed(s.catalogue, productName))
    {
      var catalogue := s.catalogue;
      copies := [];
      for j := 0 to |catalogue|
        invariant copies == Repeat(s, CountNamed(catalogue[..j], productName))
      {
        assert catalogue[..j + 1][..j] == catalogue[..j];
        if EqualsIgnoreCase(catalogue[j].productName, productName) {
          copies := copies + [s];
        }
      }
      assert catalogue[..|catalogue|] == catalogue;
    }
  }
}
