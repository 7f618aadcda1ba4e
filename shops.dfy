/** Shops (business/shop): the shop object with its catalogue and earnings, and the
    shop registry `ShopManager`. */
module Shops {
  import opened Lists
  import opened Text
  import opened Records
  import opened Discount

  /** A shop. Name, description and founding year have no setters, so they are
      constants. Earnings, the catalogue and the model's parameter change in place. */
  class Shop {
    const name: string
    const description: string
    const since: int
    var earnings: real
    var model: Model
    var catalogue: seq<CatalogueEntry>

    constructor MaxProfitShop(name: string, description: string, since: int, catalogue: seq<CatalogueEntry>)
      ensures this.name == name && this.description == description && this.since == since
      ensures this.catalogue == catalogue && earnings == 0.0
      ensures model == MaxProfit && ModelTag(model) == "MAX_PROFIT"
    {
      this.name, this.description, this.since := name, description, since;
      this.catalogue := catalogue;
      earnings := 0.0;
      model := MaxProfit;
    }

    constructor LoyaltyShop(name: string, description: string, since: int, catalogue: seq<CatalogueEntry>,
                            loyaltyThreshold: real)
      ensures this.name == name && this.description == description && this.since == since
      ensures this.catalogue == catalogue && earnings == 0.0
      ensures model == Loyalty(loyaltyThreshold) && ModelTag(model) == "LOYALTY"
    {
      this.name, this.description, this.since := name, description, since;
      this.catalogue := catalogue;
      earnings := 0.0;
      model := Loyalty(loyaltyThreshold);
    }

    constructor SponsoredShop(name: string, description: string, since: int, catalogue: seq<CatalogueEntry>,
                              sponsorBrand: Option<string>)
      ensures this.name == name && this.description == description && this.since == since
      ensures this.catalogue == catalogue && earnings == 0.0
      ensures model == Sponsored(sponsorBrand) && ModelTag(model) == "SPONSORED"
    {
      this.name, this.description, this.since := name, description, since;
      this.catalogue := catalogue;
      earnings := 0.0;
      model := Sponsored(sponsorBrand);
    }

    /** `addToCatalogue`: one entry at the end, no duplicate check; nothing else changes. */
    method AddToCatalogue(productName: string, priceAtShop: real)
      modifies this`catalogue
      ensures catalogue == old(catalogue) + [CatalogueEntry(productName, priceAtShop)]
    {
      catalogue := catalogue + [CatalogueEntry(productName, priceAtShop)];
    }

    /** `setEarnings`: earnings become exactly the given value; nothing else changes. */
    method SetEarnings(newEarnings: real)
      modifies this`earnings
      ensures earnings == newEarnings
    {
      earnings := newEarnings;
    }

    /** `setLoyaltyThreshold` (loyalty shops only): the threshold is replaced. */
    method SetLoyaltyThreshold(loyaltyThreshold: real)
      requires model.Loyalty?
      modifies this`model
      ensures model == Loyalty(loyaltyThreshold)
    {
      model := Loyalty(loyaltyThreshold);
    }

    /** `setSponsorBrand` (sponsored shops only): the brand is replaced. */
    method SetSponsorBrand(sponsorBrand: Option<string>)
      requires model.Sponsored?
      modifies this`model
      ensures model == Sponsored(sponsorBrand)
    {
      model := Sponsored(sponsorBrand);
    }
  }

  /** The names of a shop list, position by position. */
  function ShopNames(ss: seq<Shop>): (ns: seq<string>)
    ensures |ns| == |ss|
    ensures forall i :: 0 <= i < |ss| ==> ns[i] == ss[i].name
  {
    seq(|ss|, i requires 0 <= i < |ss| => ss[i].name)
  }

  /** What `findShopByName` finds in a list: the first shop whose name equals
      `name` ignoring case, or null. */
  function FindIn(ss: seq<Shop>, name: string): (s: Shop?)
    ensures s == null <==> forall j {:trigger EqualsIgnoreCase(ss[j].name, name)} :: 0 <= j < |ss| ==> !EqualsIgnoreCase(ss[j].name, name)
    ensures s != null ==> s in ss && EqualsIgnoreCase(s.name, name)
  {
    var k := FirstIgnoreCase(ShopNames(ss), name);
    if k < 0 then null else ss[k]
  }

  /** What `nameShopExists` answers over a list: some name equals `name` exactly. */
  predicate NameIn(ss: seq<Shop>, name: string)
  {
    exists j :: 0 <= j < |ss| && ss[j].name == name
  }

  /** A shop that passes the case-sensitive existence check is always found by the
      case-insensitive lookup, though possibly as an earlier shop whose name differs
      from the query in case. */
  lemma NameInImpliesFound(ss: seq<Shop>, name: string)
    requires NameIn(ss, name)
    ensures FindIn(ss, name) != null
  {
    var j :| 0 <= j < |ss| && ss[j].name == name;
    ExactImpliesIgnoreCase(ss[j].name, name);
  }

  /** The model a `createShop` tag selects; any other tag selects nothing. */
  function ParseModel(tag: string, loyaltyThreshold: real, sponsorBrand: Option<string>): (m: Option<Model>)
    ensures m.Some? ==> EqualsIgnoreCase(ModelTag(m.value), tag)
  {
    if EqualsIgnoreCase("SPONSORED", tag) then Some(Sponsored(sponsorBrand))
    else if EqualsIgnoreCase("MAX_PROFIT", tag) then Some(MaxProfit)
    else if EqualsIgnoreCase("LOYALTY", tag) then Some(Loyalty(loyaltyThreshold))
    else None
  }

  /** At most one of the three tags matches, so `createShop` creates at most one shop. */
  lemma ModelTagsExclusive(tag: string)
    ensures !(EqualsIgnoreCase("SPONSORED", tag) && EqualsIgnoreCase("MAX_PROFIT", tag))
    ensures !(EqualsIgnoreCase("SPONSORED", tag) && EqualsIgnoreCase("LOYALTY", tag))
    ensures !(EqualsIgnoreCase("MAX_PROFIT", tag) && EqualsIgnoreCase("LOYALTY", tag))
  {
    assert |ToLower("SPONSORED")| == 9;
    assert |ToLower("MAX_PROFIT")| == 10;
    assert |ToLower("LOYALTY")| == 7;
  }

  /** The tag a shop constructor stores selects that same model again, in any case. */
  lemma ModelTagRoundTrip(m: Model, tag: string)
    requires EqualsIgnoreCase(ModelTag(m), tag)
    ensures ParseModel(tag, if m.Loyalty? then m.loyaltyThreshold else 0.0,
                       if m.Sponsored? then m.sponsorBrand else None) == Some(m)
  {
    ModelTagsExclusive(tag);
  }

  /** The product names of a catalogue, position by position. */
  function EntryNames(c: seq<CatalogueEntry>): (ns: seq<string>)
    ensures |ns| == |c|
    ensures forall i :: 0 <= i < |c| ==> ns[i] == c[i].productName
  {
    seq(|c|, i requires 0 <= i < |c| => c[i].productName)
  }

  /** The catalogue after `removeFromJsonCatalogue`'s scan and removal: the LAST
      entry whose product name equals `productName` ignoring case is taken out. */
  function RemoveLastNamed(c: seq<CatalogueEntry>, productName: string): seq<CatalogueEntry>
  {
    var k := LastIgnoreCase(EntryNames(c), productName);
    if k < 0 then c else RemoveAt(c, k)
  }

  /** With no matching entry nothing is removed; otherwise exactly one matching
      entry goes, every later entry is a non-match, and the rest keep their order. */
  lemma RemoveLastNamedSpec(c: seq<CatalogueEntry>, productName: string)
    ensures (forall j :: 0 <= j < |c| ==> !EqualsIgnoreCase(c[j].productName, productName))
            ==> RemoveLastNamed(c, productName) == c
    ensures (exists j :: 0 <= j < |c| && EqualsIgnoreCase(c[j].productName, productName))
            ==> exists k :: (0 <= k < |c| && EqualsIgnoreCase(c[k].productName, productName)
                && RemoveLastNamed(c, productName) == c[..k] + c[k + 1..]
                && forall j :: k < j < |c| ==> !EqualsIgnoreCase(c[j].productName, productName))
  {
    var k := LastIgnoreCase(EntryNames(c), productName);
    if k >= 0 {
      assert EqualsIgnoreCase(c[k].productName, productName);
    }
  }

  /** Two entries for the same product at different prices: the later one is
      removed and the earlier one survives. */
  lemma RemoveLastOfDuplicates()
    ensures RemoveLastNamed([CatalogueEntry("Tea", 3.0), CatalogueEntry("TEA", 2.0)], "tea")
            == [CatalogueEntry("Tea", 3.0)]
  {
    var c := [CatalogueEntry("Tea", 3.0), CatalogueEntry("TEA", 2.0)];
    assert ToLower("TEA") == "tea";
    assert EqualsIgnoreCase(EntryNames(c)[1], "tea");
  }

  /** The shop registry. In local mode it works on `shopList`; in connected mode
      every lookup works on the list just loaded from the remote store (`loaded`). */
  class ShopManager {
    const connected: bool
    var shopList: seq<Shop>

    constructor (connected: bool)
      ensures this.connected == connected && shopList == []
    {
      this.connected := connected;
      shopList := [];
    }

    /** The list a query scans: the remote list when connected, the local one otherwise. */
    function Source(loaded: seq<Shop>): seq<Shop>
      reads this`shopList
    {
      if connected then loaded else shopList
    }

    /** `nameShopExists`: some shop's name equals `name` EXACTLY (case-sensitive). */
    method NameShopExists(name: string, loaded: seq<Shop>) returns (found: bool)
      ensures found <==> exists j :: 0 <= j < |Source(loaded)| && Source(loaded)[j].name == name
      ensures found == NameIn(Source(loaded), name)
    {
      var shops := Source(loaded);
      found := false;
      for i := 0 to |shops|
        invariant found <==> exists j :: 0 <= j < i && shops[j].name == name
      {
        if shops[i].name == name {
          found := true;
        }
      }
    }

    /** `findShopByName`: the first shop whose name equals `name` ignoring case, or null. */
    method FindShopByName(name: string, loaded: seq<Shop>) returns (shop: Shop?)
      ensures shop == FindIn(Source(loaded), name)
      ensures shop == null <==> forall j :: 0 <= j < |Source(loaded)| ==> !EqualsIgnoreCase(Source(loaded)[j].name, name)
      ensures shop != null ==> exists k :: (0 <= k < |Source(loaded)| && Source(loaded)[k] == shop
        && EqualsIgnoreCase(shop.name, name)
        && forall j :: 0 <= j < k ==> !EqualsIgnoreCase(Source(loaded)[j].name, name))
    {
      var shops := Source(loaded);
      ghost var names := ShopNames(shops);
      for i := 0 to |shops|
        invariant forall j :: 0 <= j < i ==> !EqualsIgnoreCase(shops[j].name, name)
      {
        if EqualsIgnoreCase(shops[i].name, name) {
          assert FirstIgnoreCase(names, name) == i;
          return shops[i];
        }
      }
      return null;
    }

    /** `createShop`: a recognised tag (any case) appends one new shop of that class
        with zero earnings and the given catalogue; LOYALTY keeps the threshold and
        SPONSORED the brand. Any other tag adds nothing and still reports success.
        When connected, the list is first replaced by the remote one and the result
        is whether the remote save succeeded. */
    method CreateShop(name: string, description: string, year: int, category: string,
                      catalogue: seq<CatalogueEntry>, loyaltyThreshold: real, sponsorBrand: Option<string>,
                      loaded: seq<Shop>, apiOk: bool) returns (ok: bool)
      modifies this
      ensures ParseModel(category, loyaltyThreshold, sponsorBrand).None? ==> shopList == old(shopList)
      ensures ParseModel(category, loyaltyThreshold, sponsorBrand).Some? ==>
        var base := if connected then loaded else old(shopList);
        && |shopList| == |base| + 1
        && shopList[..|base|] == base
        && fresh(shopList[|base|])
      ensures ParseModel(category, loyaltyThreshold, sponsorBrand).Some? ==>
        var s := shopList[|shopList| - 1];
        && s.name == name && s.description == description && s.since == year
        && s.catalogue == catalogue && s.earnings == 0.0
        && s.model == ParseModel(category, loyaltyThreshold, sponsorBrand).value
      ensures ok == (ParseModel(category, loyaltyThreshold, sponsorBrand).None? || !connected || apiOk)
    {
      ModelTagsExclusive(category);
      if EqualsIgnoreCase("SPONSORED", category) {
        var s := new Shop.SponsoredShop(name, description, year, catalogue, sponsorBrand);
        s.SetSponsorBrand(sponsorBrand);
        if connected {
          shopList := loaded;
        }
        shopList := shopList + [s];
        if connected && !apiOk {
          return false;
        }
      }
      if EqualsIgnoreCase("MAX_PROFIT", category) {
        var s := new Shop.MaxProfitShop(name, description, year, catalogue);
        if connected {
          shopList := loaded;
        }
        shopList := shopList + [s];
        if connected && !apiOk {
          return false;
        }
      }
      if EqualsIgnoreCase("LOYALTY", category) {
        var s := new Shop.LoyaltyShop(name, description, year, catalogue, loyaltyThreshold);
        s.SetLoyaltyThreshold(loyaltyThreshold);
        if connected {
          shopList := loaded;
        }
        shopList := shopList + [s];
        if connected && !apiOk {
          return false;
        }
      }
      return true;
    }

    /** `addToCatalogue`: no matching shop (ignoring case) means false and no
        change; otherwise one entry is appended to that shop's catalogue only, and
        the result is true unless the remote save failed. */
    method AddToCatalogue(shopName: string, productName: string, price: real, loaded: seq<Shop>, apiOk: bool)
      returns (add: bool)
      modifies Source(loaded)`catalogue
      ensures FindIn(Source(loaded), shopName) == null ==> !add
      ensures FindIn(Source(loaded), shopName) != null ==>
        var s := FindIn(Source(loaded), shopName);
        && s.catalogue == old(s.catalogue) + [CatalogueEntry(productName, price)]
        && add == (!connected || apiOk)
      ensures forall t :: (t in Source(loaded) && t != FindIn(Source(loaded), shopName)
        ==> t.catalogue == old(t.catalogue))
    {
      add := false;
      var shop := FindShopByName(shopName, loaded);
      if shop != null {
        shop.AddToCatalogue(productName, price);
        add := true;
        if connected && !apiOk {
          add := false;
        }
      }
    }

    /** `removeFromJsonCatalogue`: if the name passes the case-sensitive existence
        check, the shop found ignoring case loses the LAST entry whose product name
        matches ignoring case; with no match, or no such shop, nothing changes. */
    method RemoveFromJsonCatalogue(shopName: string, productName: string, loaded: seq<Shop>)
      modifies Source(loaded)`catalogue
      ensures !NameIn(Source(loaded), shopName) ==>
        forall t :: t in Source(loaded) ==> t.catalogue == old(t.catalogue)
      ensures NameIn(Source(loaded), shopName) ==>
        var s := FindIn(Source(loaded), shopName);
        && s != null
        && s.catalogue == RemoveLastNamed(old(s.catalogue), productName)
        && forall t :: t in Source(loaded) && t != s ==> t.catalogue == old(t.catalogue)
    {
      var nameExists := NameShopExists(shopName, loaded);
      if nameExists {
        NameInImpliesFound(Source(loaded), shopName);
        var shop := FindShopByName(shopName, loaded);
        if shop != null {
          RemoveLastMatch(shop, productName);
        }
      }
    }

    /** The scan and removal of `removeFromJsonCatalogue` on the shop found: its
        last entry matching ignoring case is taken out. */
    method RemoveLastMatch(shop: Shop, productName: string)
      modifies shop`catalogue
      ensures shop.catalogue == RemoveLastNamed(old(shop.catalogue), productName)
    {
      var catalogues := shop.catalogue;
      var productToRemove := LastMatchIndex(catalogues, productName);
      if productToRemove >= 0 {
        shop.catalogue := RemoveAt(catalogues, productToRemove);
      }
    }

    /** The search loop of `removeFromJsonCatalogue`: the index of the last entry
        whose product name matches ignoring case, -1 when none does. */
    method LastMatchIndex(catalogues: seq<CatalogueEntry>, productName: string) returns (productToRemove: int)
      ensures productToRemove == LastIgnoreCase(EntryNames(catalogues), productName)
    {
      productToRemove := -1;
      for i := 0 to |catalogues|
        invariant productToRemove == LastIgnoreCase(EntryNames(catalogues[..i]), productName)
      {
        assert EntryNames(catalogues[..i + 1]) == EntryNames(catalogues[..i]) + [catalogues[i].productName];
        if EqualsIgnoreCase(catalogues[i].productName, productName) {
          productToRemove := i;
        }
      }
      assert catalogues[..|catalogues|] == catalogues;
    }

    /** `getCatalogueFromShop`: the catalogue of the shop found ignoring case, or
        an empty list when none matches. */
    method GetCatalogueFromShop(shopName: string, loaded: seq<Shop>) returns (c: seq<CatalogueEntry>)
      ensures FindIn(Source(loaded), shopName) == null ==> c == []
      ensures FindIn(Source(loaded), shopName) != null ==> c == FindIn(Source(loaded), shopName).catalogue
    {
      var shop := FindShopByName(shopName, loaded);
      if shop != null {
        return shop.catalogue;
      } else {
        return [];
      }
    }

    /** `updateEarnings`: the shop's earnings grow by `price`; nothing else changes.
        Locally a null shop is a no-op; the connected branch dereferences the shop
        first, so it must not be null there. A failed remote update keeps the local
        change. */
    method UpdateEarnings(shop: Shop?, price: real)
      requires connected ==> shop != null
      modifies (if shop == null then {} else {shop})`earnings
      ensures shop != null ==> shop.earnings == old(shop.earnings) + price
    {
      if shop != null {
        var current := shop.earnings;
        var newIncome := current + price;
        shop.SetEarnings(newIncome);
      }
    }
  }
}
