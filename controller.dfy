/** The non-UI logic of the console `Controller` (presentation): the string and
    number helpers behind the menus, and the cart view and checkout arithmetic of
    `showUserCart`. */
module Presentation {
  import opened Lists
  import opened Text
  import opened Tax
  import opened Records
  import opened Discount
  import opened Products
  import opened Shops

  // ---------------------------------------------------------------------------
  // convertBrand

  /** Splitting at every single space, keeping every (possibly empty) piece. */
  function SplitAll(s: string): (r: seq<string>)
    ensures |r| >= 1
    ensures forall i :: 0 <= i < |r| ==> ' ' !in r[i]
  {
    if s == [] then [""]
    else if s[0] == ' ' then [""] + SplitAll(s[1..])
    else
      var rest := SplitAll(s[1..]);
      [[s[0]] + rest[0]] + rest[1..]
  }

  /** Java's `split` drops the trailing empty strings of the result. */
  function DropTrailingEmpty(ws: seq<string>): (r: seq<string>)
    ensures |r| <= |ws| && r == ws[..|r|]
    ensures r != [] ==> r[|r| - 1] != ""
    ensures forall i :: |r| <= i < |ws| ==> ws[i] == ""
  {
    if ws != [] && ws[|ws| - 1] == "" then DropTrailingEmpty(ws[..|ws| - 1]) else ws
  }

  /** `s.split(" ")`: a string without a space (the empty one included) is its own
      single piece; otherwise the pieces between spaces, trailing empty pieces dropped. */
  function JavaSplit(s: string): (r: seq<string>)
    ensures forall i :: 0 <= i < |r| ==> ' ' !in r[i]
  {
    if s == "" then [""] else DropTrailingEmpty(SplitAll(s))
  }

  /** A lower-cased word with its first letter upper-cased. */
  function Capitalize(w: string): (r: string)
    requires w != ""
    ensures |r| == |w| && r[0] == ToUpperChar(w[0]) && r[1..] == w[1..]
  {
    [ToUpperChar(w[0])] + w[1..]
  }

  /** One iteration of the `convertBrand` loop on the text built so far; None is the
      exception `setLength(-1)` throws when an empty piece meets an empty buffer. */
  function Step(acc: Option<string>, w: string): Option<string>
  {
    if acc.None? then None
    else if w != "" then Some(acc.value + (if acc.value == "" then "" else " ") + Capitalize(w))
    else if acc.value == "" then None
    else Some(acc.value[..|acc.value| - 1])
  }

  function Fold(acc: Option<string>, ws: seq<string>): Option<string>
    decreases ws
  {
    if ws == [] then acc else Fold(Step(acc, ws[0]), ws[1..])
  }

  lemma {:induction false} FoldSnoc(acc: Option<string>, ws: seq<string>, w: string)
    ensures Fold(acc, ws + [w]) == Step(Fold(acc, ws), w)
    decreases ws
  {
    if ws != [] {
      assert (ws + [w])[1..] == ws[1..] + [w];
      FoldSnoc(Step(acc, ws[0]), ws[1..], w);
    }
  }

  /** What `convertBrand(brand)` returns, None when it throws. */
  function ConvertBrandOf(brand: string): Option<string>
  {
    Fold(Some(""), JavaSplit(ToLower(brand)))
  }

  /** Words joined by single spaces. */
  function Join(ws: seq<string>): (r: string)
    ensures ws != [] && ws[|ws| - 1] != "" ==> r != ""
  {
    if ws == [] then ""
    else if |ws| == 1 then ws[0]
    else Join(ws[..|ws| - 1]) + " " + ws[|ws| - 1]
  }

  function CapitalizeAll(ws: seq<string>): (r: seq<string>)
    requires forall i :: 0 <= i < |ws| ==> ws[i] != ""
    ensures |r| == |ws| && forall i :: 0 <= i < |ws| ==> r[i] == Capitalize(ws[i]) && r[i] != ""
  {
    if ws == [] then [] else CapitalizeAll(ws[..|ws| - 1]) + [Capitalize(ws[|ws| - 1])]
  }

  /** Without empty pieces the loop is plain title-casing: the capitalised words
      joined by single spaces, with no trailing space. */
  lemma {:induction false} FoldTitleCase(ws: seq<string>)
    requires forall i :: 0 <= i < |ws| ==> ws[i] != ""
    ensures Fold(Some(""), ws) == Some(Join(CapitalizeAll(ws)))
  {
    if ws != [] {
      var init, w := ws[..|ws| - 1], ws[|ws| - 1];
      FoldTitleCase(init);
      assert ws == init + [w];
      FoldSnoc(Some(""), init, w);
      JoinSnoc(CapitalizeAll(init), Capitalize(w));
    }
  }

  /** Appending a word to a joined list: a space between, none before the first. */
  lemma JoinSnoc(ws: seq<string>, w: string)
    requires forall i :: 0 <= i < |ws| ==> ws[i] != ""
    ensures Join(ws + [w]) == (if ws == [] then "" else Join(ws) + " ") + w
    ensures ws != [] ==> Join(ws) != ""
  {
    assert (ws + [w])[..|ws|] == ws;
    if ws == [] {
      assert "" + w == w;
    }
  }

  /** An empty piece (a leading or doubled space) deletes the last character built
      so far, and throws on an empty buffer. */
  lemma EmptyPieceDeletes(acc: string, ws: seq<string>)
    ensures Fold(Some(acc), [""] + ws) == (if acc == "" then None else Fold(Some(acc[..|acc| - 1]), ws))
  {
    assert ([""] + ws)[1..] == ws;
    if acc == "" {
      NoneStaysNone(ws);
    }
  }

  lemma {:induction false} NoneStaysNone(ws: seq<string>)
    ensures Fold(None, ws) == None
  {
    if ws != [] {
      NoneStaysNone(ws[1..]);
    }
  }

  lemma {:induction false} FoldAppend(acc: Option<string>, a: seq<string>, b: seq<string>)
    ensures Fold(acc, a + b) == Fold(Fold(acc, a), b)
    decreases a
  {
    if a != [] {
      assert (a + b)[1..] == a[1..] + b;
      FoldAppend(Step(acc, a[0]), a[1..], b);
    } else {
      assert a + b == b;
    }
  }

  lemma {:induction false} SplitNoSpace(w: string)
    requires ' ' !in w
    ensures SplitAll(w) == [w]
  {
    if w != [] {
      SplitNoSpace(w[1..]);
      assert [w[0]] + w[1..] == w;
    }
  }

  /** A piece followed by a space is split off on its own. */
  lemma {:induction false} SplitWord(w: string, rest: string)
    requires ' ' !in w
    ensures SplitAll(w + " " + rest) == [w] + SplitAll(rest)
  {
    var s := w + " " + rest;
    if w == [] {
      assert s[0] == ' ' && s[1..] == rest;
    } else {
      assert s[0] == w[0] && s[1..] == w[1..] + " " + rest;
      SplitWord(w[1..], rest);
      assert [w[0]] + w[1..] == w;
    }
  }

  /** `Join` read from the front: the first word, then a space before the rest. */
  lemma {:induction false} JoinCons(w: string, rest: seq<string>)
    ensures Join([w] + rest) == if rest == [] then w else w + " " + Join(rest)
    decreases |rest|
  {
    if |rest| > 1 {
      var init, last := rest[..|rest| - 1], rest[|rest| - 1];
      assert ([w] + rest)[..|rest|] == [w] + init;
      JoinCons(w, init);
    }
  }

  /** Splitting undoes joining when no word has a space. */
  lemma {:induction false} SplitJoin(ws: seq<string>)
    requires ws != []
    requires forall i :: 0 <= i < |ws| ==> ' ' !in ws[i]
    ensures SplitAll(Join(ws)) == ws
    decreases |ws|
  {
    var w, rest := ws[0], ws[1..];
    assert ws == [w] + rest;
    JoinCons(w, rest);
    if rest == [] {
      SplitNoSpace(w);
    } else {
      SplitJoin(rest);
      SplitWord(w, Join(rest));
    }
  }

  /** Joining undoes splitting, for every string: the pieces keep every character
      other than the separating spaces. */
  lemma {:induction false} JoinSplit(s: string)
    ensures Join(SplitAll(s)) == s
  {
    if s != [] {
      JoinSplit(s[1..]);
      JoinSplitStep(s[0], s[1..]);
      assert s == [s[0]] + s[1..];
    }
  }

  /** One character in front of a string: a space opens an empty piece, any other
      character joins the first piece. */
  lemma JoinSplitStep(c: char, tail: string)
    requires Join(SplitAll(tail)) == tail
    ensures Join(SplitAll([c] + tail)) == [c] + tail
  {
    var s := [c] + tail;
    assert s[0] == c && s[1..] == tail;
    var rest := SplitAll(tail);
    if c == ' ' {
      assert SplitAll(s) == [""] + rest;
      JoinCons("", rest);
    } else {
      assert SplitAll(s) == [[c] + rest[0]] + rest[1..];
      JoinFirstGrows(c, rest);
    }
  }

  /** Putting a character in front of the first word puts it in front of the join. */
  lemma JoinFirstGrows(c: char, ws: seq<string>)
    requires ws != []
    ensures Join([[c] + ws[0]] + ws[1..]) == [c] + Join(ws)
  {
    var w, rest := ws[0], ws[1..];
    assert ws == [w] + rest;
    JoinCons(w, rest);
    JoinCons([c] + w, rest);
  }

  /** Every word lower-cased. */
  function LowerAll(ws: seq<string>): (r: seq<string>)
    ensures |r| == |ws|
    ensures forall i :: 0 <= i < |ws| ==> r[i] == ToLower(ws[i])
  {
    seq(|ws|, i requires 0 <= i < |ws| => ToLower(ws[i]))
  }

  lemma ToLowerAppend(a: string, b: string)
    ensures ToLower(a + b) == ToLower(a) + ToLower(b)
  {
    assert forall i :: 0 <= i < |a + b| ==> ToLower(a + b)[i] == (ToLower(a) + ToLower(b))[i];
  }

  /** Lower-casing keeps a space a space and never makes one. */
  lemma LowerKeepsSpaces(w: string)
    ensures ' ' in ToLower(w) <==> ' ' in w
  {
    if ' ' in w {
      var j :| 0 <= j < |w| && w[j] == ' ';
      assert ToLower(w)[j] == ' ';
    }
    if ' ' in ToLower(w) {
      var j :| 0 <= j < |w| && ToLower(w)[j] == ' ';
      assert w[j] == ' ';
    }
  }

  /** Lower-casing a joined list is joining the lower-cased words. */
  lemma {:induction false} LowerJoin(ws: seq<string>)
    ensures ToLower(Join(ws)) == Join(LowerAll(ws))
  {
    if |ws| > 1 {
      var init, last := ws[..|ws| - 1], ws[|ws| - 1];
      LowerJoin(init);
      assert LowerAll(ws)[..|ws| - 1] == LowerAll(init);
      ToLowerAppend(Join(init) + " ", last);
      ToLowerAppend(Join(init), " ");
    }
  }

  /** Lower-casing keeps words non-empty and free of spaces. */
  lemma LowerAllWords(ws: seq<string>)
    requires forall i :: 0 <= i < |ws| ==> ws[i] != "" && ' ' !in ws[i]
    ensures forall i :: 0 <= i < |ws| ==> LowerAll(ws)[i] != "" && ' ' !in LowerAll(ws)[i]
  {
    forall i | 0 <= i < |ws|
      ensures LowerAll(ws)[i] != "" && ' ' !in LowerAll(ws)[i]
    {
      LowerKeepsSpaces(ws[i]);
    }
  }

  /** `split(" ")` of single-space-separated non-empty words gives the words back. */
  lemma JavaSplitJoin(ws: seq<string>)
    requires ws != []
    requires forall i :: 0 <= i < |ws| ==> ws[i] != "" && ' ' !in ws[i]
    ensures JavaSplit(Join(ws)) == ws
  {
    SplitJoin(ws);
    assert DropTrailingEmpty(ws) == ws;
  }

  /** `convertBrand` title-cases a brand of words separated by single spaces:
      every word lower-cased, its first letter upper-cased, joined again by single
      spaces. */
  lemma ConvertBrandTitleCase(ws: seq<string>)
    requires ws != []
    requires forall i :: 0 <= i < |ws| ==> ws[i] != "" && ' ' !in ws[i]
    ensures ConvertBrandOf(Join(ws)) == Some(Join(CapitalizeAll(LowerAll(ws))))
  {
    LowerJoin(ws);
    LowerAllWords(ws);
    JavaSplitJoin(LowerAll(ws));
    FoldTitleCase(LowerAll(ws));
  }

  /** The empty brand throws: `"".split(" ")` is one empty piece. */
  lemma EmptyBrandThrows()
    ensures ConvertBrandOf("") == None
  {
    assert ToLower("") == "";
  }

  /** A leading space throws: the first piece is empty while the buffer is. */
  lemma LeadingSpaceThrows()
    ensures ConvertBrandOf(" nike") == None
  {
    assert ToLower(" nike") == " nike" == "" + " " + "nike";
    SplitWord("", "nike");
    SplitNoSpace("nike");
    assert JavaSplit(" nike") == [""] + ["nike"];
    EmptyPieceDeletes("", ["nike"]);
  }

  lemma NikeAirSteps()
    ensures Step(Some(""), "nike") == Some("Nike")
    ensures Step(Some("Nike"), "air") == Some("Nike Air")
    ensures Step(Some("Nike"), "") == Some("Nik")
    ensures Step(Some("Nik"), "air") == Some("Nik Air")
  {
    assert ToUpperChar('n') == 'N' && ToUpperChar('a') == 'A';
    assert Capitalize("nike") == "Nike";
    assert Capitalize("air") == "Air";
    assert "" + "" + "Nike" == "Nike";
    assert "Nike" + " " + "Air" == "Nike Air";
    assert "Nike"[..3] == "Nik";
    assert "Nik" + " " + "Air" == "Nik Air";
  }

  /** Words are title-cased and joined by one space. */
  lemma TitleCaseExample()
    ensures ConvertBrandOf("NIKE air") == Some("Nike Air")
  {
    assert ToLower("NIKE air") == "nike air" == "nike" + " " + "air";
    SplitWord("nike", "air");
    SplitNoSpace("air");
    assert JavaSplit("nike air") == ["nike", "air"];
    NikeAirSteps();
  }

  /** A doubled space eats the last letter of the word before it. */
  lemma DoubledSpaceExample()
    ensures ConvertBrandOf("nike  air") == Some("Nik Air")
  {
    DoubledSpaceSplit();
    NikeAirSteps();
    var ws := ["nike", "", "air"];
    assert ws[1..] == ["", "air"] && ws[1..][1..] == ["air"] && ws[1..][1..][1..] == [];
  }

  lemma DoubledSpaceSplit()
    ensures JavaSplit(ToLower("nike  air")) == ["nike", "", "air"]
  {
    assert ToLower("nike  air") == "nike  air";
    assert SplitAll(" air") == ["", "air"] by {
      assert " air" == "" + " " + "air";
      SplitWord("", "air");
      SplitNoSpace("air");
    }
    assert SplitAll("nike  air") == ["nike", "", "air"] by {
      assert "nike  air" == "nike" + " " + " air";
      SplitWord("nike", " air");
    }
  }

  /** A brand of spaces only has no pieces at all and converts to the empty string. */
  lemma OnlySpacesExample()
    ensures ConvertBrandOf("  ") == Some("")
  {
    assert ToLower("  ") == "  " == "" + " " + " ";
    assert " " == "" + " " + "";
    SplitWord("", " ");
    SplitWord("", "");
    SplitNoSpace("");
    assert SplitAll("  ") == ["", "", ""];
    assert JavaSplit("  ") == [];
  }

  // ---------------------------------------------------------------------------
  // countStars

  /** What `countStars` answers: the length of a string made only of '*', and -1
      for any string holding another character. */
  function Stars(s: string): (n: int)
    ensures n == -1 || n == |s|
    ensures n == |s| <==> forall i :: 0 <= i < |s| ==> s[i] == '*'
  {
    if s == "" then 0
    else if s[0] != '*' then -1
    else
      var rest := Stars(s[1..]);
      if rest == -1 then -1 else rest + 1
  }

  /** The review dialog accepts a rating exactly when the answer is one to five stars. */
  lemma AcceptedRatings(s: string)
    ensures 1 <= Stars(s) <= 5 <==> 1 <= |s| <= 5 && forall i :: 0 <= i < |s| ==> s[i] == '*'
  {
  }

  // ---------------------------------------------------------------------------
  // calculateAverageRating

  function RatingTotal(rs: seq<Review>): int
  {
    if rs == [] then 0 else RatingTotal(rs[..|rs| - 1]) + rs[|rs| - 1].rating
  }

  /** `Math.round(x * 100.0) / 100.0` over exact reals: half-up to two decimals. */
  function RoundHundredths(x: real): real
  {
    ((x * 100.0 + 0.5).Floor as real) / 100.0
  }

  /** What `calculateAverageRating` returns: 0.0 without reviews, else the mean
      rating rounded to two decimals. */
  function AverageRating(rs: seq<Review>): real
  {
    if rs == [] then 0.0 else RoundHundredths(RatingTotal(rs) as real / |rs| as real)
  }

  /** Rounding moves a value by at most half a hundredth. */
  lemma RoundingError(x: real)
    ensures x - 0.005 < RoundHundredths(x) <= x + 0.005
  {
  }

  lemma {:induction false} TotalBounds(rs: seq<Review>)
    requires forall i :: 0 <= i < |rs| ==> 1 <= rs[i].rating <= 5
    ensures |rs| <= RatingTotal(rs) <= 5 * |rs|
  {
    if rs != [] {
      TotalBounds(rs[..|rs| - 1]);
    }
  }

  lemma MulMonotone(a: real, b: real, n: real)
    requires n > 0.0 && a > b
    ensures a * n > b * n
  {
  }

  lemma MulCancel(a: real, b: real, n: real)
    requires n > 0.0 && a * n <= b * n
    ensures a <= b
  {
    if a > b {
      MulMonotone(a, b, n);
    }
  }

  /** A total between n and 5n over n reviews gives a mean between 1 and 5. */
  lemma DivideBounds(t: real, n: real)
    requires n > 0.0 && n <= t <= 5.0 * n
    ensures 1.0 <= t / n <= 5.0
  {
    var q := t / n;
    assert q * n == t;
    MulCancel(q, 5.0, n);
    MulCancel(1.0, q, n);
  }

  /** With every rating between one and five stars, a product with reviews has an
      average between 1.0 and 5.0. */
  lemma AverageInStarRange(rs: seq<Review>)
    requires rs != []
    requires forall i :: 0 <= i < |rs| ==> 1 <= rs[i].rating <= 5
    ensures 1.0 <= AverageRating(rs) <= 5.0
  {
    TotalBounds(rs);
    var n := |rs| as real;
    var mean := RatingTotal(rs) as real / n;
    DivideBounds(RatingTotal(rs) as real, n);
    assert 1.0 <= mean <= 5.0;
    var f := (mean * 100.0 + 0.5).Floor;
    assert 100 <= f <= 500;
  }

  lemma {:induction false} UniformTotal(rs: seq<Review>, r: int)
    requires forall i :: 0 <= i < |rs| ==> rs[i].rating == r
    ensures RatingTotal(rs) == r * |rs|
  {
    if rs != [] {
      UniformTotal(rs[..|rs| - 1], r);
    }
  }

  /** Reviews that all give the same rating average to exactly that rating. */
  lemma UniformAverage(rs: seq<Review>, r: int)
    requires rs != []
    requires forall i :: 0 <= i < |rs| ==> rs[i].rating == r
    ensures AverageRating(rs) == r as real
  {
    UniformTotal(rs, r);
    var n := |rs| as real;
    assert RatingTotal(rs) as real == r as real * n;
    assert RatingTotal(rs) as real / n == r as real;
    assert (r as real * 100.0 + 0.5).Floor == r * 100;
  }

  // ---------------------------------------------------------------------------
  // getPriceProduct, isHabitualCustomer and the prices of a cart line

  /** What `getPriceProduct` answers for a catalogue: the price of the last entry
      naming the product ignoring case, 0.0 when none does. */
  function PriceAt(c: seq<CatalogueEntry>, name: string): real
  {
    if c == [] then 0.0
    else if EqualsIgnoreCase(c[|c| - 1].productName, name) then c[|c| - 1].priceAtShop
    else PriceAt(c[..|c| - 1], name)
  }

  /** The price is that of the entry the last-match scan finds (the one
      `removeFromJsonCatalogue` would take out), and 0.0 when no entry matches. */
  lemma {:induction false} PriceAtLastMatch(c: seq<CatalogueEntry>, name: string)
    ensures var k := LastIgnoreCase(EntryNames(c), name);
      PriceAt(c, name) == if k < 0 then 0.0 else c[k].priceAtShop
  {
    if c != [] {
      var init := c[..|c| - 1];
      assert EntryNames(c)[..|c| - 1] == EntryNames(init);
      if !EqualsIgnoreCase(c[|c| - 1].productName, name) {
        PriceAtLastMatch(init, name);
      }
    }
  }

  /** With two entries for one product, the later one's price is the one charged. */
  lemma LastEntryPriceWins()
    ensures PriceAt([CatalogueEntry("Tea", 3.0), CatalogueEntry("TEA", 2.0)], "tea") == 2.0
  {
    assert ToLower("TEA") == "tea" by {
      assert ToLowerChar('T') == 't' && ToLowerChar('E') == 'e' && ToLowerChar('A') == 'a';
    }
    assert ToLower("tea") == "tea";
  }

  /** `isHabitualCustomer`: a loyalty shop whose earnings have reached its threshold. */
  predicate IsHabitualCustomer(shop: Shop?)
    reads shop
  {
    shop != null && shop.model.Loyalty? && shop.earnings >= shop.model.loyaltyThreshold
  }

  /** The shop a name resolves to is one whose customer is habitual. */
  predicate HabitualKey(ss: seq<Shop>, k: string)
    reads ss
  {
    IsHabitualCustomer(FindIn(ss, k))
  }

  /** The price the cart view shows for a line: the raw catalogue price, or the
      shop's discounted price for a habitual customer. */
  function ShownPrice(shop: Shop, product: Product): real
    reads shop
  {
    var priceAtShop := PriceAt(shop.catalogue, product.name);
    if IsHabitualCustomer(shop) then CalculateDiscount(shop.model, priceAtShop, product) else priceAtShop
  }

  /** The amount checkout posts to the earnings of a shop with this model and
      catalogue for a line: always the discounted, tax-free price. */
  function PostedAmount(m: Model, c: seq<CatalogueEntry>, product: Product): real
  {
    CalculateDiscount(m, PriceAt(c, product.name), product)
  }

  /** The shown and the posted price of a line agree only for habitual customers,
      who see the tax-free price; everyone else is shown the raw price, which is
      never below what the shop books and is above it for a taxed product. */
  lemma ShownVersusPosted(shop: Shop, product: Product)
    requires PriceAt(shop.catalogue, product.name) >= 0.0
    ensures PostedAmount(shop.model, shop.catalogue, product) <= ShownPrice(shop, product)
    ensures IsHabitualCustomer(shop) ==>
      ShownPrice(shop, product) == PostedAmount(shop.model, shop.catalogue, product) == CalculatePrice(product.category, PriceAt(shop.catalogue, product.name))
    ensures !IsHabitualCustomer(shop) ==> ShownPrice(shop, product) == PriceAt(shop.catalogue, product.name)
    ensures !IsHabitualCustomer(shop) && PriceAt(shop.catalogue, product.name) > 0.0 && product.category.General? ==>
      PostedAmount(shop.model, shop.catalogue, product) < ShownPrice(shop, product)
  {
    var p := PriceAt(shop.catalogue, product.name);
    if IsHabitualCustomer(shop) {
      NoDiscountWithoutSponsorMatch(shop.model, p, product);
    } else if p > 0.0 && product.category.General? {
      assert CalculatePrice(product.category, p) < p;
    }
  }

  // ---------------------------------------------------------------------------
  // The cart view and the checkout of `showUserCart`

  function Sum(xs: seq<real>): real
  {
    if xs == [] then 0.0 else Sum(xs[..|xs| - 1]) + xs[|xs| - 1]
  }

  /** The prices the cart view shows, in cart order: lines whose product does not
      resolve are skipped; a line whose product resolves but whose shop does not
      ends the view with a NullPointerException (None). */
  function ViewPrices(lines: seq<CartLine>, ps: seq<Product>, ss: seq<Shop>): Option<seq<real>>
    reads ss
  {
    if lines == [] then Some([])
    else
      var prev := ViewPrices(lines[..|lines| - 1], ps, ss);
      var line := lines[|lines| - 1];
      var product := Lookup(ps, line.productName);
      var shop := FindIn(ss, line.shopName);
      if prev.None? then None
      else if product == null then prev
      else if shop == null then None
      else Some(prev.value + [ShownPrice(shop, product)])
  }

  lemma ViewStep(lines: seq<CartLine>, i: nat, ps: seq<Product>, ss: seq<Shop>)
    requires i < |lines|
    ensures ViewPrices(lines[..i + 1], ps, ss) ==
      var prev := ViewPrices(lines[..i], ps, ss);
      var product := Lookup(ps, lines[i].productName);
      var shop := FindIn(ss, lines[i].shopName);
      if prev.None? then None
      else if product == null then prev
      else if shop == null then None
      else Some(prev.value + [ShownPrice(shop, product)])
  {
    assert lines[..i + 1][..i] == lines[..i];
  }

  /** Once the view has failed on a prefix of the cart, it fails on the whole cart. */
  lemma {:induction false} ViewFailurePersists(lines: seq<CartLine>, i: nat, ps: seq<Product>, ss: seq<Shop>)
    requires i <= |lines| && ViewPrices(lines[..i], ps, ss).None?
    ensures ViewPrices(lines, ps, ss).None?
    decreases |lines| - i
  {
    if i < |lines| {
      ViewStep(lines, i, ps, ss);
      ViewFailurePersists(lines, i + 1, ps, ss);
    } else {
      assert lines[..i] == lines;
    }
  }

  /** A cart whose lines all resolve shows one price per line. */
  lemma {:induction false} ViewLength(lines: seq<CartLine>, ps: seq<Product>, ss: seq<Shop>)
    requires forall j :: 0 <= j < |lines| ==> Lookup(ps, lines[j].productName) != null && FindIn(ss, lines[j].shopName) != null
    ensures ViewPrices(lines, ps, ss).Some? && |ViewPrices(lines, ps, ss).value| == |lines|
  {
    if lines != [] {
      ViewLength(lines[..|lines| - 1], ps, ss);
    }
  }

  /** What checkout posts over a cart to shop `s`, whose model and catalogue are
      `m` and `c`: the posted amount of every line whose product resolves and whose
      shop name resolves to that very shop. */
  function PostedTo(lines: seq<CartLine>, ps: seq<Product>, ss: seq<Shop>, s: Shop, m: Model, c: seq<CatalogueEntry>): real
  {
    if lines == [] then 0.0
    else
      var line := lines[|lines| - 1];
      var product := Lookup(ps, line.productName);
      PostedTo(lines[..|lines| - 1], ps, ss, s, m, c)
        + (if product != null && FindIn(ss, line.shopName) == s then PostedAmount(m, c, product) else 0.0)
  }

  /** A shop no resolving line names gets nothing. */
  lemma {:induction false} PostedToOthersIsZero(lines: seq<CartLine>, ps: seq<Product>, ss: seq<Shop>, s: Shop, m: Model, c: seq<CatalogueEntry>)
    requires forall j :: 0 <= j < |lines| ==> Lookup(ps, lines[j].productName) == null || FindIn(ss, lines[j].shopName) != s
    ensures PostedTo(lines, ps, ss, s, m, c) == 0.0
  {
    if lines != [] {
      PostedToOthersIsZero(lines[..|lines| - 1], ps, ss, s, m, c);
    }
  }

  /** The shop names checkout collects as keys of its per-shop totals: those of the
      lines whose product and shop both resolve. */
  function PostedShopNames(lines: seq<CartLine>, ps: seq<Product>, ss: seq<Shop>): set<string>
  {
    if lines == [] then {}
    else
      var line := lines[|lines| - 1];
      PostedShopNames(lines[..|lines| - 1], ps, ss) +
        (if Lookup(ps, line.productName) != null && FindIn(ss, line.shopName) != null then {line.shopName} else {})
  }

  /** A one-line cart posts the line's amount to the shop its name resolves to. */
  lemma PostedToSingle(line: CartLine, ps: seq<Product>, ss: seq<Shop>, s: Shop, m: Model, c: seq<CatalogueEntry>)
    ensures PostedTo([line], ps, ss, s, m, c) ==
      if Lookup(ps, line.productName) != null && FindIn(ss, line.shopName) == s
      then PostedAmount(m, c, Lookup(ps, line.productName)) else 0.0
  {
    assert [line][..0] == [];
  }

  /** Extending a cart by one line adds what that line alone posts. */
  lemma PostedToStep(lines: seq<CartLine>, i: nat, ps: seq<Product>, ss: seq<Shop>, s: Shop, m: Model, c: seq<CatalogueEntry>)
    requires i < |lines|
    ensures PostedTo(lines[..i + 1], ps, ss, s, m, c) == PostedTo(lines[..i], ps, ss, s, m, c) + PostedTo([lines[i]], ps, ss, s, m, c)
  {
    assert lines[..i + 1][..i] == lines[..i];
    assert [lines[i]][..0] == [];
  }

  lemma PostedShopNamesStep(lines: seq<CartLine>, i: nat, ps: seq<Product>, ss: seq<Shop>)
    requires i < |lines|
    ensures PostedShopNames(lines[..i + 1], ps, ss) ==
      if Lookup(ps, lines[i].productName) != null && FindIn(ss, lines[i].shopName) != null
      then PostedShopNames(lines[..i], ps, ss) + {lines[i].shopName}
      else PostedShopNames(lines[..i], ps, ss)
  {
    assert lines[..i + 1][..i] == lines[..i];
  }

  /** A name is collected exactly when some line carries it and resolves both its
      product and its shop. */
  lemma PostedShopNamesMembership(lines: seq<CartLine>, ps: seq<Product>, ss: seq<Shop>, k: string)
    ensures k in PostedShopNames(lines, ps, ss) <==>
      exists j :: 0 <= j < |lines| && lines[j].shopName == k &&
        Lookup(ps, lines[j].productName) != null && FindIn(ss, k) != null
  {
    if k in PostedShopNames(lines, ps, ss) {
      PostedShopNameHasLine(lines, ps, ss, k);
    } else if j :| 0 <= j < |lines| && lines[j].shopName == k && Lookup(ps, lines[j].productName) != null && FindIn(ss, k) != null {
      PostedLineHasName(lines, ps, ss, j);
    }
  }

  lemma {:induction false} PostedShopNameHasLine(lines: seq<CartLine>, ps: seq<Product>, ss: seq<Shop>, k: string)
    requires k in PostedShopNames(lines, ps, ss)
    ensures FindIn(ss, k) != null
    ensures exists j :: 0 <= j < |lines| && lines[j].shopName == k && Lookup(ps, lines[j].productName) != null
  {
    var init := lines[..|lines| - 1];
    if k in PostedShopNames(init, ps, ss) {
      PostedShopNameHasLine(init, ps, ss, k);
      var j :| 0 <= j < |init| && init[j].shopName == k && Lookup(ps, init[j].productName) != null;
      assert lines[j] == init[j];
    } else {
      assert lines[|lines| - 1].shopName == k;
    }
  }

  lemma {:induction false} PostedLineHasName(lines: seq<CartLine>, ps: seq<Product>, ss: seq<Shop>, j: int)
    requires 0 <= j < |lines|
    requires Lookup(ps, lines[j].productName) != null && FindIn(ss, lines[j].shopName) != null
    ensures lines[j].shopName in PostedShopNames(lines, ps, ss)
  {
    var init := lines[..|lines| - 1];
    if j < |init| {
      assert init[j] == lines[j];
      PostedLineHasName(init, ps, ss, j);
    }
  }

  /** Every collected name resolves to a shop of the list. */
  lemma {:induction false} PostedShopNamesResolve(lines: seq<CartLine>, ps: seq<Product>, ss: seq<Shop>)
    ensures forall k :: k in PostedShopNames(lines, ps, ss) ==> FindIn(ss, k) != null
  {
    if lines != [] {
      PostedShopNamesResolve(lines[..|lines| - 1], ps, ss);
    }
  }

  /** `Controller`: the two registries and the cart (the list `CartManager` holds). */
  class Controller {
    const productManager: ProductManager
    const shopManager: ShopManager
    var cart: seq<CartLine>

    constructor (productManager: ProductManager, shopManager: ShopManager)
      ensures this.productManager == productManager && this.shopManager == shopManager
      ensures cart == []
    {
      this.productManager := productManager;
      this.shopManager := shopManager;
      cart := [];
    }

    /** `convertBrand`: None where the source throws. */
    method ConvertBrand(brand: string) returns (r: Option<string>)
      ensures r == ConvertBrandOf(brand)
    {
      var correctBrand: string := "";
      var words := JavaSplit(ToLower(brand));
      for i := 0 to |words|
        invariant Fold(Some(""), words[..i]) == Some(correctBrand)
      {
        assert words[..i + 1] == words[..i] + [words[i]];
        FoldSnoc(Some(""), words[..i], words[i]);
        var next := AppendWord(correctBrand, words[i]);
        if next.None? {
          // setLength(-1) throws; the words after this one cannot revive the result
          NoneStaysNone(words[i + 1..]);
          FoldAppend(Some(""), words[..i + 1], words[i + 1..]);
          assert words[..i + 1] + words[i + 1..] == words;
          return None;
        }
        correctBrand := next.value;
      }
      assert words[..|words|] == words;
      r := Some(correctBrand);
    }

    /** One pass of `convertBrand`'s loop on the builder's contents: a non-empty
        word is appended capitalised, after a space when the builder is not empty,
        and with a trailing space; then the last character is cut, which throws
        (None) on an empty builder. */
    method AppendWord(correctBrand: string, word: string) returns (next: Option<string>)
      ensures next == Step(Some(correctBrand), word)
    {
      var builder := correctBrand;
      if |word| > 0 {
        if |builder| > 0 {
          builder := builder + " ";
        }
        var initial := ToUpperChar(word[0]);
        builder := builder + [initial] + word[1..] + " ";
        assert builder == Step(Some(correctBrand), word).value + " ";
      }
      if |builder| == 0 {
        return None;
      }
      next := Some(builder[..|builder| - 1]);
    }

    /** `countStars`. */
    method CountStars(star: string) returns (count: int)
      ensures count == Stars(star)
      ensures count == -1 || count == |star|
    {
      count := 0;
      for i := 0 to |star|
        invariant count == i && forall j :: 0 <= j < i ==> star[j] == '*'
      {
        if star[i] == '*' {
          count := count + 1;
        } else {
          return -1;
        }
      }
    }

    /** `calculateAverageRating`. */
    method CalculateAverageRating(reviews: seq<Review>) returns (average: real)
      ensures average == AverageRating(reviews)
      ensures reviews != [] && (forall i :: 0 <= i < |reviews| ==> 1 <= reviews[i].rating <= 5) ==> 1.0 <= average <= 5.0
    {
      if |reviews| == 0 {
        return 0.0;
      }
      var total := 0;
      for i := 0 to |reviews|
        invariant total == RatingTotal(reviews[..i])
      {
        assert reviews[..i + 1][..i] == reviews[..i];
        total := total + reviews[i].rating;
      }
      assert reviews[..|reviews|] == reviews;
      var mean := total as real / |reviews| as real;
      average := ((mean * 100.0 + 0.5).Floor as real) / 100.0;
      if forall i :: 0 <= i < |reviews| ==> 1 <= reviews[i].rating <= 5 {
        AverageInStarRange(reviews);
      }
    }

    /** `getPriceProduct`: the price of the last matching catalogue entry, or 0.0. */
    method GetPriceProduct(shop: Shop, product: Product) returns (priceShop: real)
      ensures priceShop == PriceAt(shop.catalogue, product.name)
    {
      priceShop := 0.0;
      var catalogue := shop.catalogue;
      for i := 0 to |catalogue|
        invariant priceShop == PriceAt(catalogue[..i], product.name)
      {
        assert catalogue[..i + 1][..i] == catalogue[..i];
        if EqualsIgnoreCase(catalogue[i].productName, product.name) {
          priceShop := catalogue[i].priceAtShop;
        }
      }
      assert catalogue[..|catalogue|] == catalogue;
    }

    /** `emptyCart`. */
    method EmptyCart()
      modifies this`cart
      ensures cart == []
    {
      if cart != [] {
        cart := [];
      }
    }

    /** One line of the cart view: the line's product and shop as the registries
        resolve them, and, when both resolve, the price shown for it. */
    method ShownLine(line: CartLine, loadedProducts: seq<Product>, loadedShops: seq<Shop>)
      returns (product: Product?, shop: Shop?, priceForCalculation: real)
      ensures product == Lookup(productManager.Source(loadedProducts), line.productName)
      ensures shop == FindIn(shopManager.Source(loadedShops), line.shopName)
      ensures product != null && shop != null ==> priceForCalculation == ShownPrice(shop, product)
    {
      product := productManager.GetProductByName(line.productName, loadedProducts);
      shop := shopManager.FindShopByName(line.shopName, loadedShops);
      priceForCalculation := 0.0;
      if product != null && shop != null {
        var priceAtShop := GetPriceProduct(shop, product);
        priceForCalculation := priceAtShop;
        if IsHabitualCustomer(shop) {
          priceForCalculation := CalculateDiscount(shop.model, priceAtShop, product);
        }
      }
    }

    /** The listing part of `showUserCart`: the shown price of every line and their
        total; None where the listing throws on a shop that does not resolve. */
    method ShowCart(loadedProducts: seq<Product>, loadedShops: seq<Shop>) returns (shown: Option<seq<real>>, total: real)
      ensures shown == ViewPrices(cart, productManager.Source(loadedProducts), shopManager.Source(loadedShops))
      ensures shown.Some? ==> total == Sum(shown.value)
    {
      var lines := cart;
      ghost var ps := productManager.Source(loadedProducts);
      ghost var ss := shopManager.Source(loadedShops);
      var prices: seq<real> := [];
      total := 0.0;
      for i := 0 to |lines|
        invariant ViewPrices(lines[..i], ps, ss) == Some(prices)
        invariant total == Sum(prices)
      {
        ViewStep(lines, i, ps, ss);
        var product, shop, priceForCalculation := ShownLine(lines[i], loadedProducts, loadedShops);
        if product != null {
          if shop == null {
            ViewFailurePersists(lines, i + 1, ps, ss);
            return None, total;
          }
          total := total + priceForCalculation;
          assert (prices + [priceForCalculation])[..|prices|] == prices;
          prices := prices + [priceForCalculation];
        }
      }
      assert lines[..|lines|] == lines;
      shown := Some(prices);
    }

    /** One line of the posting loop: the line's shop when its product and shop both
        resolve (else null), and the discounted price it posts there. */
    method PricedLine(line: CartLine, loadedProducts: seq<Product>, loadedShops: seq<Shop>)
      returns (shop: Shop?, priceWithoutTax: real)
      ensures shop == (if Lookup(productManager.Source(loadedProducts), line.productName) == null then null
                       else FindIn(shopManager.Source(loadedShops), line.shopName))
      ensures shop != null ==>
        (shop in shopManager.Source(loadedShops) &&
         priceWithoutTax == PostedAmount(shop.model, shop.catalogue, Lookup(productManager.Source(loadedProducts), line.productName)))
    {
      var product := productManager.GetProductByName(line.productName, loadedProducts);
      shop := shopManager.FindShopByName(line.shopName, loadedShops);
      priceWithoutTax := 0.0;
      if product != null && shop != null {
        var priceAtShop := GetPriceProduct(shop, product);
        priceWithoutTax := CalculateDiscount(shop.model, priceAtShop, product);
      } else {
        shop := null;
      }
    }

    /** One pass of the posting loop: a line whose product and shop resolve adds
        its discounted price to that shop's earnings; no other shop changes. */
    method PostLine(line: CartLine, loadedProducts: seq<Product>, loadedShops: seq<Shop>) returns (shop: Shop?)
      modifies shopManager.Source(loadedShops)`earnings
      ensures shop == (if Lookup(productManager.Source(loadedProducts), line.productName) == null then null
                       else FindIn(shopManager.Source(loadedShops), line.shopName))
      ensures shop != null ==>
        shop.earnings == old(shop.earnings) + PostedAmount(shop.model, shop.catalogue, Lookup(productManager.Source(loadedProducts), line.productName))
      ensures forall s :: s in old(shopManager.Source(loadedShops)) && s != shop ==> s.earnings == old(s.earnings)
    {
      var priceWithoutTax;
      shop, priceWithoutTax := PricedLine(line, loadedProducts, loadedShops);
      if shop != null {
        shopManager.UpdateEarnings(shop, priceWithoutTax);
      }
    }

    /** The posting loop of the checkout: each line whose product and shop resolve
        adds its discounted price to that shop's earnings through `updateEarnings`;
        the answer is the set of shop names the per-shop totals are kept under. */
    method PostEarnings(lines: seq<CartLine>, loadedProducts: seq<Product>, loadedShops: seq<Shop>)
      returns (shopsPosted: set<string>)
      modifies shopManager.Source(loadedShops)`earnings
      ensures forall s :: s in shopManager.Source(loadedShops) ==>
        s.earnings == old(s.earnings) + PostedTo(lines, productManager.Source(loadedProducts), shopManager.Source(loadedShops), s, s.model, s.catalogue)
      ensures shopsPosted == PostedShopNames(lines, productManager.Source(loadedProducts), shopManager.Source(loadedShops))
    {
      ghost var ps := productManager.Source(loadedProducts);
      ghost var ss := shopManager.Source(loadedShops);
      shopsPosted := {};
      for i := 0 to |lines|
        invariant forall s :: s in ss ==> s.earnings == old(s.earnings) + PostedTo(lines[..i], ps, ss, s, s.model, s.catalogue)
        invariant shopsPosted == PostedShopNames(lines[..i], ps, ss)
        invariant ps == productManager.Source(loadedProducts) && ss == shopManager.Source(loadedShops)
      {
        label Top:
        PostedShopNamesStep(lines, i, ps, ss);
        var shop := PostLine(lines[i], loadedProducts, loadedShops);
        if shop != null {
          shopsPosted := shopsPosted + {lines[i].shopName};
        }
        forall s | s in ss
          ensures s.earnings == old(s.earnings) + PostedTo(lines[..i + 1], ps, ss, s, s.model, s.catalogue)
        {
          PostedToStep(lines, i, ps, ss, s, s.model, s.catalogue);
          PostedToSingle(lines[i], ps, ss, s, s.model, s.catalogue);
          if s != shop {
            assert s.earnings == old@Top(s.earnings);
          }
        }
      }
      assert lines[..|lines|] == lines;
    }

    /** One entry of the announcement loop: the shop the key resolves to, and
        whether the message is printed for it (the flag is still down and the shop
        is a loyalty shop whose earnings reached its threshold). */
    method RegularAt(key: string, ok: bool, loadedShops: seq<Shop>) returns (shop: Shop, announce: bool)
      requires FindIn(shopManager.Source(loadedShops), key) != null
      ensures shop == FindIn(shopManager.Source(loadedShops), key)
      ensures announce == (!ok && HabitualKey(shopManager.Source(loadedShops), key))
    {
      var found := shopManager.FindShopByName(key, loadedShops);
      shop := found;
      announce := shop.model.Loyalty? && !ok && shop.earnings >= shop.model.loyaltyThreshold;
    }

    method AnnounceRegulars(shopsPosted: set<string>, loadedShops: seq<Shop>) returns (regulars: seq<Shop>)
      requires forall k :: k in shopsPosted ==> FindIn(shopManager.Source(loadedShops), k) != null
      ensures |regulars| <= 1
      ensures regulars != [] ==>
        (regulars[0] in shopManager.Source(loadedShops) && IsHabitualCustomer(regulars[0]) &&
         exists k :: k in shopsPosted && FindIn(shopManager.Source(loadedShops), k) == regulars[0])
      ensures regulars == [] ==> forall k :: k in shopsPosted ==> !HabitualKey(shopManager.Source(loadedShops), k)
    {
      ghost var ss := shopManager.Source(loadedShops);
      var ok := false;
      regulars := [];
      var remaining := shopsPosted;
      ghost var visited: set<string> := {};
      ghost var regularKey := "";
      while remaining != {}
        invariant remaining <= shopsPosted && visited <= shopsPosted
        invariant forall k :: k in shopsPosted ==> k in remaining || k in visited
        invariant |regulars| <= 1 && (ok <==> regulars != [])
        invariant ok ==> regularKey in shopsPosted && FindIn(ss, regularKey) == regulars[0] && IsHabitualCustomer(regulars[0])
        invariant !ok ==> forall k :: k in visited ==> !HabitualKey(ss, k)
        decreases remaining
      {
        var key :| key in remaining;
        var shop, announce := RegularAt(key, ok, loadedShops);
        if announce {
          ok := true;
          regulars := regulars + [shop];
          regularKey := key;
        }
        remaining := remaining - {key};
        visited := visited + {key};
      }
    }

    /** The checkout of `showUserCart`. On an answer equal to "YES" ignoring case,
        every line whose product and shop resolve posts its discounted price to that
        shop's earnings, the "now a regular" message names at most one loyalty shop
        habitual after the postings, and the cart is emptied; any other answer
        changes nothing. */
    method Checkout(answer: string, loadedProducts: seq<Product>, loadedShops: seq<Shop>) returns (regulars: seq<Shop>)
      modifies this`cart, shopManager.Source(loadedShops)`earnings
      ensures !EqualsIgnoreCase(answer, "YES") ==>
        (cart == old(cart) && regulars == [] &&
         forall s :: s in shopManager.Source(loadedShops) ==> s.earnings == old(s.earnings))
      ensures EqualsIgnoreCase(answer, "YES") ==>
        (cart == [] &&
         forall s :: s in shopManager.Source(loadedShops) ==>
           s.earnings == old(s.earnings) + PostedTo(old(cart), productManager.Source(loadedProducts), shopManager.Source(loadedShops), s, old(s.model), old(s.catalogue)))
      ensures |regulars| <= 1
      ensures regulars != [] ==>
        regulars[0] in shopManager.Source(loadedShops) && IsHabitualCustomer(regulars[0]) &&
        exists k :: k in PostedShopNames(old(cart), productManager.Source(loadedProducts), shopManager.Source(loadedShops))
          && FindIn(shopManager.Source(loadedShops), k) == regulars[0]
      ensures EqualsIgnoreCase(answer, "YES") && regulars == [] ==>
        forall k :: k in PostedShopNames(old(cart), productManager.Source(loadedProducts), shopManager.Source(loadedShops))
          ==> !HabitualKey(shopManager.Source(loadedShops), k)
    {
      regulars := [];
      if EqualsIgnoreCase(answer, "YES") {
        var shopsPosted := PostEarnings(cart, loadedProducts, loadedShops);
        PostedShopNamesResolve(old(cart), productManager.Source(loadedProducts), shopManager.Source(loadedShops));
        regulars := AnnounceRegulars(shopsPosted, loadedShops);
        cart := [];
      }
    }
  }
}
