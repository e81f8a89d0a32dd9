/**
 * The product document of backend/models/Product.js: the category enum, the
 * `oldPrice` rule, the slug derived from the name, the pre-save
 * normalisation (slug, incoherent `oldPrice`, at most ten images), the
 * virtuals `discountPercentage`, `isInStock` and `primaryImage`, and the
 * methods `updateStock`, `incrementViews`, `addToCartCount` and
 * `incrementPurchased`.
 *
 * As for orders, the pure layer (`ProductState`, `Normalized`) states what a
 * save computes and `class Product` is proved to compute it. Whether the
 * name was modified since the last save is a parameter.
 */
module Products {
  import opened Wrappers
  import opened Numeric
  import opened Text

  datatype Category = Salon | Chambre | Cuisine | Gigogne

  function CategoryName(c: Category): string
  {
    match c
    case Salon => "salon"
    case Chambre => "chambre"
    case Cuisine => "cuisine"
    case Gigogne => "gigogne"
  }

  /** The `category` field: lower-cased by the schema, then checked against the enum. */
  function ParseCategory(input: string): (r: Option<Category>)
    ensures r.Some? ==> CategoryName(r.value) == Lowered(input)
    ensures forall c: Category :: CategoryName(c) == Lowered(input) ==> r == Some(c)
  {
    var name := Lowered(input);
    if name == "salon" then Some(Salon)
    else if name == "chambre" then Some(Chambre)
    else if name == "cuisine" then Some(Cuisine)
    else if name == "gigogne" then Some(Gigogne)
    else None
  }

  datatype Image = Image(url: string, alt: string, isPrimary: bool)

  /** The fields the pre-save step and the methods read or write. An empty
      `slug` is the unset one; `oldPrice` is unset when `None`. */
  datatype ProductState = ProductState(
    name: string,
    category: Category,
    price: real,
    oldPrice: Option<real>,
    images: seq<Image>,
    stock: int,
    slug: string,
    views: int,
    addedToCart: int,
    purchased: int)

  // ---------------------------------------------------------------------
  // Case folding: toLowerCase() followed by normalize('NFD'), for ASCII and
  // the Latin-1 supplement

  /** `toLowerCase` on one character of ASCII or Latin-1. */
  function LowerChar(c: char): char
  {
    if 'A' <= c <= 'Z' || ('\U{C0}' <= c <= '\U{DE}' && c != '\U{D7}') then (c as int + 32) as char else c
  }

  function Lowered(s: string): (r: string)
    ensures |r| == |s| && forall k :: 0 <= k < |s| ==> r[k] == LowerChar(s[k])
  {
    if s == [] then [] else [LowerChar(s[0])] + Lowered(s[1..])
  }

  /** The canonical decomposition of the lower-case Latin-1 letters that carry
      a diacritic: the base letter followed by its combining mark. */
  function Decomposed(c: char): seq<char>
  {
    if c == '\U{E0}' then "a\U{300}"
    else if c == '\U{E1}' then "a\U{301}"
    else if c == '\U{E2}' then "a\U{302}"
    else if c == '\U{E3}' then "a\U{303}"
    else if c == '\U{E4}' then "a\U{308}"
    else if c == '\U{E5}' then "a\U{30A}"
    else if c == '\U{E7}' then "c\U{327}"
    else if c == '\U{E8}' then "e\U{300}"
    else if c == '\U{E9}' then "e\U{301}"
    else if c == '\U{EA}' then "e\U{302}"
    else if c == '\U{EB}' then "e\U{308}"
    else if c == '\U{EC}' then "i\U{300}"
    else if c == '\U{ED}' then "i\U{301}"
    else if c == '\U{EE}' then "i\U{302}"
    else if c == '\U{EF}' then "i\U{308}"
    else if c == '\U{F1}' then "n\U{303}"
    else if c == '\U{F2}' then "o\U{300}"
    else if c == '\U{F3}' then "o\U{301}"
    else if c == '\U{F4}' then "o\U{302}"
    else if c == '\U{F5}' then "o\U{303}"
    else if c == '\U{F6}' then "o\U{308}"
    else if c == '\U{F9}' then "u\U{300}"
    else if c == '\U{FA}' then "u\U{301}"
    else if c == '\U{FB}' then "u\U{302}"
    else if c == '\U{FC}' then "u\U{308}"
    else if c == '\U{FD}' then "y\U{301}"
    else if c == '\U{FF}' then "y\U{308}"
    else [c]
  }

  /** `s.toLowerCase().normalize('NFD')`. */
  function Folded(s: string): string
  {
    if s == [] then [] else Decomposed(LowerChar(s[0])) + Folded(s[1..])
  }

  // ---------------------------------------------------------------------
  // The slug pipeline

  /** The combining diacritical marks, U+0300 to U+036F. */
  predicate IsCombiningMark(c: char)
  {
    '\U{300}' <= c <= '\U{36F}'
  }

  /** The characters a slug may contain: [a-z0-9-]. */
  predicate IsSlugChar(c: char)
  {
    ('a' <= c <= 'z') || ('0' <= c <= '9') || c == '-'
  }

  predicate AllSlugChars(s: string)
  {
    forall k :: 0 <= k < |s| ==> IsSlugChar(s[k])
  }

  predicate NoDoubleHyphen(s: string)
  {
    forall k :: 0 <= k < |s| - 1 ==> s[k] == '-' ==> s[k + 1] != '-'
  }

  /** What the pipeline produces: slug characters only, no "--", and no '-'
      at either end. */
  predicate IsCleanSlug(s: string)
  {
    AllSlugChars(s) && NoDoubleHyphen(s) && (s == [] || (s[0] != '-' && s[|s| - 1] != '-'))
  }

  predicate NoMarks(s: string)
  {
    forall k :: 0 <= k < |s| ==> !IsCombiningMark(s[k])
  }

  predicate SlugCharsOrSpaces(s: string)
  {
    forall k :: 0 <= k < |s| ==> IsSlugChar(s[k]) || IsJsSpace(s[k])
  }

  predicate NoSpaces(s: string)
  {
    forall k :: 0 <= k < |s| ==> !IsJsSpace(s[k])
  }

  /** .replace(/[\u0300-\u036f]/g, '') */
  function StripMarks(s: string): string
  {
    if s == [] then []
    else if IsCombiningMark(s[0]) then StripMarks(s[1..])
    else [s[0]] + StripMarks(s[1..])
  }

  /** .replace(/[^a-z0-9\s-]/g, '') */
  function KeepSlugChars(s: string): string
  {
    if s == [] then []
    else if IsSlugChar(s[0]) || IsJsSpace(s[0]) then [s[0]] + KeepSlugChars(s[1..])
    else KeepSlugChars(s[1..])
  }

  /** .replace(/\s+/g, '-'): every maximal run of white space becomes one '-'.
      `afterSpace` says the character before `s` was white space. */
  function SpacesToHyphens(s: string, afterSpace: bool): string
  {
    if s == [] then []
    else if IsJsSpace(s[0]) then (if afterSpace then [] else "-") + SpacesToHyphens(s[1..], true)
    else [s[0]] + SpacesToHyphens(s[1..], false)
  }

  /** .replace(/-+/g, '-'): every maximal run of '-' becomes one '-'.
      `afterHyphen` says the character before `s` was the '-' kept for its run. */
  function CollapseHyphens(s: string, afterHyphen: bool): string
  {
    if s == [] then []
    else if s[0] == '-' then
      var rest := CollapseHyphens(s[1..], true);
      if afterHyphen then rest else "-" + rest
    else [s[0]] + CollapseHyphens(s[1..], false)
  }

  /** .replace(/^-|-$/g, ''): one '-' removed at the start and one at the end. */
  function TrimHyphens(s: string): string
  {
    var t := if s != [] && s[0] == '-' then s[1..] else s;
    if t != [] && t[|t| - 1] == '-' then t[..|t| - 1] else t
  }

  /** The slug the pre-save step derives from a product name. */
  function Slugify(name: string): string
  {
    TrimHyphens(CollapseHyphens(SpacesToHyphens(KeepSlugChars(StripMarks(Folded(name))), false), false))
  }

  /** Stripping removes every combining mark and nothing else. */
  lemma {:induction false} StripMarksSpec(s: string)
    ensures NoMarks(StripMarks(s))
    ensures NoMarks(s) ==> StripMarks(s) == s
    decreases |s|
  {
    if s != [] {
      StripMarksSpec(s[1..]);
    }
  }

  /** Only slug characters and white space survive the filter; a string of
      those is left as it is. */
  lemma {:induction false} KeepSlugCharsSpec(s: string)
    ensures SlugCharsOrSpaces(KeepSlugChars(s))
    ensures SlugCharsOrSpaces(s) ==> KeepSlugChars(s) == s
    decreases |s|
  {
    if s != [] {
      KeepSlugCharsSpec(s[1..]);
    }
  }

  /** Once white space is replaced, only slug characters remain; a string
      without white space is left as it is. */
  lemma {:induction false} SpacesToHyphensSpec(s: string, afterSpace: bool)
    ensures SlugCharsOrSpaces(s) ==> AllSlugChars(SpacesToHyphens(s, afterSpace))
    ensures NoSpaces(s) ==> SpacesToHyphens(s, afterSpace) == s
    decreases |s|
  {
    if s != [] {
      SpacesToHyphensSpec(s[1..], true);
      SpacesToHyphensSpec(s[1..], false);
    }
  }

  /** After collapsing there is no "--" (and no leading '-' right after a kept
      one), and slug characters stay slug characters. */
  lemma {:induction false} CollapseHyphensSpec(s: string, afterHyphen: bool)
    ensures NoDoubleHyphen(CollapseHyphens(s, afterHyphen))
    ensures afterHyphen && CollapseHyphens(s, afterHyphen) != [] ==> CollapseHyphens(s, afterHyphen)[0] != '-'
    ensures AllSlugChars(s) ==> AllSlugChars(CollapseHyphens(s, afterHyphen))
    decreases |s|
  {
    if s != [] {
      CollapseHyphensSpec(s[1..], true);
      CollapseHyphensSpec(s[1..], false);
    }
  }

  /** A string already without "--" comes out of the collapsing step as it went in. */
  lemma {:induction false} CollapseHyphensFixed(s: string, afterHyphen: bool)
    requires NoDoubleHyphen(s) && (afterHyphen && s != [] ==> s[0] != '-')
    ensures CollapseHyphens(s, afterHyphen) == s
    decreases |s|
  {
    if s != [] {
      assert NoDoubleHyphen(s[1..]);
      CollapseHyphensFixed(s[1..], s[0] == '-');
    }
  }

  /** Trimming a string without "--" leaves no '-' at either end. */
  lemma TrimHyphensSpec(s: string)
    ensures AllSlugChars(s) ==> AllSlugChars(TrimHyphens(s))
    ensures NoDoubleHyphen(s) ==> NoDoubleHyphen(TrimHyphens(s))
    ensures NoDoubleHyphen(s) && TrimHyphens(s) != [] ==>
      TrimHyphens(s)[0] != '-' && TrimHyphens(s)[|TrimHyphens(s)| - 1] != '-'
    ensures IsCleanSlug(s) ==> TrimHyphens(s) == s
  {
  }

  /** Every slug is clean: [a-z0-9-] only, no "--", no '-' at either end. */
  lemma SlugifyIsClean(name: string)
    ensures IsCleanSlug(Slugify(name))
  {
    var kept := KeepSlugChars(StripMarks(Folded(name)));
    KeepSlugCharsSpec(StripMarks(Folded(name)));
    SpacesToHyphensSpec(kept, false);
    CollapseHyphensSpec(SpacesToHyphens(kept, false), false);
    TrimHyphensSpec(CollapseHyphens(SpacesToHyphens(kept, false), false));
  }

  /** Folding leaves slug characters and white space as they are. */
  lemma {:induction false} FoldedPlain(s: string)
    requires SlugCharsOrSpaces(s)
    ensures Folded(s) == s
    decreases |s|
  {
    if s != [] {
      PlainCharFolded(s[0]);
      FoldedPlain(s[1..]);
    }
  }

  lemma PlainCharFolded(c: char)
    requires IsSlugChar(c) || IsJsSpace(c)
    ensures Decomposed(LowerChar(c)) == [c]
  {
    assert LowerChar(c) == c;
  }

  /** A name already made of slug characters and white space only goes
      through the white-space and hyphen steps. */
  lemma PlainSlug(s: string)
    requires SlugCharsOrSpaces(s)
    ensures Slugify(s) == TrimHyphens(CollapseHyphens(SpacesToHyphens(s, false), false))
  {
    FoldedPlain(s);
    assert NoMarks(s);
    StripMarksSpec(s);
    KeepSlugCharsSpec(s);
  }

  /** A clean slug is its own slug. */
  lemma CleanSlugIsFixed(s: string)
    requires IsCleanSlug(s)
    ensures Slugify(s) == s
  {
    PlainSlug(s);
    SpacesToHyphensSpec(s, false);
    CollapseHyphensFixed(s, false);
    TrimHyphensSpec(s);
  }

  /** Running the pipeline on its own output returns it unchanged. */
  lemma SlugifyIdempotent(name: string)
    ensures Slugify(Slugify(name)) == Slugify(name)
  {
    SlugifyIsClean(name);
    CleanSlugIsFixed(Slugify(name));
  }

  /** Folding works character by character. */
  lemma {:induction false} FoldedConcat(a: string, b: string)
    ensures Folded(a + b) == Folded(a) + Folded(b)
    decreases |a|
  {
    if a != [] {
      assert (a + b)[1..] == a[1..] + b;
      FoldedConcat(a[1..], b);
    } else {
      assert a + b == b;
    }
  }

  /** Stripping marks works character by character. */
  lemma {:induction false} StripMarksConcat(a: string, b: string)
    ensures StripMarks(a + b) == StripMarks(a) + StripMarks(b)
    decreases |a|
  {
    if a != [] {
      assert (a + b)[1..] == a[1..] + b;
      StripMarksConcat(a[1..], b);
    } else {
      assert a + b == b;
    }
  }

  /** Folding and stripping marks act on each piece of a name separately. */
  lemma FoldStripConcat(a: string, b: string)
    ensures StripMarks(Folded(a + b)) == StripMarks(Folded(a)) + StripMarks(Folded(b))
  {
    FoldedConcat(a, b);
    StripMarksConcat(Folded(a), Folded(b));
  }

  /** Every entry of the decomposition table is a base letter a-z followed by
      a combining mark. */
  lemma DecomposedShape(c: char)
    ensures Decomposed(c) == [c] ||
      (|Decomposed(c)| == 2 && 'a' <= Decomposed(c)[0] <= 'z' && IsCombiningMark(Decomposed(c)[1]))
  {
  }

  /** An accented Latin-1 letter, upper- or lower-case, ends up as its base
      letter once folded and stripped ("\U{C9}" and "\U{E9}" both become "e"). */
  lemma AccentFoldsToBase(c: char)
    requires Decomposed(LowerChar(c)) != [LowerChar(c)]
    ensures StripMarks(Folded([c])) == [Decomposed(LowerChar(c))[0]]
    ensures 'a' <= Decomposed(LowerChar(c))[0] <= 'z'
  {
    var d := Decomposed(LowerChar(c));
    DecomposedShape(LowerChar(c));
    assert [c][1..] == [];
    assert Folded([c]) == d;
    assert d[1..] == [d[1]];
    assert [d[1]][1..] == [];
    assert StripMarks([d[1]]) == [];
    assert !IsCombiningMark(d[0]);
    assert StripMarks(d) == [d[0]] + StripMarks(d[1..]);
  }

  lemma AccentExamples()
    ensures StripMarks(Folded("\U{C9}")) == "e" && StripMarks(Folded("\U{E9}")) == "e"
    ensures StripMarks(Folded("\U{C7}")) == "c" && StripMarks(Folded("\U{FC}")) == "u"
  {
    assert Decomposed(LowerChar('\U{C9}')) == "e\U{301}";
    assert Decomposed(LowerChar('\U{C7}')) == "c\U{327}";
    assert Decomposed(LowerChar('\U{FC}')) == "u\U{308}";
    AccentFoldsToBase('\U{C9}');
    AccentFoldsToBase('\U{E9}');
    AccentFoldsToBase('\U{C7}');
    AccentFoldsToBase('\U{FC}');
  }

  /** A run of characters other than white space passes the white-space step unchanged. */
  lemma {:induction false} SpacesAfterWord(a: string, b: string, afterSpace: bool)
    requires a != [] && NoSpaces(a)
    ensures SpacesToHyphens(a + b, afterSpace) == a + SpacesToHyphens(b, false)
    decreases |a|
  {
    assert (a + b)[1..] == a[1..] + b;
    if |a| > 1 {
      SpacesAfterWord(a[1..], b, false);
    } else {
      assert a[1..] + b == b;
    }
  }

  /** A non-empty run of lower-case ASCII letters and digits. */
  predicate IsWord(w: string)
  {
    w != [] && forall k :: 0 <= k < |w| ==> ('a' <= w[k] <= 'z') || ('0' <= w[k] <= '9')
  }

  lemma SpacedWordsHyphens(w1: string, w2: string)
    requires IsWord(w1) && IsWord(w2)
    ensures SpacesToHyphens(w1 + " " + w2, false) == w1 + "-" + w2
  {
    assert w1 + " " + w2 == w1 + ([' '] + w2);
    SpacesAfterWord(w1, [' '] + w2, false);
    assert ([' '] + w2)[1..] == w2;
    SpacesToHyphensSpec(w2, true);
  }

  /** Two words separated by a space give the two words joined by a hyphen:
      "cafe elegant", the folded form of "Caf\U{E9} \U{C9}l\U{E9}gant" (see
      AccentFoldsToBase and FoldStripConcat), becomes "cafe-elegant". */
  lemma SpacedWordsSlug(w1: string, w2: string)
    requires IsWord(w1) && IsWord(w2)
    ensures Slugify(w1 + " " + w2) == w1 + "-" + w2
  {
    var s := w1 + " " + w2;
    assert SlugCharsOrSpaces(s);
    PlainSlug(s);
    SpacedWordsHyphens(w1, w2);
    var h := w1 + "-" + w2;
    assert IsCleanSlug(h);
    CollapseHyphensFixed(h, false);
    TrimHyphensSpec(h);
  }

  // ---------------------------------------------------------------------
  // Price coherence, image cap, virtuals

  /** The `oldPrice` validator: unset (or zero) or above the current price. */
  predicate OldPriceAccepted(price: real, oldPrice: Option<real>)
  {
    oldPrice.None? || oldPrice.value == 0.0 || oldPrice.value > price
  }

  /** The pre-save price check: a set `oldPrice` at or below the price is
      dropped; any other value is kept. */
  function CoherentOldPrice(price: real, oldPrice: Option<real>): (r: Option<real>)
    ensures OldPriceAccepted(price, r)
    ensures r == oldPrice || r == None
    ensures r == oldPrice <==> OldPriceAccepted(price, oldPrice)
  {
    if oldPrice.Some? && oldPrice.value != 0.0 && oldPrice.value <= price then None else oldPrice
  }

  const MaxImages: nat := 10

  /** The pre-save image cap: the first ten images, in order. */
  function CappedImages(images: seq<Image>): (r: seq<Image>)
    ensures |r| == if |images| > MaxImages then MaxImages else |images|
    ensures r == images[..|r|]
    ensures |images| <= MaxImages ==> r == images
  {
    if |images| > MaxImages then images[..MaxImages] else images
  }

  /** The `discountPercentage` virtual: the rounded percentage off the old price
      when the product is on sale, else zero. */
  function DiscountFor(price: real, oldPrice: Option<real>): (r: int)
    ensures !(oldPrice.Some? && oldPrice.value > price) ==> r == 0
    ensures oldPrice.Some? && oldPrice.value != 0.0 && oldPrice.value > price ==>
      var percent := (oldPrice.value - price) / oldPrice.value * 100.0;
      percent - 0.5 < r as real <= percent + 0.5
    ensures price >= 0.0 ==> 0 <= r <= 100
  {
    if oldPrice.Some? && oldPrice.value != 0.0 && oldPrice.value > price then
      var was := oldPrice.value;
      var fraction := (was - price) / was;
      assert price >= 0.0 ==> 0.0 < fraction <= 1.0 by {
        if price >= 0.0 {
          assert fraction * was == was - price;
        }
      }
      RoundHalfUp(fraction * 100.0)
    else 0
  }

  lemma DiscountExamples()
    ensures DiscountFor(75.0, Some(100.0)) == 25
    ensures DiscountFor(649.0, Some(999.0)) == 35
    ensures DiscountFor(100.0, Some(80.0)) == 0
    ensures DiscountFor(100.0, None) == 0
  {
    assert (100.0 - 75.0) / 100.0 * 100.0 == 25.0;
    var f := (999.0 - 649.0) / 999.0 * 100.0;
    assert 35.0 <= f < 35.5;
  }

  /** The `isInStock` virtual. */
  predicate InStock(stock: int)
  {
    stock > 0
  }

  /** The position of the first image flagged primary. */
  function FirstPrimary(images: seq<Image>): (r: Option<nat>)
    ensures r.Some? ==> r.value < |images| && images[r.value].isPrimary
    ensures r.Some? ==> forall j :: 0 <= j < r.value ==> !images[j].isPrimary
    ensures r.None? ==> forall j :: 0 <= j < |images| ==> !images[j].isPrimary
  {
    if images == [] then None
    else if images[0].isPrimary then Some(0)
    else match FirstPrimary(images[1..])
      case None => None
      case Some(i) => Some(i + 1)
  }

  /** The `primaryImage` virtual: the first primary image, else the first image. */
  function PrimaryOf(images: seq<Image>): (r: Option<Image>)
    ensures r.None? <==> images == []
    ensures (exists j :: 0 <= j < |images| && images[j].isPrimary) ==>
      r.Some? && r.value.isPrimary &&
      exists i :: 0 <= i < |images| && images[i] == r.value && forall j :: 0 <= j < i ==> !images[j].isPrimary
    ensures (forall j :: 0 <= j < |images| ==> !images[j].isPrimary) && images != [] ==> r == Some(images[0])
  {
    match FirstPrimary(images)
    case Some(i) => Some(images[i])
    case None => if images == [] then None else Some(images[0])
  }

  /** `updateStock(quantity)`: the stock moves by `quantity` but never below zero. */
  function StockAfter(stock: int, quantity: int): (r: int)
    ensures r >= 0
    ensures stock + quantity >= 0 ==> r == stock + quantity
    ensures stock + quantity < 0 ==> r == 0
  {
    if 0 > stock + quantity then 0 else stock + quantity
  }

  // ---------------------------------------------------------------------
  // The pre-save step

  /** The slug rule: derived only when the name was modified and no slug is set. */
  function DerivedSlug(slug: string, name: string, nameModified: bool): (r: string)
    ensures slug != [] ==> r == slug
    ensures !nameModified ==> r == slug
    ensures nameModified && slug == [] ==> r == Slugify(name)
  {
    if nameModified && slug == [] then Slugify(name) else slug
  }

  /** The product as the pre-save step leaves it. */
  function Normalized(p: ProductState, nameModified: bool): (r: ProductState)
    ensures r == p.(slug := r.slug, oldPrice := r.oldPrice, images := r.images)
    ensures r.slug == DerivedSlug(p.slug, p.name, nameModified)
    ensures OldPriceAccepted(r.price, r.oldPrice)
    ensures r.oldPrice == CoherentOldPrice(p.price, p.oldPrice)
    ensures |r.images| <= MaxImages && r.images == CappedImages(p.images)
  {
    p.(slug := DerivedSlug(p.slug, p.name, nameModified),
       oldPrice := CoherentOldPrice(p.price, p.oldPrice),
       images := CappedImages(p.images))
  }

  /** Saving twice in a row gives the same product as saving once. */
  lemma NormalizedIdempotent(p: ProductState, nameModified: bool)
    ensures Normalized(Normalized(p, nameModified), nameModified) == Normalized(p, nameModified)
  {
    var r := Normalized(p, nameModified);
    if nameModified && p.slug == [] {
      SlugifyIsClean(p.name);
      CleanSlugIsFixed(r.slug);
    }
  }

  /** The save inside a counter or stock method changes nothing else on a
      product that a previous save already normalised. */
  lemma NormalizedIgnoresCounters(p: ProductState, nameModified: bool, stock: int, views: int, addedToCart: int, purchased: int)
    requires Normalized(p, nameModified) == p
    ensures var q := p.(stock := stock, views := views, addedToCart := addedToCart, purchased := purchased);
      Normalized(q, nameModified) == q
  {
  }

  // ---------------------------------------------------------------------
  // The document as an object

  class Product {
    var name: string
    var category: Category
    var price: real
    var oldPrice: Option<real>
    var images: seq<Image>
    var stock: int
    var slug: string
    var views: int
    var addedToCart: int
    var purchased: int

    function State(): ProductState
      reads this
    {
      ProductState(name, category, price, oldPrice, images, stock, slug, views, addedToCart, purchased)
    }

    /** A new product with the schema's defaults: no slug yet, counters at zero. */
    constructor (name: string, category: Category, price: real, oldPrice: Option<real>,
                 images: seq<Image>, stock: int)
      ensures State() == ProductState(name, category, price, oldPrice, images, stock, [], 0, 0, 0)
    {
      this.name := name;
      this.category := category;
      this.price := price;
      this.oldPrice := oldPrice;
      this.images := images;
      this.stock := stock;
      this.slug := [];
      this.views := 0;
      this.addedToCart := 0;
      this.purchased := 0;
    }

    function DiscountPercentage(): (r: int)
      reads this
      ensures price >= 0.0 ==> 0 <= r <= 100
    {
      DiscountFor(price, oldPrice)
    }

    predicate IsInStock()
      reads this
    {
      InStock(stock)
    }

    function PrimaryImage(): (r: Option<Image>)
      reads this
      ensures r.None? <==> images == []
    {
      PrimaryOf(images)
    }

    /** The pre-save hook. */
    method PreSave(nameModified: bool)
      modifies this`slug, this`oldPrice, this`images
      ensures State() == Normalized(old(State()), nameModified)
    {
      if nameModified && slug == [] {
        slug := Slugify(name);
      }

      if oldPrice.Some? && oldPrice.value != 0.0 && oldPrice.value <= price {
        oldPrice := None;
      }

      if |images| > MaxImages {
        images := images[..MaxImages];
      }
    }

    method IncrementViews(nameModified: bool)
      modifies this`views, this`slug, this`oldPrice, this`images
      ensures State() == Normalized(old(State()).(views := old(views) + 1), nameModified)
    {
      views := views + 1;
      PreSave(nameModified);
    }

    method AddToCartCount(nameModified: bool)
      modifies this`addedToCart, this`slug, this`oldPrice, this`images
      ensures State() == Normalized(old(State()).(addedToCart := old(addedToCart) + 1), nameModified)
    {
      addedToCart := addedToCart + 1;
      PreSave(nameModified);
    }

    /** `incrementPurchased(quantity = 1)`. */
    method IncrementPurchased(quantity: int, nameModified: bool)
      modifies this`purchased, this`slug, this`oldPrice, this`images
      ensures State() == Normalized(old(State()).(purchased := old(purchased) + quantity), nameModified)
    {
      purchased := purchased + quantity;
      PreSave(nameModified);
    }

    method UpdateStock(quantity: int, nameModified: bool)
      modifies this`stock, this`slug, this`oldPrice, this`images
      ensures State() == Normalized(old(State()).(stock := StockAfter(old(stock), quantity)), nameModified)
      ensures stock >= 0
    {
      stock := if 0 > stock + quantity then 0 else stock + quantity;
      PreSave(nameModified);
    }
  }
}
