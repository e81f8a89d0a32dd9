/**
 * The storefront page of frontend/assets/js/app.js: the cart kept in the
 * page's global state (adding a product, removing a line, the article count
 * and the total), the category filter, the loading flag, and the checkout
 * that reads the customer's details from one comma-separated line, checks
 * them, and either posts the order or, once the page has fallen back to its
 * demonstration mode, confirms a simulated order.
 *
 * The pure layer states what each step computes; `class Shop` holds the
 * mutable state and is proved to follow it. The browser prompt, the server's
 * reply and the clock are parameters of the checkout.
 */
module Storefront {
  import opened Wrappers
  import opened Numeric
  import opened Text
  import Orders

  /** A cart line as the page stores it. */
  datatype CartLine = CartLine(id: string, name: string, price: real, quantity: int)

  /** A product as the page lists it; the filter reads only its category. */
  datatype CatalogProduct = CatalogProduct(id: string, name: string, price: real, category: string)

  // ---------------------------------------------------------------------
  // The cart

  function Quantities(cart: seq<CartLine>): (qs: seq<int>)
    ensures |qs| == |cart| && forall k :: 0 <= k < |cart| ==> qs[k] == cart[k].quantity
  {
    seq(|cart|, k requires 0 <= k < |cart| => cart[k].quantity)
  }

  /** What one line adds to the total: `item.price * item.quantity`. */
  function Amount(line: CartLine): real
  {
    line.price * line.quantity as real
  }

  function LineAmounts(cart: seq<CartLine>): (xs: seq<real>)
    ensures |xs| == |cart| && forall k :: 0 <= k < |cart| ==> xs[k] == Amount(cart[k])
  {
    seq(|cart|, k requires 0 <= k < |cart| => Amount(cart[k]))
  }

  /** The badge count computed by `updateCartUI`: the number of articles. */
  function CartCount(cart: seq<CartLine>): int
  {
    Total(Quantities(cart))
  }

  /** `calculateCartTotal`: price times quantity, summed over the lines. */
  function CartTotal(cart: seq<CartLine>): real
  {
    Sum(LineAmounts(cart))
  }

  /** Every line holds at least one article: true of the empty cart, and
      kept by `addToCart` and `removeFromCart` (`ItemAddedKeepsArticles`,
      `LineRemovedKeepsArticles`). */
  predicate EveryLineHoldsOne(cart: seq<CartLine>)
  {
    forall k :: 0 <= k < |cart| ==> cart[k].quantity >= 1
  }

  /** A cart in which every line holds an article counts at least one article per line. */
  lemma CartCountBounds(cart: seq<CartLine>)
    requires EveryLineHoldsOne(cart)
    ensures CartCount(cart) >= |cart|
    ensures cart == [] ==> CartCount(cart) == 0
  {
    TotalAtLeast(Quantities(cart), 1);
  }

  lemma CartTotalNonNegative(cart: seq<CartLine>)
    requires forall k :: 0 <= k < |cart| ==> cart[k].price >= 0.0 && cart[k].quantity >= 0
    ensures CartTotal(cart) >= 0.0
  {
    SumNonNegative(LineAmounts(cart));
  }

  predicate UniqueIds(cart: seq<CartLine>)
  {
    forall i, j :: 0 <= i < j < |cart| ==> cart[i].id != cart[j].id
  }

  /** `state.cart.find(item => item.id === productId)`, as a position. */
  function FindLine(cart: seq<CartLine>, id: string): (r: Option<nat>)
    ensures r.Some? ==> r.value < |cart| && cart[r.value].id == id
    ensures r.Some? ==> forall k :: 0 <= k < r.value ==> cart[k].id != id
    ensures r.None? ==> forall k :: 0 <= k < |cart| ==> cart[k].id != id
  {
    if cart == [] then None
    else if cart[0].id == id then Some(0)
    else match FindLine(cart[1..], id)
      case None => None
      case Some(i) => Some(i + 1)
  }

  /** `addToCart`: one more article on the line of that product, or a new
      line with one article; the name and price of an existing line stay. */
  function WithItemAdded(cart: seq<CartLine>, id: string, name: string, price: real): seq<CartLine>
  {
    match FindLine(cart, id)
    case Some(i) => cart[i := cart[i].(quantity := cart[i].quantity + 1)]
    case None => cart + [CartLine(id, name, price, 1)]
  }

  /** Adding a product changes exactly one line: the product's line, found
      by id, gains one article; every other line is as it was. */
  lemma ItemAddedLines(cart: seq<CartLine>, id: string, name: string, price: real)
    ensures var r := WithItemAdded(cart, id, name, price);
      match FindLine(cart, id)
      case Some(i) =>
        |r| == |cart| && r[i].quantity == cart[i].quantity + 1 &&
        r[i] == cart[i].(quantity := r[i].quantity) &&
        forall k :: 0 <= k < |cart| && k != i ==> r[k] == cart[k]
      case None =>
        |r| == |cart| + 1 && r[..|cart|] == cart && r[|cart|] == CartLine(id, name, price, 1)
    ensures FindLine(WithItemAdded(cart, id, name, price), id).Some?
  {
    var r := WithItemAdded(cart, id, name, price);
    match FindLine(cart, id)
    case Some(i) =>
      assert r[i].id == id;
    case None =>
      assert r[|cart|].id == id;
  }

  /** One more article on line `i` adds one to the count and that line's price to the total. */
  lemma IncrementedLineTotals(cart: seq<CartLine>, i: nat)
    requires i < |cart|
    ensures var r := cart[i := cart[i].(quantity := cart[i].quantity + 1)];
      CartCount(r) == CartCount(cart) + 1 && CartTotal(r) == CartTotal(cart) + cart[i].price
  {
    var line := cart[i].(quantity := cart[i].quantity + 1);
    LinesUpdated(cart, i, line);
    TotalUpdate(Quantities(cart), i, line.quantity);
    assert Amount(line) == Amount(cart[i]) + cart[i].price;
    SumUpdate(LineAmounts(cart), i, Amount(line));
  }

  /** Replacing one line replaces its quantity and its amount, and nothing else. */
  lemma LinesUpdated(cart: seq<CartLine>, i: nat, line: CartLine)
    requires i < |cart|
    ensures Quantities(cart[i := line]) == Quantities(cart)[i := line.quantity]
    ensures LineAmounts(cart[i := line]) == LineAmounts(cart)[i := Amount(line)]
  {
  }

  /** A new line adds its articles to the count and its amount to the total. */
  lemma AppendedLineTotals(cart: seq<CartLine>, line: CartLine)
    ensures CartCount(cart + [line]) == CartCount(cart) + line.quantity
    ensures CartTotal(cart + [line]) == CartTotal(cart) + Amount(line)
  {
    assert Quantities(cart + [line]) == Quantities(cart) + [line.quantity];
    TotalConcat(Quantities(cart), [line.quantity]);
    assert LineAmounts(cart + [line]) == LineAmounts(cart) + [Amount(line)];
    SumConcat(LineAmounts(cart), [Amount(line)]);
  }

  /** Adding a product adds one article to the count and that product's
      price (the price already on its line, if any) to the total. */
  lemma ItemAddedTotals(cart: seq<CartLine>, id: string, name: string, price: real)
    ensures CartCount(WithItemAdded(cart, id, name, price)) == CartCount(cart) + 1
    ensures CartTotal(WithItemAdded(cart, id, name, price)) ==
      CartTotal(cart) + (match FindLine(cart, id) case Some(i) => cart[i].price case None => price)
  {
    match FindLine(cart, id)
    case Some(i) =>
      IncrementedLineTotals(cart, i);
    case None =>
      AppendedLineTotals(cart, CartLine(id, name, price, 1));
  }

  /** A cart built only by `addToCart` never holds two lines for one product. */
  lemma ItemAddedKeepsIdsUnique(cart: seq<CartLine>, id: string, name: string, price: real)
    requires UniqueIds(cart)
    ensures UniqueIds(WithItemAdded(cart, id, name, price))
  {
  }

  /** A new line starts with one article and an existing one gains one. */
  lemma ItemAddedKeepsArticles(cart: seq<CartLine>, id: string, name: string, price: real)
    requires EveryLineHoldsOne(cart)
    ensures EveryLineHoldsOne(WithItemAdded(cart, id, name, price))
  {
  }

  /** The same product added twice to an empty cart: one line of two
      articles, worth twice the price. */
  lemma AddedTwice(id: string, name: string, price: real)
    ensures var r := WithItemAdded(WithItemAdded([], id, name, price), id, name, price);
      r == [CartLine(id, name, price, 2)] && CartCount(r) == 2 && CartTotal(r) == 2.0 * price
  {
    var once := WithItemAdded([], id, name, price);
    assert once == [CartLine(id, name, price, 1)];
    assert FindLine(once, id) == Some(0);
    var r := WithItemAdded(once, id, name, price);
    assert LineAmounts(r) == [Amount(r[0])];
    assert Quantities(r) == [2];
    assert Sum([Amount(r[0])]) == Sum([]) + Amount(r[0]);
    assert Total([2]) == Total([]) + 2;
  }

  /** `removeFromCart(index)`: the line at that position goes; a position
      outside the cart changes nothing. */
  function WithoutLine(cart: seq<CartLine>, index: int): seq<CartLine>
  {
    if 0 <= index < |cart| then cart[..index] + cart[index + 1..] else cart
  }

  /** Removing a line leaves lines that were already in the cart. */
  lemma LineRemovedKeepsArticles(cart: seq<CartLine>, index: int)
    requires EveryLineHoldsOne(cart)
    ensures EveryLineHoldsOne(WithoutLine(cart, index))
  {
  }

  /** Removing a line keeps the other lines in order and takes its articles
      and its amount off the count and the total. */
  lemma LineRemoved(cart: seq<CartLine>, index: int)
    requires 0 <= index < |cart|
    ensures var r := WithoutLine(cart, index);
      && |r| == |cart| - 1
      && (forall k :: 0 <= k < index ==> r[k] == cart[k])
      && (forall k :: index <= k < |r| ==> r[k] == cart[k + 1])
      && multiset(r) + multiset{cart[index]} == multiset(cart)
      && CartCount(r) == CartCount(cart) - cart[index].quantity
      && CartTotal(r) == CartTotal(cart) - Amount(cart[index])
  {
    assert WithoutLine(cart, index) == cart[..index] + cart[index + 1..];
    RemovedMultiset(cart, index);
    RemovedLineTotals(cart, index);
  }

  lemma RemovedLineTotals(cart: seq<CartLine>, index: nat)
    requires index < |cart|
    ensures var r := cart[..index] + cart[index + 1..];
      && CartCount(r) == CartCount(cart) - cart[index].quantity
      && CartTotal(r) == CartTotal(cart) - Amount(cart[index])
  {
    LinesRemoved(cart, index);
    TotalRemove(Quantities(cart), index);
    SumRemove(LineAmounts(cart), index);
  }

  /** Removing one line removes its quantity and its amount, and nothing else. */
  lemma LinesRemoved(cart: seq<CartLine>, index: nat)
    requires index < |cart|
    ensures Quantities(cart[..index] + cart[index + 1..])
      == Quantities(cart)[..index] + Quantities(cart)[index + 1..]
    ensures LineAmounts(cart[..index] + cart[index + 1..])
      == LineAmounts(cart)[..index] + LineAmounts(cart)[index + 1..]
  {
  }

  lemma LineRemovedOutOfRange(cart: seq<CartLine>, index: int)
    requires !(0 <= index < |cart|)
    ensures WithoutLine(cart, index) == cart
  {
  }

  // ---------------------------------------------------------------------
  // The category filter

  /** `filterProducts(category)`: every product for "all", otherwise the
      products of that category, in catalogue order. */
  function Filtered(products: seq<CatalogProduct>, category: string): (r: seq<CatalogProduct>)
    ensures category == "all" ==> r == products
    ensures category != "all" ==> forall k :: 0 <= k < |r| ==> r[k].category == category
    ensures forall p :: p in r ==> p in products
    ensures forall k :: 0 <= k < |products| && products[k].category == category ==> products[k] in r
    ensures |r| <= |products|
  {
    if category == "all" then products else Matching(products, category)
  }

  function Matching(products: seq<CatalogProduct>, category: string): (r: seq<CatalogProduct>)
    ensures forall k :: 0 <= k < |r| ==> r[k].category == category
    ensures forall p :: p in r ==> p in products
    ensures forall k :: 0 <= k < |products| && products[k].category == category ==> products[k] in r
    ensures |r| <= |products|
  {
    if products == [] then []
    else if products[0].category == category then [products[0]] + Matching(products[1..], category)
    else Matching(products[1..], category)
  }

  /** Filtering keeps the catalogue order: it works piece by piece. */
  lemma {:induction false} MatchingConcat(a: seq<CatalogProduct>, b: seq<CatalogProduct>, category: string)
    ensures Matching(a + b, category) == Matching(a, category) + Matching(b, category)
    decreases |a|
  {
    if a == [] {
      assert a + b == b;
    } else {
      assert (a + b)[1..] == a[1..] + b;
      MatchingConcat(a[1..], b, category);
    }
  }

  /** The properties every object literal inherits from `Object.prototype`.
      Looking one of them up in `categoryNames` finds a function or an
      object, which is truthy. */
  predicate IsInheritedName(name: string)
  {
    name in {"constructor", "hasOwnProperty", "isPrototypeOf", "propertyIsEnumerable",
             "toString", "toLocaleString", "valueOf", "__proto__",
             "__defineGetter__", "__defineSetter__", "__lookupGetter__", "__lookupSetter__"}
  }

  /** The label of the filter notification: `categoryNames[category] ||
      'Tous les produits'`. An inherited property's text is not modelled
      and reads as `None`. */
  function FilterLabel(category: string): (text: Option<string>)
    ensures text.None? <==> IsInheritedName(category)
    ensures text == Some("Tous les produits") <==>
      && category != "salon" && category != "chambre" && category != "cuisine" && category != "gigogne"
      && !IsInheritedName(category)
  {
    if category == "salon" then Some("Canap\U{E9}s-Lits")
    else if category == "chambre" then Some("Lits")
    else if category == "cuisine" then Some("Tables + 6 Chaises")
    else if category == "gigogne" then Some("Tables Gigognes")
    else if IsInheritedName(category) then None
    else Some("Tous les produits")
  }

  // ---------------------------------------------------------------------
  // Reading the customer's details

  datatype CustomerInfo = CustomerInfo(
    firstName: string,
    lastName: string,
    email: string,
    phone: string,
    street: string,
    city: string,
    postalCode: string)

  datatype CheckoutError = EmptyCart | MissingField | InvalidEmail

  /** The details in prompt order: first name, last name, e-mail, phone,
      street, city, postal code. */
  function Fields(c: CustomerInfo): seq<string>
  {
    [c.firstName, c.lastName, c.email, c.phone, c.street, c.city, c.postalCode]
  }

  /** The k-th comma-separated field, trimmed; a field past the end is
      `undefined` in the source, which the checks treat as they treat "". */
  function Field(parts: seq<string>, k: nat): string
  {
    if k < |parts| then Trim(parts[k]) else []
  }

  /** The destructuring `[firstName, ..., postalCode] = input.split(',').map(s => s.trim())`;
      fields past the seventh are ignored. */
  function Destructured(input: string): CustomerInfo
  {
    var parts := Split(input, ',');
    CustomerInfo(Field(parts, 0), Field(parts, 1), Field(parts, 2), Field(parts, 3),
                 Field(parts, 4), Field(parts, 5), Field(parts, 6))
  }

  /** No field is empty (nor missing). */
  predicate Complete(c: CustomerInfo)
  {
    && c.firstName != [] && c.lastName != [] && c.email != [] && c.phone != []
    && c.street != [] && c.city != [] && c.postalCode != []
  }

  /** A field as the checkout reads it: trimmed, and without a comma. */
  predicate CleanField(f: string)
  {
    NoEdgeSpace(f) && ',' !in f
  }

  predicate AllFieldsClean(c: CustomerInfo)
  {
    && CleanField(c.firstName) && CleanField(c.lastName) && CleanField(c.email) && CleanField(c.phone)
    && CleanField(c.street) && CleanField(c.city) && CleanField(c.postalCode)
  }

  lemma FieldClean(parts: seq<string>, k: nat)
    requires forall j :: 0 <= j < |parts| ==> ',' !in parts[j]
    ensures CleanField(Field(parts, k))
  {
  }

  /** Every field read from a line is trimmed and free of commas. */
  lemma DestructuredFieldsClean(input: string)
    ensures AllFieldsClean(Destructured(input))
  {
    var parts := Split(input, ',');
    FieldClean(parts, 0);
    FieldClean(parts, 1);
    FieldClean(parts, 2);
    FieldClean(parts, 3);
    FieldClean(parts, 4);
    FieldClean(parts, 5);
    FieldClean(parts, 6);
  }

  /** What an accepted line yields: seven non-empty fields, none with white
      space at its ends or a comma inside, and an e-mail the pattern accepts. */
  predicate WellFormed(c: CustomerInfo)
  {
    Complete(c) && AllFieldsClean(c) && IsEmail(c.email)
  }

  /** The two checks of `proceedToCheckout` on the prompt's line: a missing
      field first, then the e-mail pattern. */
  function ParseCustomer(input: string): (r: Result<CustomerInfo, CheckoutError>)
    ensures r == Failure(MissingField) <==> !Complete(Destructured(input))
    ensures r == Failure(InvalidEmail) <==> Complete(Destructured(input)) && !IsEmail(Destructured(input).email)
    ensures r.Success? ==> r.value == Destructured(input) && WellFormed(r.value)
    ensures r.Failure? ==> r.error != EmptyCart
  {
    var c := Destructured(input);
    if !Complete(c) then
      Failure(MissingField)
    else if !IsEmail(c.email) then
      Failure(InvalidEmail)
    else
      DestructuredFieldsClean(input);
      Success(c)
  }

  /** The line a customer types for these details, fields joined by commas. */
  function FormatCustomer(c: CustomerInfo): string
  {
    Join(Fields(c), ',')
  }

  /** Splitting a typed-in line at its commas gives back the seven fields. */
  lemma FormattedSplits(c: CustomerInfo)
    requires AllFieldsClean(c)
    ensures Split(FormatCustomer(c), ',') == Fields(c)
  {
    var parts := Fields(c);
    assert forall k :: 0 <= k < 7 ==> ',' !in parts[k];
    SplitJoin(parts, ',');
  }

  /** A line whose comma-separated parts are clean fields is read as those fields. */
  lemma DestructuredFromParts(line: string, c: CustomerInfo)
    requires AllFieldsClean(c) && Split(line, ',') == Fields(c)
    ensures Destructured(line) == c
  {
    var parts := Fields(c);
    var d := Destructured(line);
    assert d.firstName == c.firstName by { assert Field(parts, 0) == c.firstName; }
    assert d.lastName == c.lastName by { assert Field(parts, 1) == c.lastName; }
    assert d.email == c.email by { assert Field(parts, 2) == c.email; }
    assert d.phone == c.phone by { assert Field(parts, 3) == c.phone; }
    assert d.street == c.street by { assert Field(parts, 4) == c.street; }
    assert d.city == c.city by { assert Field(parts, 5) == c.city; }
    assert d.postalCode == c.postalCode by { assert Field(parts, 6) == c.postalCode; }
  }

  /** Every well-formed set of details can be typed in and is read back as
      it was. */
  lemma ParseFormatRoundTrip(c: CustomerInfo)
    requires WellFormed(c)
    ensures ParseCustomer(FormatCustomer(c)) == Success(c)
  {
    FormattedSplits(c);
    DestructuredFromParts(FormatCustomer(c), c);
    var r := ParseCustomer(FormatCustomer(c));
    assert r != Failure(MissingField) && r != Failure(InvalidEmail);
  }

  /** Details read from a line are read the same way once typed in again. */
  lemma ParsedIsStable(input: string)
    requires ParseCustomer(input).Success?
    ensures ParseCustomer(FormatCustomer(ParseCustomer(input).value)) == ParseCustomer(input)
  {
    ParseFormatRoundTrip(ParseCustomer(input).value);
  }

  // ---------------------------------------------------------------------
  // The same details against the order schema

  /** The customer block of the posted order as the order schema stores it;
      the page always sends the country "France". */
  function StoredCustomer(c: CustomerInfo): Orders.Customer
  {
    Orders.Customer(c.firstName, c.lastName, c.email, c.phone,
                    Orders.Address(c.street, c.city, c.postalCode, "France"))
  }

  /** Details the schema accepts also pass the page's checks: typed in, they
      are read back unchanged. */
  lemma SchemaValidIsAccepted(c: CustomerInfo)
    requires AllFieldsClean(c) && Orders.CustomerValid(StoredCustomer(c))
    ensures WellFormed(c)
    ensures ParseCustomer(FormatCustomer(c)) == Success(c)
  {
    ParseFormatRoundTrip(c);
  }

  /** For details the page accepts, the schema's verdict rests only on what
      the page does not check: the phone and postal-code patterns and the
      length bounds. */
  lemma AcceptedMeetsSchemaIff(input: string)
    requires ParseCustomer(input).Success?
    ensures var c := ParseCustomer(input).value;
      Orders.CustomerValid(StoredCustomer(c)) <==>
        && Orders.IsPhone(c.phone) && Orders.IsPostalCode(c.postalCode)
        && |c.firstName| <= 50 && |c.lastName| <= 50 && |c.street| <= 200 && |c.city| <= 100
  {
  }

  /** The page accepts a phone shorter than ten characters and a postal code
      of other than five characters, both of which the schema then refuses. */
  lemma AcceptedButRefused(c: CustomerInfo)
    requires WellFormed(c) && (|c.phone| < 10 || |c.postalCode| != 5)
    ensures ParseCustomer(FormatCustomer(c)) == Success(c)
    ensures !Orders.CustomerValid(StoredCustomer(c))
  {
    ParseFormatRoundTrip(c);
  }

  // ---------------------------------------------------------------------
  // The order request and the checkout

  datatype RequestItem = RequestItem(productId: string, name: string, quantity: int, price: real)

  /** The body posted to the orders endpoint. */
  datatype OrderRequest = OrderRequest(customer: CustomerInfo, country: string, items: seq<RequestItem>, paymentMethod: string)

  function ItemAmount(it: RequestItem): real
  {
    it.price * it.quantity as real
  }

  /** The amount of an order request: price times quantity over its items. */
  function RequestTotal(items: seq<RequestItem>): real
  {
    Sum(seq(|items|, k requires 0 <= k < |items| => ItemAmount(items[k])))
  }

  /** The number of articles in an order request. */
  function RequestCount(items: seq<RequestItem>): int
  {
    Total(seq(|items|, k requires 0 <= k < |items| => items[k].quantity))
  }

  function RequestItems(cart: seq<CartLine>): (items: seq<RequestItem>)
    ensures |items| == |cart|
    ensures forall k :: 0 <= k < |cart| ==>
      items[k] == RequestItem(cart[k].id, cart[k].name, cart[k].quantity, cart[k].price)
  {
    seq(|cart|, k requires 0 <= k < |cart| => RequestItem(cart[k].id, cart[k].name, cart[k].quantity, cart[k].price))
  }

  function BuildRequest(c: CustomerInfo, cart: seq<CartLine>): OrderRequest
  {
    OrderRequest(c, "France", RequestItems(cart), "card")
  }

  /** The request carries the cart unchanged: one item per line, and the same
      articles and amount as the cart shows. */
  lemma RequestMatchesCart(c: CustomerInfo, cart: seq<CartLine>)
    ensures var items := BuildRequest(c, cart).items;
      |items| == |cart| && RequestCount(items) == CartCount(cart) && RequestTotal(items) == CartTotal(cart)
  {
    var items := BuildRequest(c, cart).items;
    assert seq(|items|, k requires 0 <= k < |items| => items[k].quantity) == Quantities(cart);
    assert forall k :: 0 <= k < |items| ==> ItemAmount(items[k]) == Amount(cart[k]);
    assert seq(|items|, k requires 0 <= k < |items| => ItemAmount(items[k])) == LineAmounts(cart);
  }

  /** What the orders endpoint answers: the created order, a refusal with
      its message, or an error before any answer (a network failure, a reply
      that is not JSON) with that error's message. */
  datatype ServerReply =
    | Created(orderNumber: string, total: real, estimatedDelivery: int)
    | Refused(message: string)
    | Unreachable(message: string)

  datatype Confirmation = Confirmation(orderNumber: string, total: real, estimatedDelivery: int, isDemo: bool)

  datatype CheckoutOutcome =
    | Invalid(error: CheckoutError)
    | Dismissed
    | Confirmed(confirmation: Confirmation)
    | OrderFailed(message: string)

  const ThreeDaysMillis: int := 3 * 24 * 60 * 60 * 1000

  /** The simulated order number: "BA78-DEMO-" and the last six digits of the clock. */
  function DemoOrderNumber(now: nat): (r: string)
    ensures 11 <= |r| <= 16 && r[..10] == "BA78-DEMO-" && AllDigits(r[10..])
    ensures now >= 100000 ==> |r| == 16
    ensures DecimalValue(r[10..]) == now % Pow10(6)
  {
    var digits := LastChars(DecimalString(now), 6);
    LastDigitsValue(now, 6);
    DecimalStringLength(now, 5);
    var r := "BA78-DEMO-" + digits;
    assert r[10..] == digits;
    r
  }

  /** The order the demonstration mode confirms: the cart's total, delivery in three days. */
  function DemoConfirmation(cart: seq<CartLine>, now: nat): Confirmation
  {
    Confirmation(DemoOrderNumber(now), CartTotal(cart), now + ThreeDaysMillis, true)
  }

  /** The details the checkout goes on with, or why it stops first. */
  function Validated(cart: seq<CartLine>, input: Option<string>): Option<Result<CustomerInfo, CheckoutError>>
  {
    if cart == [] then Some(Failure(EmptyCart))
    else if input.None? || input.value == [] then None
    else Some(ParseCustomer(input.value))
  }

  /** The outcome once the details are accepted: the simulated order in
      demonstration mode, otherwise what the server's reply says. */
  function Placed(cart: seq<CartLine>, fallbackMode: bool, reply: ServerReply, now: nat): CheckoutOutcome
  {
    if fallbackMode then Confirmed(DemoConfirmation(cart, now))
    else match reply
      case Created(n, t, d) => Confirmed(Confirmation(n, t, d, false))
      case Refused(m) => OrderFailed(if m == [] then "Erreur lors de la commande" else m)
      case Unreachable(m) => OrderFailed(m)
  }

  /** The result of `proceedToCheckout`, given the line typed at the prompt
      (`None` when it was cancelled), the server's reply and the clock. */
  function CheckoutResult(cart: seq<CartLine>, input: Option<string>, fallbackMode: bool,
                          reply: ServerReply, now: nat): CheckoutOutcome
  {
    match Validated(cart, input)
    case None => Dismissed
    case Some(Failure(e)) => Invalid(e)
    case Some(Success(_)) => Placed(cart, fallbackMode, reply, now)
  }

  /** The request posted, if any: only valid details, outside the demonstration mode. */
  function SentRequest(cart: seq<CartLine>, input: Option<string>, fallbackMode: bool): Option<OrderRequest>
  {
    match Validated(cart, input)
    case Some(Success(c)) => if fallbackMode then None else Some(BuildRequest(c, cart))
    case _ => None
  }

  /** The checkout goes through only with a non-empty cart and well-formed
      details typed at the prompt, and posts nothing otherwise. */
  lemma CheckoutNeedsValidDetails(cart: seq<CartLine>, input: Option<string>, fallbackMode: bool,
                                  reply: ServerReply, now: nat)
    requires CheckoutResult(cart, input, fallbackMode, reply, now).Confirmed? ||
             SentRequest(cart, input, fallbackMode).Some?
    ensures cart != [] && input.Some? && ParseCustomer(input.value).Success?
    ensures WellFormed(ParseCustomer(input.value).value)
  {
  }

  /** An empty cart stops the checkout before the prompt, whatever is typed. */
  lemma EmptyCartRejected(input: Option<string>, fallbackMode: bool, reply: ServerReply, now: nat)
    ensures CheckoutResult([], input, fallbackMode, reply, now) == Invalid(EmptyCart)
    ensures SentRequest([], input, fallbackMode) == None
  {
  }

  /** In demonstration mode nothing is posted and the simulated order carries
      the cart's total; otherwise the confirmation is the server's order. */
  lemma CheckoutConfirmation(cart: seq<CartLine>, input: Option<string>, fallbackMode: bool,
                             reply: ServerReply, now: nat)
    requires CheckoutResult(cart, input, fallbackMode, reply, now).Confirmed?
    ensures var conf := CheckoutResult(cart, input, fallbackMode, reply, now).confirmation;
      && conf.isDemo == fallbackMode
      && (fallbackMode ==>
            && conf.total == CartTotal(cart)
            && conf.estimatedDelivery == now + ThreeDaysMillis
            && conf.orderNumber[..10] == "BA78-DEMO-"
            && SentRequest(cart, input, fallbackMode) == None)
      && (!fallbackMode ==>
            && reply.Created?
            && conf.orderNumber == reply.orderNumber
            && conf.total == reply.total
            && SentRequest(cart, input, fallbackMode) == Some(BuildRequest(ParseCustomer(input.value).value, cart)))
  {
  }

  // ---------------------------------------------------------------------
  // The page state

  /** The page's global `state` together with `CONFIG.FALLBACK_MODE`. */
  class Shop {
    var cart: seq<CartLine>
    var products: seq<CatalogProduct>
    var cartCount: int
    var isLoading: bool
    var fallbackMode: bool

    constructor ()
      ensures cart == [] && products == [] && cartCount == 0 && !isLoading && !fallbackMode
    {
      cart := [];
      products := [];
      cartCount := 0;
      isLoading := false;
      fallbackMode := false;
    }

    /** The badge shows the cart's article count. */
    predicate CountShown()
      reads this
    {
      cartCount == CartCount(cart)
    }

    method UpdateCartUI()
      modifies this`cartCount
      ensures CountShown()
    {
      cartCount := CartCount(cart);
    }

    function CalculateCartTotal(): real
      reads this
    {
      CartTotal(cart)
    }

    method AddToCart(id: string, name: string, price: real)
      modifies this`cart, this`cartCount
      ensures cart == WithItemAdded(old(cart), id, name, price)
      ensures CountShown() && cartCount == CartCount(old(cart)) + 1
    {
      match FindLine(cart, id) {
        case Some(i) =>
          cart := cart[i := cart[i].(quantity := cart[i].quantity + 1)];
        case None =>
          cart := cart + [CartLine(id, name, price, 1)];
      }
      ItemAddedTotals(old(cart), id, name, price);
      UpdateCartUI();
    }

    method RemoveFromCart(index: int)
      modifies this`cart, this`cartCount
      ensures cart == WithoutLine(old(cart), index)
      ensures 0 <= index < |old(cart)| ==> CountShown()
      ensures !(0 <= index < |old(cart)|) ==> cartCount == old(cartCount)
    {
      if 0 <= index < |cart| {
        cart := cart[..index] + cart[index + 1..];
        UpdateCartUI();
      }
    }

    method ShowLoading()
      modifies this`isLoading
      ensures isLoading
    {
      if isLoading {
        return;
      }
      isLoading := true;
    }

    method HideLoading()
      modifies this`isLoading
      ensures !isLoading
    {
      isLoading := false;
    }

    /** Confirming an order empties the cart. */
    method ShowSuccessOrder()
      modifies this`cart, this`cartCount
      ensures cart == [] && cartCount == 0 && CountShown()
    {
      cart := [];
      UpdateCartUI();
    }

    /** The part of `proceedToCheckout` after the checks: the loading flag
        around either the post to the orders endpoint or the simulated order. */
    method PlaceOrder(c: CustomerInfo, reply: ServerReply, now: nat)
      returns (outcome: CheckoutOutcome, sent: Option<OrderRequest>)
      modifies this`cart, this`cartCount, this`isLoading
      ensures outcome == Placed(old(cart), fallbackMode, reply, now)
      ensures sent == (if fallbackMode then None else Some(BuildRequest(c, old(cart))))
      ensures outcome.Confirmed? ==> cart == [] && cartCount == 0
      ensures !outcome.Confirmed? ==> cart == old(cart) && cartCount == old(cartCount)
      ensures !isLoading
    {
      var request := BuildRequest(c, cart);
      ShowLoading();
      if !fallbackMode {
        sent := Some(request);
        match reply {
          case Created(n, t, d) =>
            outcome := Confirmed(Confirmation(n, t, d, false));
            ShowSuccessOrder();
          case Refused(m) =>
            outcome := OrderFailed(if m == [] then "Erreur lors de la commande" else m);
          case Unreachable(m) =>
            outcome := OrderFailed(m);
        }
      } else {
        sent := None;
        outcome := Confirmed(DemoConfirmation(cart, now));
        ShowSuccessOrder();
      }
      HideLoading();
    }

    method ProceedToCheckout(input: Option<string>, reply: ServerReply, now: nat)
      returns (outcome: CheckoutOutcome, sent: Option<OrderRequest>)
      modifies this`cart, this`cartCount, this`isLoading
      ensures outcome == CheckoutResult(old(cart), input, fallbackMode, reply, now)
      ensures sent == SentRequest(old(cart), input, fallbackMode)
      ensures outcome.Confirmed? ==> cart == [] && cartCount == 0
      ensures !outcome.Confirmed? ==> cart == old(cart) && cartCount == old(cartCount)
      ensures outcome.Invalid? || outcome.Dismissed? ==> isLoading == old(isLoading)
      ensures outcome.Confirmed? || outcome.OrderFailed? ==> !isLoading
    {
      sent := None;
      if cart == [] {
        outcome := Invalid(EmptyCart);
        return;
      }
      if input.None? || input.value == [] {
        outcome := Dismissed;
        return;
      }
      var parsed := ParseCustomer(input.value);
      if parsed.Failure? {
        outcome := Invalid(parsed.error);
        return;
      }
      outcome, sent := PlaceOrder(parsed.value, reply, now);
    }
  }
}
