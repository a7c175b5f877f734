/** The classifier on the messages of tests/intent.service.test.js, with no usable
    API key (the tests blank `OPENAI_API_KEY`), so the keyword rules decide. */
module IntentExamples {
  import opened Wrappers
  import opened Js
  import opened Text
  import opened IntentService

  /** `detectIntent(message)` without a context argument. */
  const NoContext := Context(Undefined, Undefined)

  /** The key the tests run with. */
  const BlankKey: Option<string> := Some("")

  lemma LowerOfLower(s: string)
    requires forall k :: 0 <= k < |s| ==> !('A' <= s[k] <= 'Z')
    ensures Lower(s) == s
  {
  }

  /** A text that contains none of the words matches none of them. */
  lemma NoWords(s: string, ws: seq<string>)
    requires forall k :: 0 <= k < |ws| ==> !Contains(s, ws[k])
    ensures !AnyWord(s, ws)
  {
    forall k, i | 0 <= k < |ws| && 0 <= i <= |s|
      ensures !WordAt(s, i, ws[k])
    {
      assert !LitAt(s, i, ws[k]);
    }
  }

  /** A pair of words, in either order, needs both words. */
  lemma WordThenWordNeedsBoth(l: string, a: seq<string>, b: seq<string>)
    requires WordThenWord(l, a, b)
    ensures AnyWord(l, a) && AnyWord(l, b)
  {
    var p, i, q, j :| 0 <= p < |a| && 0 <= q < |b| && 0 <= i && i + |a[p]| <= j <= |l|
      && WordAt(l, i, a[p]) && WordAt(l, j, b[q]) && NoLineBreak(l, i + |a[p]|, j);
    assert WordAt(l, i, a[p]);
  }

  lemma NoAddRule(l: string, ctx: Context)
    requires !AnyWord(l, ["add", "put"]) || !AnyWord(l, ["cart"])
    requires !Truthy(ctx.productId)
    ensures !AddRule(l, ctx)
  {
    if WordThenWord(l, ["add", "put"], ["cart"]) {
      WordThenWordNeedsBoth(l, ["add", "put"], ["cart"]);
    }
    if WordThenWord(l, ["cart"], ["add", "put"]) {
      WordThenWordNeedsBoth(l, ["cart"], ["add", "put"]);
    }
  }

  lemma NoCartRule(l: string)
    requires !AnyWord(l, ["cart"])
    ensures !CartRule(l)
  {
    CartRuleIsWordCart(l);
  }

  lemma NoPlaceOrderRule(l: string)
    requires !Contains(l, "place") && !Contains(l, "now")
    ensures !PlaceOrderRule(l)
  {
    forall i | 0 <= i <= |l|
      ensures !PlaceOrderAt(l, i)
    {
      assert !LitAt(l, i, "place");
      forall e: nat
        ensures PhraseEnd(l, i, ["order", "now"]) != Some(e)
      {
        PhraseEndTwoWords(l, i, "order", "now", e);
      }
    }
  }

  lemma NoStatusRule(l: string)
    requires !Contains(l, "order") && !Contains(l, "status") && !Contains(l, "track")
    ensures !StatusRule(l)
  {
    forall i | 0 <= i <= |l|
      ensures !StatusAt(l, i)
    {
      assert !LitAt(l, i, "order") && !LitAt(l, i, "status") && !LitAt(l, i, "track");
    }
  }

  /** The message reaches the keyword rules unchanged. */
  lemma Plain(s: string, ctx: Context, ask: (string, Context) -> ModelReply)
    requires s != [] && !IsSpace(s[0]) && !IsSpace(s[|s| - 1])
    requires forall k :: 0 <= k < |s| ==> !('A' <= s[k] <= 'Z')
    ensures DetectIntent(Str(s), ctx, BlankKey, ask) == Fallback(s, ctx)
    ensures Lower(s) == s
  {
    assert Trimmed(Str(s)) == s;
    LowerOfLower(s);
  }

  lemma FallbackCart(l: string, ctx: Context)
    requires Lower(l) == l && !ListRule(l) && !AddRule(l, ctx) && CartRule(l)
    ensures Fallback(l, ctx) == Detection(Str("GET_CART"), map[])
  {
  }

  lemma FallbackAdd(l: string, ctx: Context)
    requires Lower(l) == l && !ListRule(l) && AddRule(l, ctx)
    ensures Fallback(l, ctx)
         == Detection(Str("ADD_TO_CART"), map["productId" := OrElse(ctx.productId, Str("")), "quantity" := Num(1)])
  {
  }

  lemma FallbackPlaceOrder(l: string, ctx: Context)
    requires Lower(l) == l && !ListRule(l) && !AddRule(l, ctx) && !CartRule(l) && PlaceOrderRule(l)
    ensures Fallback(l, ctx) == Detection(Str("PLACE_ORDER"), map[])
  {
  }

  lemma FallbackCheckout(l: string, ctx: Context)
    requires Lower(l) == l && !ListRule(l) && !AddRule(l, ctx) && !CartRule(l) && !PlaceOrderRule(l)
    requires CheckoutRule(l) || Truthy(ctx.orderId)
    ensures Fallback(l, ctx) == Detection(Str("CHECKOUT"), map["orderId" := OrElse(ctx.orderId, Str(""))])
  {
  }

  lemma FallbackStatus(l: string, ctx: Context)
    requires Lower(l) == l && !ListRule(l) && !AddRule(l, ctx) && !CartRule(l) && !PlaceOrderRule(l)
    requires !CheckoutRule(l) && !Truthy(ctx.orderId) && StatusRule(l)
    ensures Fallback(l, ctx) == Detection(Str("GET_ORDER_STATUS"), map["orderId" := Str("")])
  {
  }

  lemma FallbackUnknown(l: string, ctx: Context)
    requires Lower(l) == l && !ListRule(l) && !AddRule(l, ctx) && !CartRule(l) && !PlaceOrderRule(l)
    requires !CheckoutRule(l) && !Truthy(ctx.orderId) && !StatusRule(l)
    ensures Fallback(l, ctx) == Unknown()
  {
  }

  // ---------------------------------------------------------------------------

  /** An empty message is UNKNOWN with no parameters, whatever the model would say. */
  lemma EmptyMessage(ask: (string, Context) -> ModelReply)
    ensures DetectIntent(Str(""), NoContext, BlankKey, ask) == Unknown()
  {
    assert IsBlank(Str(""));
  }


  /** No occurrence of `w` starts in `[lo, hi)` when the `j`-th character of `w`
      is missing from the stretch of the text it would have to sit in. */
  lemma NoLitInRange(s: string, lo: nat, hi: nat, w: string, j: nat)
    requires j < |w| && lo <= hi && hi + j <= |s|
    requires forall k :: lo + j <= k < hi + j ==> s[k] != w[j]
    ensures forall q :: lo <= q < hi ==> !LitAt(s, q, w)
  {
    forall q | lo <= q < hi
      ensures !LitAt(s, q, w)
    {
      if q + |w| <= |s| {
        assert s[q + j] == s[q..q + |w|][j];
      }
    }
  }

  // --- "show me products" -----------------------------------------------------

  const ShowMe := "show me products"

  lemma ShowMeNoCart() ensures !Contains(ShowMe, "cart") { NotContainedByChar(ShowMe, "cart", 'a'); }
  lemma ShowMeNoOrder() ensures !Contains(ShowMe, "order") { NotContainedByCount(ShowMe, "order", 'r'); }
  lemma ShowMeNoCheckout() ensures !Contains(ShowMe, "checkout") { NotContainedByChar(ShowMe, "checkout", 'k'); }
  lemma ShowMeNoPay() ensures !Contains(ShowMe, "pay") { NotContainedByChar(ShowMe, "pay", 'a'); }

  lemma ShowMeIsListing()
    ensures ListRule(ShowMe)
  {
    assert WordAt(ShowMe, 0, ListWords[1]);
    ShowMeNoCart(); ShowMeNoOrder(); ShowMeNoCheckout(); ShowMeNoPay();
    NoWords(ShowMe, ListExclusions);
  }

  /** "show me products" is a listing request. */
  lemma ShowMeProducts(ask: (string, Context) -> ModelReply)
    ensures DetectIntent(Str(ShowMe), NoContext, BlankKey, ask).intent == Str("LIST_PRODUCTS")
  {
    Plain(ShowMe, NoContext, ask);
    ShowMeIsListing();
  }

  // --- "show laptops under 50000" ---------------------------------------------

  const Laptops := "show laptops under 50000"

  lemma LaptopsNoCart() ensures !Contains(Laptops, "cart") { NotContainedByChar(Laptops, "cart", 'c'); }
  lemma LaptopsNoOrder()
    ensures !Contains(Laptops, "order")
  {
    NoLitInRange(Laptops, 0, 16, "order", 1);
    NoLitInRange(Laptops, 16, 20, "order", 0);
  }
  lemma LaptopsNoCheckout() ensures !Contains(Laptops, "checkout") { NotContainedByChar(Laptops, "checkout", 'c'); }
  lemma LaptopsNoPay() ensures !Contains(Laptops, "pay") { NotContainedByChar(Laptops, "pay", 'y'); }

  lemma LaptopsIsListing()
    ensures ListRule(Laptops)
  {
    assert WordAt(Laptops, 0, ListWords[1]);
    LaptopsNoCart(); LaptopsNoOrder(); LaptopsNoCheckout(); LaptopsNoPay();
    NoWords(Laptops, ListExclusions);
  }

  /** No upper-bound keyword starts before "under". */
  lemma LaptopsSkipToUnder()
    ensures FirstCapture(Laptops, 0, MaxKeywords) == FirstCapture(Laptops, 13, MaxKeywords)
  {
    NoLitInRange(Laptops, 0, 13, "under", 0);
    NotContainedByChar(Laptops, "below", 'b');
    NoLitInRange(Laptops, 0, 13, "less than", 1);
    FirstCaptureSkip(Laptops, 0, 13, MaxKeywords);
  }

  lemma LaptopsCaptureAtUnder()
    ensures CaptureAt(Laptops, 13, MaxKeywords) == Some("50000")
  {
    assert Laptops[13..18] == "under";
    assert LitAt(Laptops, 13, MaxKeywords[0]);
    assert KeywordEnd(Laptops, 13, MaxKeywords) == Some(18);
    assert Laptops[18] == ' ' && Laptops[19] == '5';
    assert SkipSpaces(Laptops, 19) == 19;
    assert SkipSpaces(Laptops, 18) == 19;
    assert Laptops[19..22][0] == Laptops[19] == '5' && Laptops[19..21][0] == Laptops[19];
    assert !LitAt(Laptops, 19, "rs.") && !LitAt(Laptops, 19, "rs") && !LitAt(Laptops, 19, "inr");
    assert CurrencyEnd(Laptops, 19) == 19;
    assert DigitEnd(Laptops, 24) == 24;
    assert DigitEnd(Laptops, 23) == 24;
    assert DigitEnd(Laptops, 22) == 24;
    assert DigitEnd(Laptops, 21) == 24;
    assert DigitEnd(Laptops, 20) == 24;
    assert DigitEnd(Laptops, 19) == 24;
    assert Laptops[19..24] == "50000";
  }

  lemma FiftyThousand()
    ensures DigitsValue("50000") == 50000
  {
    assert NatToStr(50000) == "50000";
    DigitsValueOfNatToStr(50000);
  }

  lemma LaptopsNoLowerBound()
    ensures FirstCapture(Laptops, 0, MinKeywords).None?
  {
    NotContainedByChar(Laptops, "above", 'b');
    NotContainedByChar(Laptops, "over", 'v');
    NotContainedByChar(Laptops, "more than", 'm');
    NoCapture(Laptops, MinKeywords);
  }

  lemma LaptopsMax()
    ensures FirstCapture(Laptops, 0, MaxKeywords) == Some("50000")
  {
    LaptopsSkipToUnder();
    LaptopsCaptureAtUnder();
  }

  /** Only an upper bound in the text: only `maxPrice` in the parameters. */
  lemma OnlyMaxPrice(l: string, ds: string)
    requires FirstCapture(l, 0, MaxKeywords) == Some(ds)
    requires FirstCapture(l, 0, MinKeywords).None?
    ensures forall k :: 0 <= k < |ds| ==> IsDigit(ds[k])
    ensures PriceParams(l) == map["maxPrice" := Num(DigitsValue(ds))]
  {
    assert PriceParams(l).Keys == {"maxPrice"};
  }

  lemma LaptopsPrice()
    ensures PriceParams(Laptops) == map["maxPrice" := Num(50000)]
  {
    LaptopsMax();
    LaptopsNoLowerBound();
    OnlyMaxPrice(Laptops, "50000");
    FiftyThousand();
  }

  /** "show laptops under 50000" is a listing request bounded above by 50000. */
  lemma ShowLaptopsUnder50000(ask: (string, Context) -> ModelReply)
    ensures var d := DetectIntent(Str(Laptops), NoContext, BlankKey, ask);
      d.intent == Str("LIST_PRODUCTS") && d.params == map["maxPrice" := Num(50000)]
  {
    Plain(Laptops, NoContext, ask);
    LaptopsIsListing();
    LaptopsPrice();
  }

  // --- "show me Wireless Bluetooth Headphones" ----------------------------------

  const Headphones := "show me Wireless Bluetooth Headphones"
  const HeadphonesLower := "show me wireless bluetooth headphones"

  /** A message without surrounding white space reaches the keyword rules as it is. */
  lemma Unpadded(s: string, ctx: Context, ask: (string, Context) -> ModelReply)
    requires s != [] && !IsSpace(s[0]) && !IsSpace(s[|s| - 1])
    ensures DetectIntent(Str(s), ctx, BlankKey, ask) == Fallback(s, ctx)
  {
    assert Trimmed(Str(s)) == s;
  }

  lemma HeadphonesLowered()
    ensures Lower(Headphones) == HeadphonesLower
  {
  }

  lemma HeadphonesNoCart() ensures !Contains(HeadphonesLower, "cart") { NotContainedByChar(HeadphonesLower, "cart", 'c'); }
  lemma HeadphonesNoOrder()
    ensures !Contains(HeadphonesLower, "order")
  {
    var l := HeadphonesLower;
    NoLitInRange(l, 0, 9, "order", 1);
    assert l[9..14][0] == l[9] == 'i';
    NoLitInRange(l, 10, 33, "order", 1);
  }
  lemma HeadphonesNoCheckout() ensures !Contains(HeadphonesLower, "checkout") { NotContainedByChar(HeadphonesLower, "checkout", 'c'); }
  lemma HeadphonesNoPay() ensures !Contains(HeadphonesLower, "pay") { NotContainedByChar(HeadphonesLower, "pay", 'y'); }

  lemma HeadphonesIsListing()
    ensures ListRule(HeadphonesLower)
  {
    var l := HeadphonesLower;
    assert l[0] == 's' && l[1] == 'h' && l[2] == 'o' && l[3] == 'w' && l[4] == ' ';
    assert l[0..4] == "show";
    assert WordAt(l, 0, ListWords[1]);
    HeadphonesNoCart(); HeadphonesNoOrder(); HeadphonesNoCheckout(); HeadphonesNoPay();
    NoWords(HeadphonesLower, ListExclusions);
  }

  /** A product name after "show me" is a listing request, whatever its case. */
  lemma ShowMeHeadphones(ask: (string, Context) -> ModelReply)
    ensures DetectIntent(Str(Headphones), NoContext, BlankKey, ask).intent == Str("LIST_PRODUCTS")
  {
    Unpadded(Headphones, NoContext, ask);
    HeadphonesLowered();
    HeadphonesIsListing();
  }

  // --- "products under Rs 20000" ------------------------------------------------

  const UnderRs := "products under Rs 20000"
  const UnderRsLower := "products under rs 20000"

  lemma UnderRsLowered()
    ensures Lower(UnderRs) == UnderRsLower
  {
  }

  lemma UnderRsNoCart() ensures !Contains(UnderRsLower, "cart") { NotContainedByChar(UnderRsLower, "cart", 'a'); }
  lemma UnderRsNoOrder()
    ensures !Contains(UnderRsLower, "order")
  {
    NoLitInRange(UnderRsLower, 0, 2, "order", 0);
    assert UnderRsLower[2..7][1] == UnderRsLower[3] == 'd';
    NoLitInRange(UnderRsLower, 3, 19, "order", 0);
  }
  lemma UnderRsNoCheckout() ensures !Contains(UnderRsLower, "checkout") { NotContainedByChar(UnderRsLower, "checkout", 'k'); }
  lemma UnderRsNoPay() ensures !Contains(UnderRsLower, "pay") { NotContainedByChar(UnderRsLower, "pay", 'a'); }

  lemma UnderRsIsListing()
    ensures ListRule(UnderRsLower)
  {
    assert WordAt(UnderRsLower, 0, ListWords[6]);
    UnderRsNoCart(); UnderRsNoOrder(); UnderRsNoCheckout(); UnderRsNoPay();
    NoWords(UnderRsLower, ListExclusions);
  }

  /** No upper-bound keyword starts before "under". */
  lemma UnderRsSkipToUnder()
    ensures FirstCapture(UnderRsLower, 0, MaxKeywords) == FirstCapture(UnderRsLower, 9, MaxKeywords)
  {
    NoLitInRange(UnderRsLower, 0, 9, "under", 1);
    NotContainedByChar(UnderRsLower, "below", 'b');
    NotContainedByChar(UnderRsLower, "less than", 'l');
    FirstCaptureSkip(UnderRsLower, 0, 9, MaxKeywords);
  }

  /** The currency word after "under" is skipped and the digits are the bound. */
  lemma UnderRsCaptureAtUnder()
    ensures CaptureAt(UnderRsLower, 9, MaxKeywords) == Some("20000")
  {
    var l := UnderRsLower;
    assert l[9..14] == "under";
    assert LitAt(l, 9, MaxKeywords[0]);
    assert KeywordEnd(l, 9, MaxKeywords) == Some(14);
    assert l[14] == ' ' && l[15] == 'r';
    assert SkipSpaces(l, 15) == 15;
    assert SkipSpaces(l, 14) == 15;
    assert l[15] == 'r' && l[16] == 's' && l[17] == ' ';
    assert l[15..18][2] == ' ' && !LitAt(l, 15, "rs.");
    assert l[15..17] == "rs";
    assert CurrencyEnd(l, 15) == 17;
    assert l[17] == ' ' && l[18] == '2';
    assert SkipSpaces(l, 18) == 18;
    assert SkipSpaces(l, 17) == 18;
    assert DigitEnd(l, 23) == 23;
    assert DigitEnd(l, 22) == 23;
    assert DigitEnd(l, 21) == 23;
    assert DigitEnd(l, 20) == 23;
    assert DigitEnd(l, 19) == 23;
    assert DigitEnd(l, 18) == 23;
    assert l[18..23] == "20000";
  }

  lemma UnderRsNoLowerBound()
    ensures FirstCapture(UnderRsLower, 0, MinKeywords).None?
  {
    NotContainedByChar(UnderRsLower, "above", 'a');
    NotContainedByChar(UnderRsLower, "over", 'v');
    NotContainedByChar(UnderRsLower, "more than", 'm');
    NoCapture(UnderRsLower, MinKeywords);
  }

  lemma TwentyThousand()
    ensures DigitsValue("20000") == 20000
  {
    assert NatToStr(20000) == "20000";
    DigitsValueOfNatToStr(20000);
  }

  lemma UnderRsPrice()
    ensures PriceParams(UnderRsLower) == map["maxPrice" := Num(20000)]
  {
    UnderRsSkipToUnder();
    UnderRsCaptureAtUnder();
    UnderRsNoLowerBound();
    OnlyMaxPrice(UnderRsLower, "20000");
    TwentyThousand();
  }

  /** "products under Rs 20000" is a listing request bounded above by 20000: the
      currency word "Rs" is matched whatever its case. */
  lemma ProductsUnderRs20000(ask: (string, Context) -> ModelReply)
    ensures var d := DetectIntent(Str(UnderRs), NoContext, BlankKey, ask);
      d.intent == Str("LIST_PRODUCTS") && d.params == map["maxPrice" := Num(20000)]
  {
    Unpadded(UnderRs, NoContext, ask);
    UnderRsLowered();
    UnderRsIsListing();
    UnderRsPrice();
  }

  // --- "add to cart" with a product chosen --------------------------------------

  const AddToCart := "add to cart"
  const ChosenProduct := Context(Str("507f1f77bcf86cd799439011"), Undefined)

  /** "add to cart" with a product in the context adds that product, once. */
  lemma AddToCartWithProduct(ask: (string, Context) -> ModelReply)
    ensures var d := DetectIntent(Str(AddToCart), ChosenProduct, BlankKey, ask);
      d.intent == Str("ADD_TO_CART")
      && d.params == map["productId" := Str("507f1f77bcf86cd799439011"), "quantity" := Num(1)]
  {
    AddToCartShape();
    AddToCartRules();
    AddWithProduct(AddToCart, "507f1f77bcf86cd799439011", ask);
  }

  lemma AddToCartShape()
    ensures AddToCart != [] && !IsSpace(AddToCart[0]) && !IsSpace(AddToCart[|AddToCart| - 1])
    ensures forall k :: 0 <= k < |AddToCart| ==> !('A' <= AddToCart[k] <= 'Z')
  {
  }

  /** A plain message matching the add rule, with a product in the context. */
  lemma AddWithProduct(l: string, pid: string, ask: (string, Context) -> ModelReply)
    requires l != [] && !IsSpace(l[0]) && !IsSpace(l[|l| - 1])
    requires forall k :: 0 <= k < |l| ==> !('A' <= l[k] <= 'Z')
    requires pid != "" && !ListRule(l) && AddRule(l, Context(Str(pid), Undefined))
    ensures var d := DetectIntent(Str(l), Context(Str(pid), Undefined), BlankKey, ask);
      d.intent == Str("ADD_TO_CART") && d.params == map["productId" := Str(pid), "quantity" := Num(1)]
  {
    Plain(l, Context(Str(pid), Undefined), ask);
    FallbackAdd(l, Context(Str(pid), Undefined));
  }

  lemma AddToCartRules()
    ensures !ListRule(AddToCart) && AddRule(AddToCart, Context(Str("507f1f77bcf86cd799439011"), Undefined))
  {
    assert WordAt(AddToCart, 7, ListExclusions[0]);
    assert LitAt(AddToCart, 0, "add");
  }

  // --- "view cart" ----------------------------------------------------------------

  const ViewCartText := "view cart"

  lemma ViewCartNoAddWord()
    ensures !AnyWord(ViewCartText, ["add", "put"])
  {
    NotContainedByChar(ViewCartText, "add", 'd');
    NotContainedByChar(ViewCartText, "put", 'p');
    NoWords(ViewCartText, ["add", "put"]);
  }

  /** "view cart" shows the cart. */
  lemma ViewCartRules()
    ensures !ListRule(ViewCartText) && !AddRule(ViewCartText, NoContext) && CartRule(ViewCartText)
  {
    assert WordAt(ViewCartText, 5, ListExclusions[0]);
    ViewCartNoAddWord();
    NoAddRule(ViewCartText, NoContext);
    assert WordAt(ViewCartText, 5, ["cart"][0]);
    CartRuleIsWordCart(ViewCartText);
  }

  lemma ViewCart(ask: (string, Context) -> ModelReply)
    ensures DetectIntent(Str(ViewCartText), NoContext, BlankKey, ask) == Detection(Str("GET_CART"), map[])
  {
    Plain(ViewCartText, NoContext, ask);
    ViewCartRules();
    FallbackCart(ViewCartText, NoContext);
  }

  // --- "place order" --------------------------------------------------------------

  const PlaceOrderText := "place order"

  lemma PlaceOrderNoAddWord()
    ensures !AnyWord(PlaceOrderText, ["add", "put"])
  {
    NoLitInRange(PlaceOrderText, 0, 7, "add", 1);
    NoLitInRange(PlaceOrderText, 7, 9, "add", 0);
    NotContainedByChar(PlaceOrderText, "put", 'u');
    NoWords(PlaceOrderText, ["add", "put"]);
  }

  lemma PlaceOrderMatches()
    ensures PlaceOrderRule(PlaceOrderText)
  {
    assert LitAt(PlaceOrderText, 0, "place") && LitAt(PlaceOrderText, 6, "order");
    PhraseEndTwoWords(PlaceOrderText, 0, "place", "order", 11);
    assert PlaceOrderAt(PlaceOrderText, 0);
  }

  /** "place order" places an order. */
  lemma PlaceOrder(ask: (string, Context) -> ModelReply)
    ensures DetectIntent(Str(PlaceOrderText), NoContext, BlankKey, ask) == Detection(Str("PLACE_ORDER"), map[])
  {
    Plain(PlaceOrderText, NoContext, ask);
    PlaceOrderEarlierRules();
    PlaceOrderMatches();
    FallbackPlaceOrder(PlaceOrderText, NoContext);
  }

  lemma PlaceOrderEarlierRules()
    ensures !ListRule(PlaceOrderText) && !AddRule(PlaceOrderText, NoContext) && !CartRule(PlaceOrderText)
  {
    assert WordAt(PlaceOrderText, 6, ListExclusions[1]);
    PlaceOrderNoAddWord();
    NoAddRule(PlaceOrderText, NoContext);
    NotContainedByChar(PlaceOrderText, "cart", 't');
    NoWords(PlaceOrderText, ["cart"]);
    NoCartRule(PlaceOrderText);
  }

  // --- "checkout" -----------------------------------------------------------------

  const CheckoutText := "checkout"

  lemma CheckoutEarlierRules()
    ensures !ListRule(CheckoutText)
    ensures !AddRule(CheckoutText, NoContext) && !CartRule(CheckoutText) && !PlaceOrderRule(CheckoutText)
  {
    assert WordAt(CheckoutText, 0, ListExclusions[2]);
    NotContainedByChar(CheckoutText, "add", 'a');
    NotContainedByChar(CheckoutText, "put", 'p');
    NoWords(CheckoutText, ["add", "put"]);
    NoAddRule(CheckoutText, NoContext);
    NotContainedByChar(CheckoutText, "cart", 'a');
    NoWords(CheckoutText, ["cart"]);
    NoCartRule(CheckoutText);
    NotContainedByChar(CheckoutText, "place", 'p');
    NotContainedByChar(CheckoutText, "now", 'n');
    NoPlaceOrderRule(CheckoutText);
  }

  /** "checkout" starts a payment, with an empty order id when none is chosen. */
  lemma Checkout(ask: (string, Context) -> ModelReply)
    ensures DetectIntent(Str(CheckoutText), NoContext, BlankKey, ask)
         == Detection(Str("CHECKOUT"), map["orderId" := Str("")])
  {
    Plain(CheckoutText, NoContext, ask);
    CheckoutEarlierRules();
    assert WordAt(CheckoutText, 0, ["checkout", "pay", "payment"][0]);
    FallbackCheckout(CheckoutText, NoContext);
  }

  // --- "pay" with an order chosen -------------------------------------------------

  const PayText := "pay"
  const ChosenOrder := Context(Undefined, Str("order123"))

  lemma PayEarlierRules()
    ensures !ListRule(PayText)
    ensures !AddRule(PayText, ChosenOrder) && !CartRule(PayText) && !PlaceOrderRule(PayText)
  {
    assert WordAt(PayText, 0, ListExclusions[3]);
    NotContainedByChar(PayText, "add", 'd');
    NotContainedByChar(PayText, "put", 'u');
    NoWords(PayText, ["add", "put"]);
    NoAddRule(PayText, ChosenOrder);
    NotContainedByChar(PayText, "cart", 'c');
    NoWords(PayText, ["cart"]);
    NoCartRule(PayText);
    NotContainedByChar(PayText, "place", 'l');
    NotContainedByChar(PayText, "now", 'n');
    NoPlaceOrderRule(PayText);
  }

  /** "pay" with an order in the context pays for that order. */
  lemma PayWithOrder(ask: (string, Context) -> ModelReply)
    ensures DetectIntent(Str(PayText), ChosenOrder, BlankKey, ask)
         == Detection(Str("CHECKOUT"), map["orderId" := Str("order123")])
  {
    Plain(PayText, ChosenOrder, ask);
    PayFallback();
  }

  lemma PayFallback()
    ensures Fallback(PayText, ChosenOrder) == Detection(Str("CHECKOUT"), map["orderId" := Str("order123")])
  {
    PayEarlierRules();
    assert Lower(PayText) == PayText;
    FallbackCheckout(PayText, ChosenOrder);
  }

  // --- "order status" -------------------------------------------------------------

  const StatusText := "order status"

  lemma StatusEarlierRules()
    ensures !ListRule(StatusText)
    ensures !AddRule(StatusText, NoContext) && !CartRule(StatusText) && !PlaceOrderRule(StatusText)
  {
    assert WordAt(StatusText, 0, ListExclusions[1]);
    NoLitInRange(StatusText, 0, 8, "add", 0);
    NoLitInRange(StatusText, 8, 10, "add", 1);
    NotContainedByChar(StatusText, "put", 'p');
    NoWords(StatusText, ["add", "put"]);
    NoAddRule(StatusText, NoContext);
    NotContainedByChar(StatusText, "cart", 'c');
    NoWords(StatusText, ["cart"]);
    NoCartRule(StatusText);
    NotContainedByChar(StatusText, "place", 'p');
    NotContainedByChar(StatusText, "now", 'n');
    NoPlaceOrderRule(StatusText);
  }

  lemma StatusNoCheckout()
    ensures !CheckoutRule(StatusText)
  {
    NotContainedByChar(StatusText, "checkout", 'c');
    NotContainedByChar(StatusText, "pay", 'p');
    NotContainedByChar(StatusText, "payment", 'p');
    NoWords(StatusText, ["checkout", "pay", "payment"]);
  }

  lemma StatusMatches()
    ensures StatusRule(StatusText)
  {
    assert LitAt(StatusText, 0, "order") && LitAt(StatusText, 6, "status");
    PhraseEndTwoWords(StatusText, 0, "order", "status", 12);
    assert StatusAt(StatusText, 0);
  }

  /** "order status" asks for the status of an order, none chosen. */
  lemma OrderStatus(ask: (string, Context) -> ModelReply)
    ensures DetectIntent(Str(StatusText), NoContext, BlankKey, ask)
         == Detection(Str("GET_ORDER_STATUS"), map["orderId" := Str("")])
  {
    Plain(StatusText, NoContext, ask);
    StatusEarlierRules();
    StatusNoCheckout();
    StatusMatches();
    FallbackStatus(StatusText, NoContext);
  }

  // --- "hello world" --------------------------------------------------------------

  const Hello := "hello world"

  lemma HelloNoListWord()
    ensures !AnyWord(Hello, ListWords) && !ListRule(Hello)
  {
    NotContainedByChar(Hello, "list", 'i');
    NotContainedByChar(Hello, "show", 's');
    NotContainedByChar(Hello, "search", 's');
    NotContainedByChar(Hello, "find", 'f');
    NotContainedByChar(Hello, "get", 'g');
    NotContainedByChar(Hello, "browse", 'b');
    NotContainedByChar(Hello, "products", 'p');
    NotContainedByChar(Hello, "product", 'p');
    NotContainedByChar(Hello, "items", 'i');
    NotContainedByChar(Hello, "item", 'i');
    NoWords(Hello, ListWords);
    assert !ListRule(Hello);
  }

  lemma HelloEarlierRules()
    ensures !AddRule(Hello, NoContext) && !CartRule(Hello) && !PlaceOrderRule(Hello)
  {
    NotContainedByChar(Hello, "add", 'a');
    NotContainedByChar(Hello, "put", 'p');
    NoWords(Hello, ["add", "put"]);
    NoAddRule(Hello, NoContext);
    NotContainedByChar(Hello, "cart", 'c');
    NoWords(Hello, ["cart"]);
    NoCartRule(Hello);
    NotContainedByChar(Hello, "place", 'p');
    NotContainedByChar(Hello, "now", 'n');
    NoPlaceOrderRule(Hello);
  }

  lemma HelloLaterRules()
    ensures !CheckoutRule(Hello) && !StatusRule(Hello)
  {
    NotContainedByChar(Hello, "checkout", 'c');
    NotContainedByChar(Hello, "pay", 'p');
    NotContainedByChar(Hello, "payment", 'p');
    NoWords(Hello, ["checkout", "pay", "payment"]);
    NoLitInRange(Hello, 0, 7, "order", 3);
    NotContainedByChar(Hello, "status", 's');
    NotContainedByChar(Hello, "track", 't');
    NoStatusRule(Hello);
  }

  /** "hello world" matches no rule. */
  lemma HelloWorld(ask: (string, Context) -> ModelReply)
    ensures DetectIntent(Str(Hello), NoContext, BlankKey, ask) == Unknown()
  {
    Plain(Hello, NoContext, ask);
    HelloNoListWord();
    HelloEarlierRules();
    HelloLaterRules();
    FallbackUnknown(Hello, NoContext);
  }
}
