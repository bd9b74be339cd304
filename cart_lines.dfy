/**
 * The line list of a shopping cart as a value: one line per product code, in
 * insertion order. The functions here say what each cart mutator does to the
 * list; the lemmas say what that means for the quantity held per code, for the
 * other lines and for the totals.
 */
module CartLines {
  import opened Wrappers
  import opened Domain

  /** CartLineInfo: a product summary and a quantity (which may be zero or negative). */
  datatype CartLine = CartLine(product: ProductInfo, quantity: int)

  /**
   * The amount of one line, price times quantity. CartLineInfo.getAmount is
   * not part of this model; this is the formula it is taken to compute.
   */
  function Amount(line: CartLine): int {
    line.product.price * line.quantity
  }

  function CodeOf(line: CartLine): string {
    line.product.code
  }

  /** Some line of `lines` is for `code`. */
  predicate HasCode(lines: seq<CartLine>, code: string) {
    exists k :: 0 <= k < |lines| && CodeOf(lines[k]) == code
  }

  /** No product code appears on two lines. */
  predicate UniqueCodes(lines: seq<CartLine>) {
    forall i, j :: 0 <= i < j < |lines| ==> CodeOf(lines[i]) != CodeOf(lines[j])
  }

  /** The position of the first line for `code`, or -1 (findLineByCode). */
  function IndexOf(lines: seq<CartLine>, code: string): (r: int)
    ensures -1 <= r < |lines|
    ensures r >= 0 ==> CodeOf(lines[r]) == code
    ensures forall k :: 0 <= k < |lines| && (r < 0 || k < r) ==> CodeOf(lines[k]) != code
  {
    if |lines| == 0 then -1
    else if CodeOf(lines[0]) == code then 0
    else
      var r := IndexOf(lines[1..], code);
      if r < 0 then -1 else r + 1
  }

  /** The quantity held for `code`: that of its first line, or None when there is none. */
  function Lookup(lines: seq<CartLine>, code: string): Option<int> {
    if |lines| == 0 then None
    else if CodeOf(lines[0]) == code then Some(lines[0].quantity)
    else Lookup(lines[1..], code)
  }

  /** The lines for every other code, in their order. */
  function Without(lines: seq<CartLine>, code: string): seq<CartLine> {
    if |lines| == 0 then []
    else (if CodeOf(lines[0]) == code then [] else [lines[0]]) + Without(lines[1..], code)
  }

  function SetQuantityAt(lines: seq<CartLine>, i: int, q: int): seq<CartLine>
    requires 0 <= i < |lines|
  {
    lines[i := lines[i].(quantity := q)]
  }

  function RemoveAt(lines: seq<CartLine>, i: int): seq<CartLine>
    requires 0 <= i < |lines|
  {
    lines[..i] + lines[i + 1..]
  }

  /** CartInfo.addProduct: append a new line, or add the delta and drop the line at <= 0. */
  function AfterAdd(lines: seq<CartLine>, info: ProductInfo, q: int): seq<CartLine> {
    var i := IndexOf(lines, info.code);
    if i < 0 then lines + [CartLine(info, q)]
    else if lines[i].quantity + q <= 0 then RemoveAt(lines, i)
    else SetQuantityAt(lines, i, lines[i].quantity + q)
  }

  /** CartInfo.updateProduct (and CartService.updateProductQuantity on the lines). */
  function AfterUpdate(lines: seq<CartLine>, code: string, q: int): seq<CartLine> {
    var i := IndexOf(lines, code);
    if i < 0 then lines
    else if q <= 0 then RemoveAt(lines, i)
    else SetQuantityAt(lines, i, q)
  }

  /** CartInfo.removeProduct (and CartService.removeProduct once its guards pass). */
  function AfterRemove(lines: seq<CartLine>, code: string): seq<CartLine> {
    var i := IndexOf(lines, code);
    if i < 0 then lines else RemoveAt(lines, i)
  }

  /** CartService.addProductToCart on the lines: append or add the delta, never remove. */
  function AfterServiceAdd(lines: seq<CartLine>, info: ProductInfo, q: int): seq<CartLine> {
    var i := IndexOf(lines, info.code);
    if i < 0 then lines + [CartLine(info, q)]
    else SetQuantityAt(lines, i, lines[i].quantity + q)
  }

  /** One line of a submitted cart form; `product` is None when its productInfo is null. */
  datatype FormLine = FormLine(product: Option<ProductInfo>, quantity: int)

  /** A form line that updateQuantity acts on: neither it nor its productInfo is null. */
  predicate Actionable(f: Option<FormLine>) {
    f.Some? && f.value.product.Some?
  }

  /** One step of CartInfo.updateQuantity. */
  function ApplyFormLine(lines: seq<CartLine>, f: Option<FormLine>): seq<CartLine> {
    if Actionable(f) then AfterUpdate(lines, f.value.product.value.code, f.value.quantity) else lines
  }

  /** The form lines applied in order. */
  function ApplyForm(lines: seq<CartLine>, form: seq<Option<FormLine>>): seq<CartLine>
    decreases |form|
  {
    if |form| == 0 then lines else ApplyForm(ApplyFormLine(lines, form[0]), form[1..])
  }

  /** CartInfo.updateQuantity: a null form (or a form without lines) changes nothing. */
  function AfterUpdateQuantity(lines: seq<CartLine>, form: Option<seq<Option<FormLine>>>): seq<CartLine> {
    if form.None? then lines else ApplyForm(lines, form.value)
  }

  /** The form lines that updateQuantity acts on, in order. */
  function ActionableLines(form: seq<Option<FormLine>>): seq<Option<FormLine>> {
    if |form| == 0 then []
    else (if Actionable(form[0]) then [form[0]] else []) + ActionableLines(form[1..])
  }

  /** The product codes a form mentions on its actionable lines. */
  predicate FormMentions(form: seq<Option<FormLine>>, code: string) {
    exists k :: 0 <= k < |form| && Actionable(form[k]) && form[k].value.product.value.code == code
  }

  /** Sum of the quantities (getQuantityTotal), accumulated from the front. */
  function TotalQuantity(lines: seq<CartLine>): int {
    if |lines| == 0 then 0 else TotalQuantity(lines[..|lines| - 1]) + lines[|lines| - 1].quantity
  }

  /** Sum of the line amounts (getAmountTotal), accumulated from the front. */
  function TotalAmount(lines: seq<CartLine>): int {
    if |lines| == 0 then 0 else TotalAmount(lines[..|lines| - 1]) + Amount(lines[|lines| - 1])
  }

  // ---------------------------------------------------------------------------
  // Facts about lookup and the other lines.
  // ---------------------------------------------------------------------------

  /** Lookup agrees with the line that findLineByCode finds. */
  lemma {:induction false} LookupAtIndex(lines: seq<CartLine>, code: string)
    ensures IndexOf(lines, code) < 0 ==> Lookup(lines, code) == None
    ensures IndexOf(lines, code) >= 0 ==> Lookup(lines, code) == Some(lines[IndexOf(lines, code)].quantity)
  {
    if |lines| > 0 && CodeOf(lines[0]) != code {
      LookupAtIndex(lines[1..], code);
    }
  }

  /** A code is held exactly when some line carries it. */
  lemma LookupPresent(lines: seq<CartLine>, code: string)
    ensures Lookup(lines, code).Some? <==> HasCode(lines, code)
  {
    LookupAtIndex(lines, code);
  }

  lemma {:induction false} WithoutAppend(a: seq<CartLine>, b: seq<CartLine>, code: string)
    ensures Without(a + b, code) == Without(a, code) + Without(b, code)
  {
    if |a| > 0 {
      assert (a + b)[1..] == a[1..] + b;
      WithoutAppend(a[1..], b, code);
    } else {
      assert a + b == b;
    }
  }

  /** Removing the lines of one code does not change what another code holds. */
  lemma {:induction false} LookupWithout(lines: seq<CartLine>, code: string, other: string)
    requires other != code
    ensures Lookup(Without(lines, code), other) == Lookup(lines, other)
  {
    if |lines| > 0 {
      LookupWithout(lines[1..], code, other);
      var rest := Without(lines[1..], code);
      if CodeOf(lines[0]) != code {
        assert Without(lines, code) == [lines[0]] + rest;
        assert ([lines[0]] + rest)[1..] == rest;
      } else {
        assert Without(lines, code) == rest;
      }
    }
  }

  /** Replacing or dropping one line of `code` leaves the other lines as they were. */
  lemma WithoutSplice(lines: seq<CartLine>, i: int, mid: seq<CartLine>, code: string)
    requires 0 <= i < |lines| && CodeOf(lines[i]) == code
    requires forall k :: 0 <= k < |mid| ==> CodeOf(mid[k]) == code
    ensures Without(lines[..i] + mid + lines[i + 1..], code) == Without(lines, code)
  {
    assert lines == lines[..i] + [lines[i]] + lines[i + 1..];
    WithoutAppend(lines[..i] + mid, lines[i + 1..], code);
    WithoutAppend(lines[..i], mid, code);
    WithoutAppend(lines[..i] + [lines[i]], lines[i + 1..], code);
    WithoutAppend(lines[..i], [lines[i]], code);
    WithoutAllOfCode(mid, code);
    assert Without([lines[i]], code) == [];
  }

  lemma {:induction false} WithoutAllOfCode(mid: seq<CartLine>, code: string)
    requires forall k :: 0 <= k < |mid| ==> CodeOf(mid[k]) == code
    ensures Without(mid, code) == []
  {
    if |mid| > 0 {
      WithoutAllOfCode(mid[1..], code);
    }
  }

  /** With the lines of `code` unchanged elsewhere, every other code holds what it held. */
  lemma OthersHeld(before: seq<CartLine>, after: seq<CartLine>, code: string)
    requires Without(after, code) == Without(before, code)
    ensures forall c :: c != code ==> Lookup(after, c) == Lookup(before, c)
  {
    forall c | c != code
      ensures Lookup(after, c) == Lookup(before, c)
    {
      LookupWithout(after, code, c);
      LookupWithout(before, code, c);
    }
  }

  // ---------------------------------------------------------------------------
  // The three elementary edits.
  // ---------------------------------------------------------------------------

  lemma RemoveAtFacts(lines: seq<CartLine>, i: int)
    requires UniqueCodes(lines) && 0 <= i < |lines|
    ensures var r := RemoveAt(lines, i);
      UniqueCodes(r) && |r| == |lines| - 1 && !HasCode(r, CodeOf(lines[i]))
      && Lookup(r, CodeOf(lines[i])) == None
      && Without(r, CodeOf(lines[i])) == Without(lines, CodeOf(lines[i]))
  {
    var r := RemoveAt(lines, i);
    var code := CodeOf(lines[i]);
    assert forall k :: 0 <= k < |r| ==> r[k] == (if k < i then lines[k] else lines[k + 1]);
    LookupPresent(r, code);
    assert lines[..i] + [] + lines[i + 1..] == r;
    WithoutSplice(lines, i, [], code);
  }

  lemma SetQuantityAtFacts(lines: seq<CartLine>, i: int, q: int)
    requires UniqueCodes(lines) && 0 <= i < |lines|
    ensures var r := SetQuantityAt(lines, i, q);
      UniqueCodes(r) && |r| == |lines| && IndexOf(r, CodeOf(lines[i])) == i
      && Lookup(r, CodeOf(lines[i])) == Some(q)
      && Without(r, CodeOf(lines[i])) == Without(lines, CodeOf(lines[i]))
  {
    var r := SetQuantityAt(lines, i, q);
    var code := CodeOf(lines[i]);
    var j := IndexOf(r, code);
    assert CodeOf(r[i]) == code;
    assert j == i;
    LookupAtIndex(r, code);
    assert lines[..i] + [r[i]] + lines[i + 1..] == r;
    WithoutSplice(lines, i, [r[i]], code);
  }

  lemma AppendFacts(lines: seq<CartLine>, info: ProductInfo, q: int)
    requires UniqueCodes(lines) && !HasCode(lines, info.code)
    ensures var r := lines + [CartLine(info, q)];
      UniqueCodes(r) && |r| == |lines| + 1 && Lookup(r, info.code) == Some(q)
      && Without(r, info.code) == Without(lines, info.code)
  {
    var r := lines + [CartLine(info, q)];
    var j := IndexOf(r, info.code);
    assert CodeOf(r[|lines|]) == info.code;
    assert j == |lines|;
    LookupAtIndex(r, info.code);
    WithoutAppend(lines, [CartLine(info, q)], info.code);
    assert Without([CartLine(info, q)], info.code) == [];
  }

  lemma AbsentIndex(lines: seq<CartLine>, code: string)
    ensures IndexOf(lines, code) < 0 <==> !HasCode(lines, code)
  {
  }

  // ---------------------------------------------------------------------------
  // What each mutator does, in terms of the quantity held per code.
  // ---------------------------------------------------------------------------

  /**
   * CartInfo.addProduct: a new code gets one line with exactly the given
   * quantity (even <= 0); a present code gets the delta, and loses its line
   * when the sum is <= 0; no code ever gets a second line, and every other
   * line keeps its content and its place.
   */
  lemma AddProductEffect(lines: seq<CartLine>, info: ProductInfo, q: int)
    requires UniqueCodes(lines)
    ensures var r := AfterAdd(lines, info, q);
      && UniqueCodes(r)
      && Lookup(r, info.code) == (match Lookup(lines, info.code)
                                  case None => Some(q)
                                  case Some(n) => if n + q <= 0 then None else Some(n + q))
      && (Lookup(lines, info.code).None? ==> r == lines + [CartLine(info, q)])
      && Without(r, info.code) == Without(lines, info.code)
      && (forall c :: c != info.code ==> Lookup(r, c) == Lookup(lines, c))
  {
    var i := IndexOf(lines, info.code);
    var r := AfterAdd(lines, info, q);
    LookupAtIndex(lines, info.code);
    if i < 0 {
      assert r == lines + [CartLine(info, q)];
      assert Lookup(lines, info.code) == None;
      AbsentIndex(lines, info.code);
      AppendFacts(lines, info, q);
    } else if lines[i].quantity + q <= 0 {
      assert r == RemoveAt(lines, i);
      assert Lookup(lines, info.code) == Some(lines[i].quantity);
      RemoveAtFacts(lines, i);
    } else {
      assert r == SetQuantityAt(lines, i, lines[i].quantity + q);
      assert Lookup(lines, info.code) == Some(lines[i].quantity);
      SetQuantityAtFacts(lines, i, lines[i].quantity + q);
    }
    OthersHeld(lines, r, info.code);
  }

  /**
   * CartInfo.updateProduct: an absent code changes nothing; a quantity <= 0
   * removes the line; otherwise the quantity is set exactly. Other lines are
   * kept as they were.
   */
  lemma UpdateProductEffect(lines: seq<CartLine>, code: string, q: int)
    requires UniqueCodes(lines)
    ensures var r := AfterUpdate(lines, code, q);
      && UniqueCodes(r)
      && (!HasCode(lines, code) ==> r == lines)
      && Lookup(r, code) == (if Lookup(lines, code).None? || q <= 0 then None else Some(q))
      && Without(r, code) == Without(lines, code)
      && (forall c :: c != code ==> Lookup(r, c) == Lookup(lines, c))
  {
    var i := IndexOf(lines, code);
    LookupAtIndex(lines, code);
    if i >= 0 {
      if q <= 0 {
        RemoveAtFacts(lines, i);
      } else {
        SetQuantityAtFacts(lines, i, q);
      }
    }
    OthersHeld(lines, AfterUpdate(lines, code, q), code);
  }

  /**
   * CartInfo.removeProduct is lenient: a missing code leaves the lines as they
   * are; a present code loses exactly its line. Removing twice is removing once.
   */
  lemma RemoveProductEffect(lines: seq<CartLine>, code: string)
    requires UniqueCodes(lines)
    ensures var r := AfterRemove(lines, code);
      && UniqueCodes(r)
      && (!HasCode(lines, code) ==> r == lines)
      && (HasCode(lines, code) ==> |r| == |lines| - 1)
      && !HasCode(r, code)
      && Without(r, code) == Without(lines, code)
      && (forall c :: c != code ==> Lookup(r, c) == Lookup(lines, c))
      && AfterRemove(r, code) == r
  {
    var i := IndexOf(lines, code);
    if i >= 0 {
      RemoveAtFacts(lines, i);
    }
    OthersHeld(lines, AfterRemove(lines, code), code);
  }

  /**
   * CartService.addProductToCart on the lines: the code is held afterwards with
   * the old quantity plus the delta (or the delta alone), whatever its sign;
   * the line is never removed and no line is lost.
   */
  lemma ServiceAddEffect(lines: seq<CartLine>, info: ProductInfo, q: int)
    requires UniqueCodes(lines)
    ensures var r := AfterServiceAdd(lines, info, q);
      && UniqueCodes(r)
      && Lookup(r, info.code) == (match Lookup(lines, info.code)
                                  case None => Some(q)
                                  case Some(n) => Some(n + q))
      && |r| == (if HasCode(lines, info.code) then |lines| else |lines| + 1)
      && (forall c :: c != info.code ==> Lookup(r, c) == Lookup(lines, c))
  {
    var i := IndexOf(lines, info.code);
    LookupAtIndex(lines, info.code);
    if i < 0 {
      AppendFacts(lines, info, q);
    } else {
      SetQuantityAtFacts(lines, i, lines[i].quantity + q);
    }
    OthersHeld(lines, AfterServiceAdd(lines, info, q), info.code);
  }

  /** The two add operations differ only when the new quantity would be <= 0. */
  lemma AddVariantsAgree(lines: seq<CartLine>, info: ProductInfo, q: int)
    ensures (Lookup(lines, info.code).None? || Lookup(lines, info.code).value + q > 0)
            <==> AfterAdd(lines, info, q) == AfterServiceAdd(lines, info, q)
  {
    var i := IndexOf(lines, info.code);
    LookupAtIndex(lines, info.code);
    if i >= 0 && lines[i].quantity + q <= 0 {
      assert |AfterAdd(lines, info, q)| == |lines| - 1;
      assert |AfterServiceAdd(lines, info, q)| == |lines|;
    }
  }

  // ---------------------------------------------------------------------------
  // Bulk update.
  // ---------------------------------------------------------------------------

  /** Applying a form in two parts is applying it whole. */
  lemma {:induction false} ApplyFormConcat(lines: seq<CartLine>, f1: seq<Option<FormLine>>, f2: seq<Option<FormLine>>)
    ensures ApplyForm(lines, f1 + f2) == ApplyForm(ApplyForm(lines, f1), f2)
    decreases |f1|
  {
    if |f1| == 0 {
      assert f1 + f2 == f2;
    } else {
      assert (f1 + f2)[0] == f1[0];
      assert (f1 + f2)[1..] == f1[1..] + f2;
      ApplyFormConcat(ApplyFormLine(lines, f1[0]), f1[1..], f2);
    }
  }

  /** Null lines and lines without a product are skipped. */
  lemma {:induction false} ApplyFormSkipsInactionable(lines: seq<CartLine>, form: seq<Option<FormLine>>)
    ensures ApplyForm(lines, ActionableLines(form)) == ApplyForm(lines, form)
    decreases |form|
  {
    if |form| > 0 {
      var head := if Actionable(form[0]) then [form[0]] else [];
      assert ActionableLines(form) == head + ActionableLines(form[1..]);
      ApplyFormConcat(lines, head, ActionableLines(form[1..]));
      ApplyFormSkipsInactionable(ApplyFormLine(lines, form[0]), form[1..]);
      if Actionable(form[0]) {
        assert ApplyForm(lines, head) == ApplyForm(ApplyFormLine(lines, form[0]), []);
      } else {
        assert ApplyForm(lines, head) == lines;
      }
    }
  }

  /**
   * updateQuantity keeps one line per code and leaves the quantity of every
   * code the form does not mention exactly as it was.
   */
  lemma {:induction false} ApplyFormEffect(lines: seq<CartLine>, form: seq<Option<FormLine>>)
    requires UniqueCodes(lines)
    ensures UniqueCodes(ApplyForm(lines, form))
    ensures forall c :: !FormMentions(form, c) ==> Lookup(ApplyForm(lines, form), c) == Lookup(lines, c)
    decreases |form|
  {
    if |form| > 0 {
      var next := ApplyFormLine(lines, form[0]);
      if Actionable(form[0]) {
        UpdateProductEffect(lines, form[0].value.product.value.code, form[0].value.quantity);
      }
      ApplyFormEffect(next, form[1..]);
      forall c | !FormMentions(form, c)
        ensures Lookup(ApplyForm(lines, form), c) == Lookup(lines, c)
      {
        forall k | 0 <= k < |form[1..]| && Actionable(form[1..][k])
          ensures form[1..][k].value.product.value.code != c
        {
          assert form[1..][k] == form[k + 1];
        }
        assert Actionable(form[0]) ==> form[0].value.product.value.code != c;
      }
    }
  }

  // ---------------------------------------------------------------------------
  // Totals.
  // ---------------------------------------------------------------------------

  lemma {:induction false} TotalsAppend(a: seq<CartLine>, b: seq<CartLine>)
    ensures TotalQuantity(a + b) == TotalQuantity(a) + TotalQuantity(b)
    ensures TotalAmount(a + b) == TotalAmount(a) + TotalAmount(b)
    decreases |b|
  {
    if |b| == 0 {
      assert a + b == a;
    } else {
      var b' := b[..|b| - 1];
      assert (a + b)[..|a + b| - 1] == a + b';
      TotalsAppend(a, b');
    }
  }

  lemma TotalsSingle(x: CartLine)
    ensures TotalQuantity([x]) == x.quantity && TotalAmount([x]) == Amount(x)
  {
    assert [x][..0] == [];
  }

  /** Splitting the lines around position i. */
  lemma TotalsAround(lines: seq<CartLine>, i: int)
    requires 0 <= i < |lines|
    ensures TotalQuantity(lines) == TotalQuantity(lines[..i]) + lines[i].quantity + TotalQuantity(lines[i + 1..])
    ensures TotalAmount(lines) == TotalAmount(lines[..i]) + Amount(lines[i]) + TotalAmount(lines[i + 1..])
  {
    assert lines == lines[..i] + [lines[i]] + lines[i + 1..];
    TotalsAppend(lines[..i] + [lines[i]], lines[i + 1..]);
    TotalsAppend(lines[..i], [lines[i]]);
    TotalsSingle(lines[i]);
  }

  /**
   * The service add moves the quantity total by exactly the delta, and the
   * amount total by the delta times the price on the line that received it.
   */
  lemma ServiceAddTotals(lines: seq<CartLine>, info: ProductInfo, q: int)
    ensures var r := AfterServiceAdd(lines, info, q);
      var i := IndexOf(lines, info.code);
      && TotalQuantity(r) == TotalQuantity(lines) + q
      && TotalAmount(r) == TotalAmount(lines) + q * (if i < 0 then info.price else lines[i].product.price)
  {
    var i := IndexOf(lines, info.code);
    var r := AfterServiceAdd(lines, info, q);
    if i < 0 {
      TotalsAppend(lines, [CartLine(info, q)]);
      TotalsSingle(CartLine(info, q));
    } else {
      TotalsAround(lines, i);
      TotalsAround(r, i);
      assert r[..i] == lines[..i] && r[i + 1..] == lines[i + 1..];
      AmountShift(lines[i], q);
    }
  }

  /** Adding a delta to a line adds the delta times its price to its amount. */
  lemma AmountShift(line: CartLine, q: int)
    ensures Amount(line.(quantity := line.quantity + q)) == Amount(line) + q * line.product.price
  {
    var p := line.product.price;
    calc {
      Amount(line.(quantity := line.quantity + q));
      p * (line.quantity + q);
      { assert p * (line.quantity + q) == p * line.quantity + p * q; }
      p * line.quantity + p * q;
    }
    assert p * q == q * p;
  }

  /** Removing a line takes exactly its quantity and its amount off the totals. */
  lemma RemoveTotals(lines: seq<CartLine>, code: string)
    requires HasCode(lines, code)
    ensures var i := IndexOf(lines, code);
      && TotalQuantity(AfterRemove(lines, code)) == TotalQuantity(lines) - lines[i].quantity
      && TotalAmount(AfterRemove(lines, code)) == TotalAmount(lines) - Amount(lines[i])
  {
    var i := IndexOf(lines, code);
    TotalsAround(lines, i);
    TotalsAppend(lines[..i], lines[i + 1..]);
  }
}
