/**
 * CartInfo: the session shopping cart object. Its mutators edit the line list
 * in place and nothing else; the stored totals are plain fields that only the
 * cart service writes.
 */
module Cart {
  import opened Wrappers
  import opened Domain
  import opened CartLines

  /** Everything a CartInfo holds, as a value: what its JSON form records. */
  datatype CartData = CartData(
    orderNum: int,
    customerInfo: Option<CustomerInfo>,
    lines: seq<CartLine>,
    totalAmount: int,
    totalQuantity: int)

  const EmptyCart: CartData := CartData(0, None, [], 0, 0)

  class CartInfo {
    var orderNum: int
    var customerInfo: Option<CustomerInfo>
    var lines: seq<CartLine>
    var totalAmount: int
    var totalQuantity: int

    /** `new CartInfo()`. */
    constructor ()
      ensures Data() == EmptyCart
    {
      orderNum := 0;
      customerInfo := None;
      lines := [];
      totalAmount := 0;
      totalQuantity := 0;
    }

    /** A cart rebuilt from its stored form. */
    constructor FromData(d: CartData)
      ensures Data() == d
    {
      orderNum := d.orderNum;
      customerInfo := d.customerInfo;
      lines := d.lines;
      totalAmount := d.totalAmount;
      totalQuantity := d.totalQuantity;
    }

    function Data(): CartData
      reads this
    {
      CartData(orderNum, customerInfo, lines, totalAmount, totalQuantity)
    }

    /** findLineByCode: the position of the first line for `code`, or -1. */
    method FindLineByCode(code: string) returns (i: int)
      ensures i == IndexOf(lines, code)
      ensures i >= 0 <==> HasCode(lines, code)
    {
      var k := 0;
      while k < |lines|
        invariant 0 <= k <= |lines|
        invariant forall j :: 0 <= j < k ==> CodeOf(lines[j]) != code
      {
        if CodeOf(lines[k]) == code {
          return k;
        }
        k := k + 1;
      }
      return -1;
    }

    /** addProduct. */
    method AddProduct(info: ProductInfo, quantity: int)
      modifies this`lines
      ensures lines == AfterAdd(old(lines), info, quantity)
    {
      var i := FindLineByCode(info.code);
      if i < 0 {
        lines := lines + [CartLine(info, quantity)];
      } else {
        var newQuantity := lines[i].quantity + quantity;
        if newQuantity <= 0 {
          lines := lines[..i] + lines[i + 1..];
        } else {
          lines := lines[i := lines[i].(quantity := newQuantity)];
        }
      }
    }

    /** updateProduct. */
    method UpdateProduct(code: string, quantity: int)
      modifies this`lines
      ensures lines == AfterUpdate(old(lines), code, quantity)
    {
      var i := FindLineByCode(code);
      if i >= 0 {
        if quantity <= 0 {
          lines := lines[..i] + lines[i + 1..];
        } else {
          lines := lines[i := lines[i].(quantity := quantity)];
        }
      }
    }

    /** removeProduct: lenient, a missing code is ignored. */
    method RemoveProduct(info: ProductInfo)
      modifies this`lines
      ensures lines == AfterRemove(old(lines), info.code)
    {
      var i := FindLineByCode(info.code);
      if i >= 0 {
        lines := lines[..i] + lines[i + 1..];
      }
    }

    /** isEmpty: no line, so no product code is held. */
    function IsEmpty(): (r: bool)
      reads this
      ensures r <==> forall c :: Lookup(lines, c).None?
    {
      if |lines| == 0 then true
      else
        assert Lookup(lines, CodeOf(lines[0])).Some?;
        false
    }

    /** isValidCustomer: customer details are present and were marked valid. */
    predicate IsValidCustomer()
      reads this
      ensures IsValidCustomer() ==> Data().customerInfo.Some? && Data().customerInfo.value.valid
      ensures Data().customerInfo.None? ==> !IsValidCustomer()
    {
      customerInfo.Some? && customerInfo.value.valid
    }

    /** getQuantityTotal. */
    method GetQuantityTotal() returns (total: int)
      ensures total == TotalQuantity(lines)
    {
      total := 0;
      var k := 0;
      while k < |lines|
        invariant 0 <= k <= |lines|
        invariant total == TotalQuantity(lines[..k])
      {
        assert lines[..k + 1][..k] == lines[..k];
        total := total + lines[k].quantity;
        k := k + 1;
      }
      assert lines[..k] == lines;
    }

    /** getAmountTotal. */
    method GetAmountTotal() returns (total: int)
      ensures total == TotalAmount(lines)
    {
      total := 0;
      var k := 0;
      while k < |lines|
        invariant 0 <= k <= |lines|
        invariant total == TotalAmount(lines[..k])
      {
        assert lines[..k + 1][..k] == lines[..k];
        total := total + Amount(lines[k]);
        k := k + 1;
      }
      assert lines[..k] == lines;
    }

    /** updateQuantity: each usable form line updates its product, in order. */
    method UpdateQuantity(form: Option<seq<Option<FormLine>>>)
      modifies this`lines
      ensures lines == AfterUpdateQuantity(old(lines), form)
    {
      if form.Some? {
        var formLines := form.value;
        var k := 0;
        while k < |formLines|
          invariant 0 <= k <= |formLines|
          invariant ApplyForm(lines, formLines[k..]) == ApplyForm(old(lines), formLines)
        {
          var f := formLines[k];
          assert formLines[k..][1..] == formLines[k + 1..];
          if f.Some? && f.value.product.Some? {
            UpdateProduct(f.value.product.value.code, f.value.quantity);
          }
          k := k + 1;
        }
      }
    }
  }
}
