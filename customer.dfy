/**
 The `Customer` class: one mutable field holding the optional discount
 rate, a setter and a getter over it, and `applyDiscount`, which reads it.
 */
module CustomerModel {
  import opened Discount

  class Customer {
    /** The backing field `_discountRate`; `None` stands for both
        `undefined` and `null`. */
    var rate: Option<real>

    /** The class declares no constructor, so a new customer has no rate. */
    constructor ()
      ensures rate == None
    {
      rate := None;
    }

    /** `set discountRate`: stores any value, negative ones included, and
        touches nothing else. */
    method SetDiscountRate(value: Option<real>)
      modifies this
      ensures rate == value
    {
      rate := value;
    }

    /** `get discountRate`: the stored value, as last assigned. */
    method DiscountRate() returns (value: Option<real>)
      ensures value == rate
    {
      value := rate;
    }

    /** `applyDiscount`: reads the rate through the getter and changes no state. */
    method ApplyDiscount(amount: real) returns (result: real)
      ensures result == Discounted(rate, amount)
    {
      var current := DiscountRate();
      if NoDiscount(current) {
        result := amount;
      } else {
        result := amount - current.value * amount;
      }
    }
  }

  /** The scenarios the class's own tests exercise, stated against the
      contracts above. */
  method Scenarios() {
    var c := new Customer();
    var r := c.DiscountRate();
    assert r == None;
    var d := c.ApplyDiscount(100.0);
    assert d == 100.0;

    c.SetDiscountRate(Some(0.0));
    r := c.DiscountRate();
    assert r == Some(0.0);
    d := c.ApplyDiscount(100.0);
    assert d == 100.0;

    c.SetDiscountRate(Some(0.2));
    r := c.DiscountRate();
    assert r == Some(0.2);
    d := c.ApplyDiscount(100.0);
    assert d == 80.0;
    r := c.DiscountRate();
    assert r == Some(0.2);

    c.SetDiscountRate(None);
    r := c.DiscountRate();
    assert r == None;

    // A negative rate is stored and applied, not rejected.
    c.SetDiscountRate(Some(-0.2));
    r := c.DiscountRate();
    assert r == Some(-0.2);
    d := c.ApplyDiscount(100.0);
    assert d == 120.0;
  }
}
