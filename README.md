# Customer discount model

A Dafny model of the `Customer` class in `src/index.js`. A customer holds one
mutable field, the optional discount rate (`_discountRate`). The class has a
setter and a getter over that field (`discountRate`), and `applyDiscount(amount)`.
That method returns the amount unchanged when the rate is falsy, and
`amount - rate * amount` otherwise.

- `discount.dfy` (module `Discount`): the computation on values. The rate is an
  `Option<real>`. JavaScript's `undefined` and `null` both become `None`. The
  falsiness test `!this.discountRate` becomes `NoDiscount`: `None` or
  `Some(0.0)`.
- `customer.dfy` (module `CustomerModel`): the class. Its one field is
  `rate`. The class declares no constructor, so the model's constructor leaves
  the rate unset. The setter is a method with `modifies this`, and the getter
  and `ApplyDiscount` change nothing. `ApplyDiscount` reads the rate through
  the getter, as the source does. A client method `Scenarios` replays the
  situations that `src/index.test.js` exercises, using only the contracts.
- `lifecycle.dfy` (module `Lifecycle`): a customer's life as a sequence of
  setter, getter and `applyDiscount` calls. It proves that the last write wins
  and that each reply depends only on the most recent assignment. `Perform`
  makes one call through the `Customer` class methods and is proved to agree
  with the single-call semantics the lemmas use.

## Code and tests disagree on negative rates

`src/index.test.js:45-50` expects assigning `-0.2` to throw "Discount rate must
be a positive number". `src/index.test.js:17-23` expects `applyDiscount(100)` to
throw that error for a rate of `-0.2`. But that test assigns `-0.2` on line 19,
outside its `expect(...)`, so it needs the setter to accept the value. The two
tests contradict each other on the setter, and no version of the class can pass
both. For this reason the model covers only the code as written in
`src/index.js:2-9`, which checks nothing, and has no guarded variant. The setter
stores any value. `Discount.NegativeRateRaisesAmount` proves that a negative
rate on a positive amount gives more than the amount. `Scenarios` stores `-0.2`
and asserts that the discounted result for an amount of 100 is 120.

## Model

| member | source | states |
|---|---|---|
| `Discount.Discounted` | src/index.js:2-5 | the discounted amount is always `amount * (1 - r)`, where `r` is the stored rate when it is truthy and 0 when it is unset, null or zero; the amount comes back unchanged exactly when there is no discount or the amount is zero |
| `Discount.DiscountWithinAmount` | src/index.js:3-4 | with no rate, or a rate between 0 and 1, a non-negative amount is never raised and never goes below zero |
| `Discount.NegativeRateRaisesAmount` | src/index.js:3-4 | no negative rate is rejected: on a positive amount a negative rate gives a result larger than the amount |
| `Discount.RateAboveOneGoesNegative` | src/index.js:4 | no rate above one is rejected: on a positive amount it gives a negative result |
| `CustomerModel.Customer.constructor` | src/index.js:1 | a new customer has no rate, because the class declares no constructor |
| `CustomerModel.Customer.SetDiscountRate` | src/index.js:7-9 | the field holds exactly the assigned value afterwards, negative values included, and only this customer's field is written |
| `CustomerModel.Customer.DiscountRate` | src/index.js:11-13 | the getter returns the stored value and changes nothing |
| `CustomerModel.Customer.ApplyDiscount` | src/index.js:2-5 | the result is the discount of the amount at the stored rate, and no state changes |
| `Lifecycle.LastWriteWins` | src/index.js:7-9 | after any sequence of calls the stored rate is the value most recently assigned, or the starting rate if there was no assignment |
| `Lifecycle.ReadOnlyCallsKeepRate` | src/index.js:2-13 | calls to the getter and to `applyDiscount` never change the stored rate |
| `Lifecycle.ReplyAt` | src/index.js:2-13 | the reply to each call is fixed by the rate that the earlier calls left |
| `Lifecycle.ReplyFollowsLastAssignment` | src/index.js:2-13 | each read returns the value most recently assigned before it, and each discount uses that value |
| `Lifecycle.NewCustomerNoDiscount` | src/index.js:1-5 | until a rate is first assigned, a new customer returns every amount undiscounted, whatever calls come later |
| `Lifecycle.Perform` | src/index.js:2-13 | making one call through the class's setter, getter or `applyDiscount` gives the reply and leaves the stored rate that the sequence semantics assigns to that call |

## Left out

- The Jest test harness and the ES-module `export`/`import` wiring. These are plumbing, not behaviour.
- IEEE-754 rounding in `rate * amount`. Amounts and rates are exact reals, which makes 0.2 on 100 give exactly 80.
- JavaScript's dynamic typing. A rate that is a string, `NaN` or some other non-number is not modelled. `undefined` and `null` are both `None`, so the getter cannot tell them apart.
- The rejection of negative rates that the tests expect. It is not in the code, so the model does not add it (see above).
