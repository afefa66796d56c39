/** The shopping-cart store: an ordered list of products that the user adds
    to and removes from, its total price, and the checkout action that
    empties it once the server confirms the purchase. */
module CartStore {
  import opened ArrayBuiltins
  import opened Responses
  import opened Products

  /** The total of a list of products: the sum of their prices (the
      reference definition the getter is proved against). */
  function Sum(ps: seq<Product>): (s: int)
  {
    if ps == [] then 0 else ps[0].price + Sum(ps[1..])
  }

  /** `ps.reduce((sum, product) => sum + product.price, acc)`: the prices
      are added to the accumulator from left to right. */
  function SumFrom(acc: int, ps: seq<Product>): (r: int)
    ensures r == acc + Sum(ps)
    decreases |ps|
  {
    if ps == [] then acc else SumFrom(acc + ps[0].price, ps[1..])
  }

  /** The list `productRemove(p)` leaves behind: `splice(indexOf(p), 1)`.
      A product that is present loses its first occurrence and nothing
      else; an absent one makes `indexOf` answer -1, and `splice(-1, 1)`
      then drops the last entry of a non-empty list. */
  function Removed(ps: seq<Product>, p: Product): (r: seq<Product>)
    ensures p in ps ==> r == ps[..IndexOf(ps, p)] + ps[IndexOf(ps, p) + 1..]
    ensures p !in ps && ps != [] ==> r == ps[..|ps| - 1]
    ensures ps == [] ==> r == []
    ensures |r| == if ps == [] then 0 else |ps| - 1
  {
    var i := IndexOf(ps, p);
    if 0 <= i then
      SpliceOneAt(ps, i);
      Spliced(ps, i, 1)
    else
      SpliceOneFromEnd(ps);
      Spliced(ps, i, 1)
  }

  /** The cart's state: `state.products`. */
  class Cart {
    var products: seq<Product>

    /** `state()`: a fresh cart is empty. */
    constructor ()
      ensures products == []
    {
      products := [];
    }

    /** `productAdd`: `state.products.push(product)`. */
    method ProductAdd(product: Product)
      modifies this
      ensures products == old(products) + [product]
    {
      products := products + [product];
    }

    /** `productRemove`: `state.products.splice(state.products.indexOf(product), 1)`. */
    method ProductRemove(product: Product)
      modifies this
      ensures products == Removed(old(products), product)
    {
      var i := IndexOf(products, product);
      products := Spliced(products, i, 1);
    }

    /** `productClear`: the list is replaced by an empty one. */
    method ProductClear()
      modifies this
      ensures products == []
    {
      products := [];
    }

    /** The `totalPrice` getter. */
    function TotalPrice(): (r: int)
      reads this
      ensures r == Sum(products)
    {
      SumFrom(0, products)
    }

    /** The `checkout` action once its POST request has settled. The
        `items` argument is only sent to the server; what is cleared on
        success is the whole cart, whatever `items` held. */
    method Checkout(items: seq<Product>, response: Response<()>) returns (result: ActionResult)
      modifies this
      ensures result == Rejected <==> response.NoResponse?
      ensures Succeeded(response) ==> products == []
      ensures !Succeeded(response) ==> products == old(products)
    {
      if response.NoResponse? {
        return Rejected;
      }
      if response.status == 200 && response.success {
        ProductClear();
      }
      result := Fulfilled;
    }
  }

  /** Totals add up over concatenation. */
  lemma {:induction false} SumAppend(a: seq<Product>, b: seq<Product>)
    ensures Sum(a + b) == Sum(a) + Sum(b)
  {
    if a != [] {
      assert (a + b)[1..] == a[1..] + b;
      SumAppend(a[1..], b);
    } else {
      assert a + b == b;
    }
  }

  /** Adding a product raises the total by exactly its price. */
  lemma TotalAfterAdd(ps: seq<Product>, p: Product)
    ensures Sum(ps + [p]) == Sum(ps) + p.price
  {
    SumAppend(ps, [p]);
  }

  /** Removing the entry at `i` lowers the total by exactly that entry's price. */
  lemma SumWithout(ps: seq<Product>, i: nat)
    requires i < |ps|
    ensures Sum(ps[..i] + ps[i + 1..]) == Sum(ps) - ps[i].price
  {
    assert ps == ps[..i] + ([ps[i]] + ps[i + 1..]);
    SumAppend(ps[..i], [ps[i]] + ps[i + 1..]);
    SumAppend(ps[..i], ps[i + 1..]);
  }

  /** Removing a product that is in the cart lowers the total by its price. */
  lemma TotalAfterRemovePresent(ps: seq<Product>, p: Product)
    requires p in ps
    ensures Sum(Removed(ps, p)) == Sum(ps) - p.price
  {
    SumWithout(ps, IndexOf(ps, p));
  }

  /** Removing a product that is not in a non-empty cart lowers the total
      by the price of the last entry. */
  lemma TotalAfterRemoveAbsent(ps: seq<Product>, p: Product)
    requires p !in ps && ps != []
    ensures Sum(Removed(ps, p)) == Sum(ps) - ps[|ps| - 1].price
  {
    SumWithout(ps, |ps| - 1);
    assert ps[..|ps| - 1] + ps[|ps|..] == ps[..|ps| - 1];
  }

  /** `productRemove(p)` lowers the total by the price of `p` when `p` is
      in the cart, by the price of the last entry when it is not, and
      leaves an empty cart's total at 0. */
  lemma TotalAfterRemove(ps: seq<Product>, p: Product)
    ensures p in ps ==> Sum(Removed(ps, p)) == Sum(ps) - p.price
    ensures p !in ps && ps != [] ==> Sum(Removed(ps, p)) == Sum(ps) - ps[|ps| - 1].price
    ensures ps == [] ==> Sum(Removed(ps, p)) == 0
  {
    if p in ps {
      TotalAfterRemovePresent(ps, p);
    } else if ps != [] {
      TotalAfterRemoveAbsent(ps, p);
    }
  }

  /** Adding a product that is not yet in the cart and then removing it
      restores the list exactly. */
  lemma AddThenRemove(ps: seq<Product>, p: Product)
    requires p !in ps
    ensures Removed(ps + [p], p) == ps
  {
  }

  /** With non-negative prices, as the server sends, the total is
      non-negative. */
  lemma {:induction false} SumNonNegative(ps: seq<Product>)
    requires forall i :: 0 <= i < |ps| ==> ps[i].price >= 0
    ensures Sum(ps) >= 0
  {
    if ps != [] {
      SumNonNegative(ps[1..]);
    }
  }

  /** A cart holding products priced 100 and 200 totals 300, and a
      successful checkout empties it. */
  method CheckoutScenario() returns (total: int, remaining: seq<Product>)
    ensures total == 300 && remaining == []
  {
    var a := new Product(1, "A", 100);
    var b := new Product(2, "B", 200);
    var cart := new Cart();
    cart.ProductAdd(a);
    cart.ProductAdd(b);
    assert cart.products == [a, b] && [a, b][1..] == [b] && [b][1..] == [];
    assert Sum([b]) == 200;
    total := cart.TotalPrice();
    var _ := cart.Checkout(cart.products, Received(200, true, ()));
    remaining := cart.products;
  }

  /** Removal goes by identity: a product with the same id, name and price
      as an entry, but a different object, is not found, so the last entry
      is removed instead. */
  method RemoveLookalike() returns (first: Product, remaining: seq<Product>)
    ensures remaining == [first] && first.id == 1
  {
    first := new Product(1, "A", 100);
    var second := new Product(2, "B", 200);
    var copy := new Product(1, "A", 100);
    var cart := new Cart();
    cart.ProductAdd(first);
    cart.ProductAdd(second);
    cart.ProductRemove(copy);
    remaining := cart.products;
  }
}
