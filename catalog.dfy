/** The product-catalog store: the list of products last fetched from the
    server, and the action that fetches it. */
module ProductStore {
  import opened Responses
  import opened Products

  /** The catalog after the fetch action has seen `r`: the response's list
      when it reports success, the old catalog otherwise. */
  function Fetched(catalog: seq<Product>, r: Response<seq<Product>>): (c: seq<Product>)
  {
    if Succeeded(r) then r.body else catalog
  }

  /** The catalog after a session's fetches have seen `rs`, in order. */
  function FetchedAll(catalog: seq<Product>, rs: seq<Response<seq<Product>>>): (c: seq<Product>)
  {
    if rs == [] then catalog else Fetched(FetchedAll(catalog, rs[..|rs| - 1]), rs[|rs| - 1])
  }

  /** The catalog's state: `state.products`. */
  class Catalog {
    var products: seq<Product>

    /** `state()`: the catalog starts empty. */
    constructor ()
      ensures products == []
    {
      products := [];
    }

    /** `setProducts`: the list is replaced wholesale, nothing is merged. */
    method SetProducts(ps: seq<Product>)
      modifies this
      ensures products == ps
    {
      products := ps;
    }

    /** The `getProducts` action once its GET request has settled. */
    method GetProducts(response: Response<seq<Product>>) returns (result: ActionResult)
      modifies this
      ensures result == Rejected <==> response.NoResponse?
      ensures products == Fetched(old(products), response)
    {
      if response.NoResponse? {
        return Rejected;
      }
      if response.status == 200 && response.success {
        SetProducts(response.body);
      }
      result := Fulfilled;
    }
  }

  /** A fetch replaces the catalog exactly when the response has status 200
      and a true success flag; a response with another status, one with a
      false flag and a missing response each leave the catalog as it was. */
  lemma FetchReplacesOnSuccess(catalog: seq<Product>, r: Response<seq<Product>>)
    ensures r.Received? && r.status == 200 && r.success ==> Fetched(catalog, r) == r.body
    ensures r.Received? && r.status != 200 ==> Fetched(catalog, r) == catalog
    ensures r.Received? && !r.success ==> Fetched(catalog, r) == catalog
    ensures r.NoResponse? ==> Fetched(catalog, r) == catalog
  {
  }

  /** Two fetches of which the second succeeds leave the second response's
      list, whatever the first did. */
  lemma SecondFetchWins(catalog: seq<Product>, r1: Response<seq<Product>>, r2: Response<seq<Product>>)
    requires Succeeded(r2)
    ensures FetchedAll(catalog, [r1, r2]) == r2.body
  {
  }

  /** Over any sequence of fetches the catalog is the list of the last
      successful response, or the initial catalog when none succeeded. */
  lemma {:induction false} LastSuccessWins(catalog: seq<Product>, rs: seq<Response<seq<Product>>>)
    ensures (forall i :: 0 <= i < |rs| ==> !Succeeded(rs[i])) ==> FetchedAll(catalog, rs) == catalog
    ensures forall i :: 0 <= i < |rs| && Succeeded(rs[i]) && (forall j :: i < j < |rs| ==> !Succeeded(rs[j])) ==>
              FetchedAll(catalog, rs) == rs[i].body
  {
    if rs != [] {
      var init := rs[..|rs| - 1];
      LastSuccessWins(catalog, init);
      forall i | 0 <= i < |init|
        ensures init[i] == rs[i]
      {
      }
    }
  }

  /** Two `getProducts` actions in a row leave the catalog that the two
      responses decide in order. */
  method FetchTwice(catalog: Catalog, r1: Response<seq<Product>>, r2: Response<seq<Product>>)
    modifies catalog
    ensures catalog.products == FetchedAll(old(catalog.products), [r1, r2])
  {
    ghost var initial := catalog.products;
    var _ := catalog.GetProducts(r1);
    assert catalog.products == Fetched(initial, r1);
    var _ := catalog.GetProducts(r2);
    assert catalog.products == Fetched(Fetched(initial, r1), r2);
    assert [r1, r2][..1] == [r1] && [r1][..0] == [];
    assert FetchedAll(initial, [r1]) == Fetched(initial, r1);
  }
}
