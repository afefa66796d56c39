/** The product records the stores hold. */
module Products {

  /** A product as parsed from the server's JSON: `{ id, name, price }`.
      It is never changed once created, so its fields are constants; it is a
      class so that two products compare by identity, as JavaScript objects
      do under `===`. */
  class Product {
    const id: int
    const name: string
    const price: int

    constructor (id: int, name: string, price: int)
      ensures this.id == id && this.name == name && this.price == price
    {
      this.id := id;
      this.name := name;
      this.price := price;
    }
  }
}
