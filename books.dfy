/** The catalogue entry `Book` (models.py, class Book). */
module Books {
  import opened Results

  /** A book as the shop sells it. The price is in cents. */
  datatype Book = Book(title: string, category: string, price: int, image: string) {
    /** The invariant the constructor establishes. */
    predicate Valid() { price >= 0 }
  }

  const NegativePrice := ValueError("Price must be non-negative")

  /** `Book(title, category, price, image)`: fails exactly when the price is negative, and
      otherwise keeps every argument unchanged. */
  function NewBook(title: string, category: string, price: int, image: string): (r: Result<Book>)
    ensures r.Err? <==> price < 0
    ensures r.Err? ==> r.error == NegativePrice
    ensures r.Ok? ==> r.value.Valid()
    ensures r.Ok? ==> (r.value.title == title && r.value.category == category &&
                       r.value.price == price && r.value.image == image)
  {
    if price < 0 then Err(NegativePrice) else Ok(Book(title, category, price, image))
  }
}
