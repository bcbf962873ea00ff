/** The menu item document: its fields, the closed category list, the schema's bounds
    and the defaults it fills in when a document is created. */
module MenuItemSchema {
  import opened Common

  datatype Category = Breakfast | Lunch | Dinner | Snacks | Beverages | Desserts

  function CategoryName(c: Category): string {
    match c
    case Breakfast => "breakfast"
    case Lunch => "lunch"
    case Dinner => "dinner"
    case Snacks => "snacks"
    case Beverages => "beverages"
    case Desserts => "desserts"
  }

  /** The enum check: a request's category string names one of the six categories. */
  function ParseCategory(s: string): (r: Option<Category>)
    ensures r.Some? ==> CategoryName(r.value) == s
  {
    if s == "breakfast" then Some(Breakfast)
    else if s == "lunch" then Some(Lunch)
    else if s == "dinner" then Some(Dinner)
    else if s == "snacks" then Some(Snacks)
    else if s == "beverages" then Some(Beverages)
    else if s == "desserts" then Some(Desserts)
    else None
  }

  /** Every category's own name is accepted, and only it names that category. */
  lemma CategoryRoundTrip(c: Category, s: string)
    ensures ParseCategory(CategoryName(c)) == Some(c)
    ensures ParseCategory(s) == Some(c) <==> s == CategoryName(c)
  {
  }

  const MinPrice: int := 1
  const MaxPrice: int := 10000
  const MinPreparationTime: int := 5
  const MaxPreparationTime: int := 120
  const DefaultPreparationTime: int := 15
  const MaxNameLength: int := 100
  const MaxDescriptionLength: int := 500

  datatype MenuItem = MenuItem(
    vendorId: UserId,
    name: string,
    description: string,
    price: int,
    category: Category,
    image: string,
    isAvailable: bool,
    preparationTime: int)

  /** The schema's constraints on a stored item: trimmed name of 2..100 characters, a
      non-empty trimmed description of at most 500, price in 1..10000 and preparation
      time in 5..120 minutes (the category is an enum by construction). */
  predicate SchemaValid(m: MenuItem) {
    && IsTrimmed(m.name) && 2 <= |m.name| <= MaxNameLength
    && IsTrimmed(m.description) && 1 <= |m.description| <= MaxDescriptionLength
    && MinPrice <= m.price <= MaxPrice
    && MinPreparationTime <= m.preparationTime <= MaxPreparationTime
  }

  /** `new MenuItem({...})`: the trim setters run on name and description, and
      `isAvailable` takes its default. */
  function NewMenuItem(vendorId: UserId, name: string, description: string, price: int,
                       category: Category, image: string, preparationTime: int): (m: MenuItem)
    ensures m.isAvailable
    ensures m.vendorId == vendorId && m.price == price && m.category == category
    ensures m.name == Trim(name) && m.description == Trim(description)
  {
    MenuItem(vendorId, Trim(name), Trim(description), price, category, image, true, preparationTime)
  }

  /** A new item satisfies the schema exactly when its trimmed strings and numbers are
      within the bounds. */
  lemma NewMenuItemSchema(vendorId: UserId, name: string, description: string, price: int,
                          category: Category, image: string, preparationTime: int)
    ensures SchemaValid(NewMenuItem(vendorId, name, description, price, category, image, preparationTime))
        <==> (&& 2 <= |Trim(name)| <= MaxNameLength
              && 1 <= |Trim(description)| <= MaxDescriptionLength
              && MinPrice <= price <= MaxPrice
              && MinPreparationTime <= preparationTime <= MaxPreparationTime)
  {
    TrimFixpoint(name);
    TrimFixpoint(description);
  }

  /** The messages of the schema's validators, path by path in declaration order: at most
      one per path, `required` first. (`trim` is a setter, not a validator.) */
  function SchemaErrors(m: MenuItem): (errs: seq<Message>)
    ensures |errs| == 0 <==> (&& 2 <= |m.name| <= MaxNameLength
                             && 1 <= |m.description| <= MaxDescriptionLength
                             && MinPrice <= m.price <= MaxPrice
                             && MinPreparationTime <= m.preparationTime <= MaxPreparationTime)
    ensures IsTrimmed(m.name) && IsTrimmed(m.description) ==> (|errs| == 0 <==> SchemaValid(m))
  {
    var name :=
      if m.name == [] then [ItemNameRequired]
      else if |m.name| < 2 then [ItemNameMin2]
      else if |m.name| > MaxNameLength then [ItemNameTooLong]
      else [];
    var description :=
      if m.description == [] then [DescriptionRequired]
      else if |m.description| > MaxDescriptionLength then [DescriptionTooLong]
      else [];
    var price :=
      if m.price < MinPrice then [PriceMin1]
      else if m.price > MaxPrice then [PriceOverMax]
      else [];
    var preparation :=
      if m.preparationTime < MinPreparationTime then [PreparationTimeMin]
      else if m.preparationTime > MaxPreparationTime then [PreparationTimeMax]
      else [];
    name + description + price + preparation
  }
}
