/** The handlers of `/categories`: categories are shared by every user and unique by name. */
module CategoryRoutes {

  import opened Wrappers
  import opened Ledger
  import opened Tables
  import opened Backend

  const CategoryExists := HttpError(400, "Category already exists")
  const CategoryNotFound := HttpError(404, "Category not found")

  /** `GET /categories`: every stored category; the query does not depend on the user. */
  function GetCategories(db: Database): (r: seq<Category>)
    reads db
    ensures r == db.categories
  {
    db.categories
  }

  predicate HasName(s: seq<Category>, name: string)
  {
    exists i :: 0 <= i < |s| && s[i].name == name
  }

  /**
    * `POST /categories`: 400 for a name already present; otherwise one new
    * category with that name. After a success the name is present, so a second
    * call with the same name is refused.
    */
  method CreateCategory(db: Database, name: string) returns (r: Result<Category, HttpError>)
    requires db.Valid()
    modifies db
    ensures db.Valid()
    ensures db.accounts == old(db.accounts) && db.transactions == old(db.transactions)
    ensures old(HasName(db.categories, name)) ==> r == Err(CategoryExists) && db.categories == old(db.categories)
    ensures !old(HasName(db.categories, name)) ==>
              && r == Ok(Category(old(NextRowId(db.categories, CategoryRowKey)), name))
              && db.categories == old(db.categories) + [r.value]
    ensures r.Ok? ==> HasName(db.categories, name)
  {
    if HasName(db.categories, name) {
      return Err(CategoryExists);
    }
    var c := Category(NextRowId(db.categories, CategoryRowKey), name);
    AppendUnique(db.categories, CategoryRowKey, c);
    db.categories := db.categories + [c];
    assert db.categories[|db.categories| - 1] == c;
    r := Ok(c);
  }

  /** `DELETE /categories/{id}`: 404 for a missing id; otherwise removes exactly that category. */
  method DeleteCategoryRoute(db: Database, categoryId: int) returns (r: Result<string, HttpError>)
    requires db.Valid()
    modifies db
    ensures db.Valid()
    ensures db.accounts == old(db.accounts) && db.transactions == old(db.transactions)
    ensures IndexOf(old(db.categories), CategoryRowKey, categoryId).None? ==>
              r == Err(CategoryNotFound) && db.categories == old(db.categories)
    ensures IndexOf(old(db.categories), CategoryRowKey, categoryId).Some? ==>
              && r == Ok("Category deleted successfully")
              && db.categories == RemoveAt(old(db.categories), IndexOf(old(db.categories), CategoryRowKey, categoryId).value)
  {
    var k := IndexOf(db.categories, CategoryRowKey, categoryId);
    if k.None? {
      return Err(CategoryNotFound);
    }
    RemoveUnique(db.categories, CategoryRowKey, k.value);
    db.categories := RemoveAt(db.categories, k.value);
    r := Ok("Category deleted successfully");
  }
}
