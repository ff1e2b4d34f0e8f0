// The Repository pattern: in-memory stores of users and products keyed by an
// auto-increment id, the queries on top of them, and the services that use
// only the repository interface.
module Repository {
  import opened Wrappers
  import opened Dicts
  import Seqs
  import Text

  /** `User` (its creation time is not modelled). */
  datatype User = User(id: Option<int>, username: string, email: string, fullName: string, isActive: bool)

  datatype Product = Product(id: Option<int>, name: string, price: real, stock: int, category: string)

  /** `f"{id}"` for an optional id: Python prints a missing id as `None`. */
  function IdText(id: Option<int>): string
  {
    match id
    case None => "None"
    case Some(i) => Text.IntToString(i)
  }

  /** Python's truth test `if user.id`: present and non-zero. */
  predicate Truthy(id: Option<int>)
  {
    id.Some? && id.value != 0
  }

  /**
   * `InMemoryUserRepository` and `InMemoryProductRepository`: the same dict-backed
   * store, parameterised by how an item's id is read and set.
   */
  class InMemoryRepository<T(!new)> {
    /** The entity name used in the `update` error, "User" or "Product". */
    const entity: string
    const idOf: T -> Option<int>
    const withId: (T, int) -> T
    var items: Dict<int, T>
    var nextId: int

    ghost predicate Valid()
      reads this
    {
      StoredUnder(items, idOf, nextId) && forall t, i :: idOf(withId(t, i)) == Some(i)
    }

    constructor (entity: string, idOf: T -> Option<int>, withId: (T, int) -> T)
      requires forall t, i :: idOf(withId(t, i)) == Some(i)
      ensures Valid() && FindAll() == [] && nextId == 1
      ensures this.entity == entity && this.idOf == idOf && this.withId == withId
    {
      this.entity := entity;
      this.idOf := idOf;
      this.withId := withId;
      items := Empty();
      nextId := 1;
    }

    /** `find_all`: every item, in the order it was added, which is increasing id order. */
    function FindAll(): (all: seq<T>)
      reads this
      requires Valid()
      ensures forall i :: 0 <= i < |all| ==> idOf(all[i]).Some?
      ensures forall i, j :: 0 <= i < j < |all| ==> idOf(all[i]).value < idOf(all[j]).value
    {
      items.Values()
    }

    /** `find_by_id`. */
    function FindById(id: int): (r: Option<T>)
      reads this
      requires Valid()
      ensures r.Some? <==> id in items.entries
      ensures r.Some? ==> idOf(r.value) == Some(id) && r.value in FindAll()
    {
      if id in items.entries then
        var i := items.IndexOfKey(id);
        assert FindAll()[i] == items.entries[id];
        Some(items.entries[id])
      else None
    }

    /** `add`: gives the item the next id, stores it and returns it. */
    method Add(t: T) returns (stored: T)
      requires Valid()
      modifies this
      ensures Valid()
      ensures stored == withId(t, old(nextId)) && nextId == old(nextId) + 1
      ensures items == old(items).Put(old(nextId), stored)
      ensures FindAll() == old(FindAll()) + [stored]
    {
      var id, d := nextId, items;
      stored := withId(t, id);
      assert idOf(stored) == Some(id);
      AddKeepsStored(d, idOf, id, stored);
      ValuesPutNew(d, id, stored);
      items := d.Put(id, stored);
      nextId := id + 1;
    }

    /** `update`: replaces the stored item with the same id, or fails when there is none. */
    method Update(t: T) returns (r: Result<T>)
      requires Valid()
      modifies this
      ensures Valid() && nextId == old(nextId)
      ensures (Truthy(idOf(t)) && idOf(t).value in old(items.entries)) ==>
        r == Ok(t) && items == old(items).Put(idOf(t).value, t)
      ensures !(Truthy(idOf(t)) && idOf(t).value in old(items.entries)) ==>
        r == Err(entity + " with id " + IdText(idOf(t)) + " not found") && items == old(items)
    {
      var id := idOf(t);
      if Truthy(id) && id.value in items.entries {
        ReplaceKeepsStored(items, idOf, nextId, id.value, t);
        items := items.Put(id.value, t);
        r := Ok(t);
      } else {
        r := Err(entity + " with id " + IdText(id) + " not found");
      }
    }

    /** `delete`: removes the item with that id and says whether there was one. */
    method Delete(id: int) returns (deleted: bool)
      requires Valid()
      modifies this
      ensures Valid() && nextId == old(nextId)
      ensures deleted <==> id in old(items.entries)
      ensures deleted ==> items == old(items).Remove(id)
      ensures !deleted ==> items == old(items)
      ensures FindById(id).None?
    {
      deleted := id in items.entries;
      if deleted {
        RemoveKeepsStored(items, idOf, nextId, id);
        items := items.Remove(id);
      }
    }
  }

  function UserIdOf(u: User): Option<int> { u.id }
  function UserWithId(u: User, i: int): User { u.(id := Some(i)) }
  function ProductIdOf(p: Product): Option<int> { p.id }
  function ProductWithId(p: Product, i: int): Product { p.(id := Some(i)) }

  method NewUserRepository() returns (repo: InMemoryRepository<User>)
    ensures fresh(repo) && repo.Valid() && repo.FindAll() == [] && repo.entity == "User"
    ensures repo.idOf == UserIdOf && repo.withId == UserWithId
  {
    repo := new InMemoryRepository("User", UserIdOf, UserWithId);
  }

  method NewProductRepository() returns (repo: InMemoryRepository<Product>)
    ensures fresh(repo) && repo.Valid() && repo.FindAll() == [] && repo.entity == "Product"
    ensures repo.idOf == ProductIdOf && repo.withId == ProductWithId
  {
    repo := new InMemoryRepository("Product", ProductIdOf, ProductWithId);
  }

  // Custom queries of the user repository.

  function UsernameIs(name: string): User -> bool { (u: User) => u.username == name }
  function EmailIs(email: string): User -> bool { (u: User) => u.email == email }
  function IsActive(): User -> bool { (u: User) => u.isActive }

  /** `find_by_username`: the earliest-added user with that name. */
  function FindByUsername(repo: InMemoryRepository<User>, name: string): (r: Option<User>)
    reads repo
    requires repo.Valid()
    ensures r.Some? ==> r.value in repo.FindAll() && r.value.username == name
    ensures r.Some? ==>
      exists i :: 0 <= i < |repo.FindAll()| && repo.FindAll()[i] == r.value &&
        forall j :: 0 <= j < i ==> repo.FindAll()[j].username != name
    ensures r.None? <==> forall u :: u in repo.FindAll() ==> u.username != name
  {
    Seqs.FindFirst(repo.FindAll(), UsernameIs(name))
  }

  /** `find_by_email`: the earliest-added user with that address. */
  function FindByEmail(repo: InMemoryRepository<User>, email: string): (r: Option<User>)
    reads repo
    requires repo.Valid()
    ensures r.Some? ==> r.value in repo.FindAll() && r.value.email == email
    ensures r.Some? ==>
      exists i :: 0 <= i < |repo.FindAll()| && repo.FindAll()[i] == r.value &&
        forall j :: 0 <= j < i ==> repo.FindAll()[j].email != email
    ensures r.None? <==> forall u :: u in repo.FindAll() ==> u.email != email
  {
    Seqs.FindFirst(repo.FindAll(), EmailIs(email))
  }

  /** `find_active_users`. */
  function FindActiveUsers(repo: InMemoryRepository<User>): (r: seq<User>)
    reads repo
    requires repo.Valid()
    ensures forall u :: u in r <==> u in repo.FindAll() && u.isActive
    ensures Seqs.IsSubsequence(r, repo.FindAll())
  {
    Seqs.FilterMembers(repo.FindAll(), IsActive());
    Seqs.FilterIsSubsequence(repo.FindAll(), IsActive());
    Seqs.Filter(repo.FindAll(), IsActive())
  }

  // Custom queries of the product repository.

  function CategoryIs(category: string): Product -> bool { (p: Product) => p.category == category }
  function InStock(): Product -> bool { (p: Product) => p.stock > 0 }
  function PriceWithin(lo: real, hi: real): Product -> bool { (p: Product) => lo <= p.price <= hi }

  function FindByCategory(repo: InMemoryRepository<Product>, category: string): (r: seq<Product>)
    reads repo
    requires repo.Valid()
    ensures forall p :: p in r <==> p in repo.FindAll() && p.category == category
    ensures Seqs.IsSubsequence(r, repo.FindAll())
  {
    Seqs.FilterMembers(repo.FindAll(), CategoryIs(category));
    Seqs.FilterIsSubsequence(repo.FindAll(), CategoryIs(category));
    Seqs.Filter(repo.FindAll(), CategoryIs(category))
  }

  function FindInStock(repo: InMemoryRepository<Product>): (r: seq<Product>)
    reads repo
    requires repo.Valid()
    ensures forall p :: p in r <==> p in repo.FindAll() && p.stock > 0
    ensures Seqs.IsSubsequence(r, repo.FindAll())
  {
    Seqs.FilterMembers(repo.FindAll(), InStock());
    Seqs.FilterIsSubsequence(repo.FindAll(), InStock());
    Seqs.Filter(repo.FindAll(), InStock())
  }

  /** `find_by_price_range`: both bounds inclusive. */
  function FindByPriceRange(repo: InMemoryRepository<Product>, lo: real, hi: real): (r: seq<Product>)
    reads repo
    requires repo.Valid()
    ensures forall p :: p in r <==> p in repo.FindAll() && lo <= p.price <= hi
    ensures Seqs.IsSubsequence(r, repo.FindAll())
  {
    Seqs.FilterMembers(repo.FindAll(), PriceWithin(lo, hi));
    Seqs.FilterIsSubsequence(repo.FindAll(), PriceWithin(lo, hi));
    Seqs.Filter(repo.FindAll(), PriceWithin(lo, hi))
  }

  // The service layer: it reaches storage only through the repository's operations.

  /** `UserService.register_user`: a new active user with the next id. */
  method RegisterUser(repo: InMemoryRepository<User>, username: string, email: string, fullName: string)
    returns (user: User)
    requires repo.Valid() && repo.withId == UserWithId
    modifies repo
    ensures repo.Valid()
    ensures user == User(Some(old(repo.nextId)), username, email, fullName, true)
    ensures repo.FindAll() == old(repo.FindAll()) + [user]
  {
    user := repo.Add(User(None, username, email, fullName, true));
  }

  /** `UserService.deactivate_user`: marks a stored user inactive, or returns None. */
  method DeactivateUser(repo: InMemoryRepository<User>, id: int) returns (r: Option<User>)
    requires repo.Valid() && repo.idOf == UserIdOf
    modifies repo
    ensures repo.Valid()
    ensures old(repo.FindById(id)).None? ==> r.None? && repo.items == old(repo.items)
    ensures old(repo.FindById(id)).Some? ==>
      r == Some(old(repo.FindById(id)).value.(isActive := false)) &&
      repo.items == old(repo.items).Put(id, r.value) && repo.FindById(id) == r
  {
    var found := repo.FindById(id);
    if found.Some? {
      var u := found.value.(isActive := false);
      var updated := repo.Update(u);
      r := Some(u);
    } else {
      r := None;
    }
  }

  /** `ProductService.search_by_budget`: products priced from 0 up to the budget. */
  function SearchByBudget(repo: InMemoryRepository<Product>, budget: real): (r: seq<Product>)
    reads repo
    requires repo.Valid()
    ensures forall p :: p in r <==> p in repo.FindAll() && 0.0 <= p.price <= budget
    ensures Seqs.IsSubsequence(r, repo.FindAll())
    ensures r == FindByPriceRange(repo, 0.0, budget)
  {
    FindByPriceRange(repo, 0.0, budget)
  }

  /** `ProductService.add_product`. */
  method AddProduct(repo: InMemoryRepository<Product>, name: string, price: real, stock: int, category: string)
    returns (product: Product)
    requires repo.Valid() && repo.withId == ProductWithId
    modifies repo
    ensures repo.Valid()
    ensures product == Product(Some(old(repo.nextId)), name, price, stock, category)
    ensures repo.FindAll() == old(repo.FindAll()) + [product]
  {
    product := repo.Add(Product(None, name, price, stock, category));
  }

  /** `ProductService.get_available_products`. */
  function AvailableProducts(repo: InMemoryRepository<Product>): (r: seq<Product>)
    reads repo
    requires repo.Valid()
    ensures forall p :: p in r <==> p in repo.FindAll() && p.stock > 0
    ensures Seqs.IsSubsequence(r, repo.FindAll())
  {
    FindInStock(repo)
  }
}
