/**
 * The "my listings" page: the status filter, deleting a listing, and the edit
 * form opened on a listing and changed field by field.
 */
module MyListing {
  import opened Optional
  import Seqs

  /** One of the signed-in user's products, as `/mylistings` sends it. */
  datatype Listing = Listing(
    productId: nat,
    name: string,
    price: real,
    quantity: real,
    unit: string,
    description: string,
    status: string,
    category: string)

  /** A row of the categories list: its id and its name. */
  datatype Category = Category(categoryId: nat, name: string)

  /** A value held in the edit form: numbers and ids as loaded, strings as typed. */
  datatype Value = Text(s: string) | Number(r: real) | Id(n: nat)

  /** The listings shown under a status button: all for "all", otherwise exactly those with that status, in order. */
  function FilteredListings(listings: seq<Listing>, filter: string): (r: seq<Listing>)
    ensures Seqs.IsSubseq(r, listings)
    ensures forall l :: l in r <==> l in listings && (filter == "all" || l.status == filter)
  {
    Seqs.FilterIsSubseq(listings, (l: Listing) => filter == "all" || l.status == filter);
    Seqs.Filter(listings, (l: Listing) => filter == "all" || l.status == filter)
  }

  /** The "all" button shows every listing. */
  lemma FilteredListingsAll(listings: seq<Listing>)
    ensures FilteredListings(listings, "all") == listings
  {
    Seqs.FilterAll(listings, (l: Listing) => "all" == "all" || l.status == "all");
  }

  /** The list after deleting product `id`: every listing with another id, in order. */
  function WithoutProduct(listings: seq<Listing>, id: nat): (r: seq<Listing>)
    ensures Seqs.IsSubseq(r, listings)
    ensures forall l :: l in r <==> l in listings && l.productId != id
    ensures forall l: Listing :: l.productId != id ==> multiset(r)[l] == multiset(listings)[l]
  {
    var p := (l: Listing) => l.productId != id;
    Seqs.FilterIsSubseq(listings, p);
    forall l: Listing | l.productId != id ensures multiset(Seqs.Filter(listings, p))[l] == multiset(listings)[l] {
      Seqs.FilterCounts(listings, p, l);
    }
    Seqs.Filter(listings, p)
  }

  /** `categories.find(cat => cat.name === name)`, reduced to its id: the first category of that name. */
  function FirstCategoryId(categories: seq<Category>, name: string): (r: Option<nat>)
    ensures r.None? <==> forall i :: 0 <= i < |categories| ==> categories[i].name != name
    ensures r.Some? ==> exists i :: && 0 <= i < |categories| && categories[i].name == name
                                    && categories[i].categoryId == r.value
                                    && forall j :: 0 <= j < i ==> categories[j].name != name
  {
    if categories == [] then None
    else if categories[0].name == name then Some(categories[0].categoryId)
    else
      var r := FirstCategoryId(categories[1..], name);
      assert forall i :: 1 <= i < |categories| ==> categories[i] == categories[1..][i - 1];
      if r.Some? then
        var k :| && 0 <= k < |categories| - 1 && categories[1..][k].name == name
                 && categories[1..][k].categoryId == r.value
                 && forall j :: 0 <= j < k ==> categories[1..][j].name != name;
        assert forall j :: 0 <= j < k + 1 ==> categories[j].name != name by {
          forall j | 0 <= j < k + 1 ensures categories[j].name != name {
            if j > 0 {
              assert categories[j] == categories[1..][j - 1];
            }
          }
        }
        r
      else
        r
  }

  /** The edit form `handleEdit` fills in from a listing; `category_id` is "" when no category has the listing's name. */
  function EditForm(listing: Listing, categories: seq<Category>): (m: map<string, Value>)
    ensures m.Keys == {"name", "price", "quantity", "unit", "description", "status", "category_id"}
    ensures m["name"] == Text(listing.name) && m["price"] == Number(listing.price)
    ensures m["quantity"] == Number(listing.quantity) && m["unit"] == Text(listing.unit)
    ensures m["description"] == Text(listing.description) && m["status"] == Text(listing.status)
    ensures m["category_id"] == match FirstCategoryId(categories, listing.category)
                                case Some(id) => Id(id)
                                case None => Text("")
  {
    var matched := FirstCategoryId(categories, listing.category);
    map[
      "name" := Text(listing.name),
      "price" := Number(listing.price),
      "quantity" := Number(listing.quantity),
      "unit" := Text(listing.unit),
      "description" := Text(listing.description),
      "status" := Text(listing.status),
      "category_id" := if matched.Some? then Id(matched.value) else Text("")]
  }

  /** The category chosen in the edit form names the listing's category whenever one exists. */
  lemma EditFormCategory(listing: Listing, categories: seq<Category>)
    ensures EditForm(listing, categories)["category_id"].Id? <==> exists c :: c in categories && c.name == listing.category
    ensures EditForm(listing, categories)["category_id"].Id? ==>
      Category(EditForm(listing, categories)["category_id"].n, listing.category) in categories
  {
    var r := FirstCategoryId(categories, listing.category);
    if r.None? {
      forall c | c in categories ensures c.name != listing.category {
        var i :| 0 <= i < |categories| && categories[i] == c;
      }
    } else {
      var i :| 0 <= i < |categories| && categories[i].name == listing.category && categories[i].categoryId == r.value;
      assert categories[i] == Category(r.value, listing.category);
    }
  }

  class MyListingPage {
    var listings: seq<Listing>
    var filter: string
    var error: Option<string>
    var editId: Option<nat>
    var editData: map<string, Value>

    constructor ()
      ensures listings == [] && filter == "all" && error == None && editId == None && editData == map[]
    {
      listings, filter, error := [], "all", None;
      editId, editData := None, map[];
    }

    /** `fetchListings`: the reply replaces the list; a failed fetch keeps it and sets the error text. */
    method LoadListings(reply: Option<seq<Listing>>)
      modifies this`listings, this`error
      ensures reply.Some? ==> listings == reply.value && error == old(error)
      ensures reply.None? ==> listings == old(listings) && error == Some("Failed to load your listings.")
    {
      if reply.Some? {
        listings := reply.value;
      } else {
        error := Some("Failed to load your listings.");
      }
    }

    /** A status button. */
    method SetFilter(value: string)
      modifies this`filter
      ensures filter == value
    {
      filter := value;
    }

    /**
     * `handleDelete(id)`: once the user confirms and the server deletes the
     * product, the listings with that id leave the list; otherwise it stays.
     */
    method HandleDelete(id: nat, confirmed: bool, deleted: bool)
      modifies this`listings
      ensures listings == if confirmed && deleted then WithoutProduct(old(listings), id) else old(listings)
    {
      if !confirmed {
        return;
      }
      if deleted {
        listings := WithoutProduct(listings, id);
      }
    }

    /** `handleEdit(listing)`: the listing becomes the one being edited, with its values in the form. */
    method HandleEdit(listing: Listing, categories: seq<Category>)
      modifies this`editId, this`editData
      ensures editId == Some(listing.productId)
      ensures editData == EditForm(listing, categories)
    {
      editId := Some(listing.productId);
      editData := EditForm(listing, categories);
    }

    /** `handleEditChange`: the named field takes the typed value; every other field keeps its value. */
    method HandleEditChange(name: string, value: string)
      modifies this`editData
      ensures editData == old(editData)[name := Text(value)]
    {
      editData := editData[name := Text(value)];
    }
  }

  /** A field change touches that one field: no other key appears, disappears or changes. */
  lemma EditChangeOnlyThatField(m: map<string, Value>, name: string, value: string, other: string)
    requires other != name
    ensures other in m[name := Text(value)] <==> other in m
    ensures other in m ==> m[name := Text(value)][other] == m[other]
    ensures m[name := Text(value)].Keys == m.Keys + {name}
  {
  }
}
