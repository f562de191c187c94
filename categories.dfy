/**
 * The fixed table of expense categories and its lookups. Icons are the names
 * of the icon components the table refers to.
 */
module ExpenseCategories {

  import opened Records

  datatype Icon =
    | Utensils | Coffee | ShoppingCart | ShoppingBag | Plane | Car | Home | Film
    | Ticket | Wifi | Droplets | GraduationCap | Stethoscope | Heart | Gift
    | Smartphone | CreditCard | Baby | Music | Book | MoreHorizontal | DollarSign

  datatype Category = Category(id: string, name: string, icon: Icon)

  /** The table's entries, key and value, in declaration order. */
  const Entries: seq<(string, Category)> := [
    ("foodDrink", Category("foodDrink", "Food & Drink", Utensils)),
    ("coffee", Category("coffee", "Coffee", Coffee)),
    ("groceries", Category("groceries", "Groceries", ShoppingCart)),
    ("shopping", Category("shopping", "Shopping", ShoppingBag)),
    ("travel", Category("travel", "Travel", Plane)),
    ("transportation", Category("transportation", "Transportation", Car)),
    ("housing", Category("housing", "Housing", Home)),
    ("entertainment", Category("entertainment", "Entertainment", Film)),
    ("tickets", Category("tickets", "Tickets", Ticket)),
    ("utilities", Category("utilities", "Utilities", Wifi)),
    ("water", Category("water", "Water", Droplets)),
    ("education", Category("education", "Education", GraduationCap)),
    ("health", Category("health", "Health", Stethoscope)),
    ("personal", Category("personal", "Personal", Heart)),
    ("gifts", Category("gifts", "Gifts", Gift)),
    ("technology", Category("technology", "Technology", Smartphone)),
    ("bills", Category("bills", "Bills & Fees", CreditCard)),
    ("baby", Category("baby", "Baby & Kids", Baby)),
    ("music", Category("music", "Music", Music)),
    ("books", Category("books", "Books", Book)),
    ("other", Category("other", "Other", MoreHorizontal)),
    ("general", Category("general", "General Expense", DollarSign))
  ]

  /** The category of `key` in the table, if the table has that key. */
  function Lookup(key: string): (r: Option<Category>)
    ensures r.Some? <==> exists i :: 0 <= i < |Entries| && Entries[i].0 == key
    ensures r.Some? ==> exists i :: 0 <= i < |Entries| && Entries[i] == (key, r.value)
  {
    LookupIn(Entries, key)
  }

  function LookupIn(entries: seq<(string, Category)>, key: string): (r: Option<Category>)
    ensures r.Some? <==> exists i :: 0 <= i < |entries| && entries[i].0 == key
    ensures r.Some? ==> exists i :: 0 <= i < |entries| && entries[i] == (key, r.value)
  {
    if entries == [] then None
    else if entries[0].0 == key then Some(entries[0].1)
    else
      var r := LookupIn(entries[1..], key);
      assert forall i :: 0 < i < |entries| ==> entries[i] == entries[1..][i - 1];
      if r.Some? then
        var i :| 0 <= i < |entries[1..]| && entries[1..][i] == (key, r.value);
        assert entries[i + 1] == (key, r.value);
        r
      else r
  }

  /** Every entry's category carries its own key as id, and no key repeats. */
  lemma TableWellFormed()
    ensures forall i :: 0 <= i < |Entries| ==> Entries[i].1.id == Entries[i].0
    ensures forall i, j :: 0 <= i < j < |Entries| ==> Entries[i].0 != Entries[j].0
  {
  }

  const OtherCategory: Category := Category("other", "Other", MoreHorizontal)

  /** `getCategoryById`: the table's category for `categoryId`, else "other". */
  function CategoryById(categoryId: string): (r: Category)
    ensures Lookup(categoryId).Some? ==> r == Lookup(categoryId).value && r.id == categoryId
    ensures Lookup(categoryId).None? ==> r == OtherCategory
    ensures exists i :: 0 <= i < |Entries| && Entries[i].1 == r
  {
    TableWellFormed();
    var found := Lookup(categoryId);
    if found.Some? then found.value
    else
      assert Entries[20].1 == OtherCategory;
      OtherCategory
  }

  /** `getAllCategories`: the table's values in declaration order. */
  function AllCategories(): (r: seq<Category>)
    ensures |r| == 22 == |Entries|
    ensures forall i :: 0 <= i < |r| ==> r[i] == Entries[i].1 && CategoryById(r[i].id) == r[i]
  {
    TableWellFormed();
    var r := seq(|Entries|, i requires 0 <= i < |Entries| => Entries[i].1);
    forall i | 0 <= i < |r|
      ensures CategoryById(r[i].id) == r[i]
    {
      var c := Lookup(r[i].id);
      var j :| 0 <= j < |Entries| && Entries[j] == (r[i].id, c.value);
      assert Entries[j].0 == Entries[i].0;
    }
    r
  }

  /** `getCategoryIcon` */
  function CategoryIcon(categoryId: string): (r: Icon)
    ensures r == CategoryById(categoryId).icon
    ensures Lookup(categoryId).None? ==> r == MoreHorizontal
  {
    CategoryById(categoryId).icon
  }
}
