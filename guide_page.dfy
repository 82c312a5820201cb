/**
 * The segregation guide: the category table, the catalogue of items, and the search and
 * category filter the page shows the catalogue through.
 */
module GuidePage {
  import opened Wrappers
  import opened Text
  import Seqs

  datatype Category = Category(id: string, title: string)

  datatype Item = Item(name: string, category: string)

  const Categories: seq<Category> := [
    Category("recyclable", "Recyclable"),
    Category("organic", "Organic"),
    Category("ewaste", "E-Waste"),
    Category("hazardous", "Hazardous"),
    Category("general", "General Waste")
  ]

  const WasteItems: seq<Item> := [
    Item("Plastic Bottle", "recyclable"),
    Item("Newspaper", "recyclable"),
    Item("Cardboard Box", "recyclable"),
    Item("Glass Jar", "recyclable"),
    Item("Aluminum Can", "recyclable"),
    Item("Banana Peel", "organic"),
    Item("Leftover Food", "organic"),
    Item("Garden Trimmings", "organic"),
    Item("Coffee Grounds", "organic"),
    Item("Old Phone", "ewaste"),
    Item("Batteries", "ewaste"),
    Item("Laptop", "ewaste"),
    Item("Cables", "ewaste"),
    Item("Paint Can", "hazardous"),
    Item("Light Bulb", "hazardous"),
    Item("Medical Waste", "hazardous"),
    Item("Cleaning Chemicals", "hazardous"),
    Item("Diapers", "general"),
    Item("Styrofoam", "general"),
    Item("Chip Bags", "general"),
    Item("Broken Ceramics", "general")
  ]

  /** The category selected on arrival: the URL's `category` parameter when non-empty, else `all`. */
  function InitialCategory(param: Option<string>): (c: string)
    ensures param.Some? && param.value != "" ==> c == param.value
    ensures param.None? || param.value == "" ==> c == "all"
  {
    if param.Some? && param.value != "" then param.value else "all"
  }

  /** An item is shown when its name contains the query, ignoring case, and its category is selected. */
  predicate Matches(query: string, category: string, item: Item) {
    Contains(Lower(item.name), Lower(query)) && (category == "all" || item.category == category)
  }

  /** `wasteItems.filter(...)`: the catalogue's matching items, in catalogue order. */
  function FilteredItems(query: string, category: string): (r: seq<Item>)
    ensures forall item :: item in r <==> item in WasteItems && Matches(query, category, item)
    ensures Seqs.IsSubsequence(r, WasteItems)
  {
    Seqs.Filter(WasteItems, item => Matches(query, category, item))
  }

  /** Every string contains the empty one. */
  lemma ContainsEmpty(s: string)
    ensures Contains(s, "")
  {
  }

  /** With no query and every category selected, the whole catalogue is shown in order. */
  lemma EmptySearchShowsAll()
    ensures FilteredItems("", "all") == WasteItems
  {
    forall i | 0 <= i < |WasteItems|
      ensures Matches("", "all", WasteItems[i])
    {
      ContainsEmpty(Lower(WasteItems[i].name));
    }
    Seqs.FilterKeepsAll(WasteItems, item => Matches("", "all", item));
  }

  /** Arriving without a category (or with `all`) and before any search, the whole catalogue is shown. */
  lemma ArrivalShowsAll(param: Option<string>)
    requires param.None? || param.value == "" || param.value == "all"
    ensures FilteredItems("", InitialCategory(param)) == WasteItems
  {
    var c := InitialCategory(param);
    assert c == "all";
    EmptySearchShowsAll();
  }

  /** A category no item belongs to, such as an unknown URL parameter, shows nothing. */
  lemma UnknownCategoryShowsNothing(query: string, category: string)
    requires category != "all"
    requires forall i :: 0 <= i < |WasteItems| ==> WasteItems[i].category != category
    ensures FilteredItems(query, category) == []
  {
  }

  /** `categories.find(c => c.id === id)`. */
  function FindCategory(id: string): (r: Option<Category>)
    ensures r.Some? ==> r.value in Categories && r.value.id == id
    ensures r.None? ==> forall c :: c in Categories ==> c.id != id
  {
    FindIn(Categories, id)
  }

  function FindIn(cs: seq<Category>, id: string): (r: Option<Category>)
    ensures r.Some? ==> r.value in cs && r.value.id == id
    ensures r.None? ==> forall c :: c in cs ==> c.id != id
  {
    if cs == [] then None
    else if cs[0].id == id then Some(cs[0])
    else FindIn(cs[1..], id)
  }

  /** Every catalogue item names a declared category, so each card finds its icon and colours. */
  lemma EveryItemHasCategory()
    ensures forall i :: 0 <= i < |WasteItems| ==> FindCategory(WasteItems[i].category).Some?
  {
    forall i | 0 <= i < |WasteItems|
      ensures FindCategory(WasteItems[i].category).Some?
    {
      var id := WasteItems[i].category;
      assert id in {"recyclable", "organic", "ewaste", "hazardous", "general"};
      assert Categories[0] in Categories && Categories[1] in Categories && Categories[2] in Categories;
      assert Categories[3] in Categories && Categories[4] in Categories;
    }
  }
}
