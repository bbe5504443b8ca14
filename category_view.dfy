/** The categories screen: a two-mode view, categories or the subcategories of one category. */
module CategoryView {
  import opened Wrappers
  import opened Endpoints
  import opened Http

  datatype Category = Category(id: string, name: string, icon: Option<string>, subCategoryCount: Option<int>,
                               isActive: bool, isFeatured: bool)

  datatype SubCategory = SubCategory(id: string, name: string, icon: Option<string>, isActive: bool, isFeatured: bool)

  datatype Mode = CategoryMode | SubcategoryMode

  const CategoryColumns: seq<string> := ["Icon", "Name", "Sub Categories", "Status", "Featured"]
  const SubCategoryColumns: seq<string> := ["Icon", "Name", "Status", "Featured"]

  /** The table on screen: its column titles and its rows. */
  datatype Table = CategoryTable(columns: seq<string>, categories: seq<Category>)
                 | SubcategoryTable(columns: seq<string>, subCategories: seq<SubCategory>)

  /** Columns and data come as a pair from the current mode. */
  function ShownTable(mode: Mode, categories: seq<Category>, subCategories: seq<SubCategory>): (t: Table)
    ensures mode == CategoryMode <==> t.CategoryTable?
    ensures t.CategoryTable? ==> t.columns == CategoryColumns && t.categories == categories
    ensures t.SubcategoryTable? ==> t.columns == SubCategoryColumns && t.subCategories == subCategories
  {
    if mode == CategoryMode then CategoryTable(CategoryColumns, categories)
    else SubcategoryTable(SubCategoryColumns, subCategories)
  }

  datatype AddButton = NewCategory | NewSubCategory

  /** The header's add buttons: exactly one, matching the mode. */
  function AddButtons(mode: Mode): (b: seq<AddButton>)
    ensures mode == CategoryMode ==> b == [NewCategory]
    ensures mode == SubcategoryMode ==> b == [NewSubCategory]
  {
    if mode == SubcategoryMode then [NewSubCategory] else [NewCategory]
  }

  /** The header text; a missing active category renders as `undefined`. */
  function Header(mode: Mode, active: Option<Category>): (h: string)
    ensures mode == CategoryMode ==> h == "Categories"
    ensures mode == SubcategoryMode && active.Some? ==> h == "Sub Categories of " + active.value.name
  {
    if mode == CategoryMode then "Categories"
    else "Sub Categories of " + (if active.Some? then active.value.name else "undefined")
  }

  /** The two header texts never coincide. */
  lemma HeadersDiffer(active: Option<Category>)
    ensures Header(CategoryMode, active) != Header(SubcategoryMode, active)
  {
    assert Header(SubcategoryMode, active)[0] == 'S';
  }

  /** The list load: `GET_CATEGORY` with auth. */
  const LoadCall := Call(Get, Path(GetCategory), NoBody, AuthConfig)

  /** The subcategory load of one category. */
  function SubLoadCall(c: Category): (call: Call)
    ensures call.verb == Get && call.config == AuthConfig
    ensures call.endpoint == Path(GetSubcategoryByCategory(c.id))
  {
    Call(Get, Path(GetSubcategoryByCategory(c.id)), NoBody, AuthConfig)
  }

  class CategoryScreen {
    var categories: seq<Category>
    var subCategories: seq<SubCategory>
    var activeCategory: Option<Category>
    var mode: Mode
    var loading: bool
    var openAdd: bool
    var openSubAdd: bool

    /** The subcategory mode always has an active category. */
    predicate Valid()
      reads this
    {
      mode == SubcategoryMode ==> activeCategory.Some?
    }

    constructor()
      ensures Valid()
      ensures categories == [] && subCategories == [] && activeCategory == None
      ensures mode == CategoryMode && !loading && !openAdd && !openSubAdd
    {
      categories := [];
      subCategories := [];
      activeCategory := None;
      mode := CategoryMode;
      loading := false;
      openAdd := false;
      openSubAdd := false;
    }

    method BeginLoadCategories() returns (call: Call)
      requires Valid()
      modifies this
      ensures Valid() && loading && call == LoadCall
      ensures categories == old(categories) && subCategories == old(subCategories)
      ensures activeCategory == old(activeCategory) && mode == old(mode)
      ensures openAdd == old(openAdd) && openSubAdd == old(openSubAdd)
    {
      loading := true;
      call := LoadCall;
    }

    /** `res.data.category || []` replaces the list on success; a failure keeps it. */
    method FinishLoadCategories(r: Response<Option<seq<Category>>>)
      requires Valid()
      modifies this
      ensures Valid() && !loading
      ensures r.Ok? ==> categories == r.data.GetOr([])
      ensures r.Failed? ==> categories == old(categories)
      ensures subCategories == old(subCategories) && activeCategory == old(activeCategory) && mode == old(mode)
      ensures openAdd == old(openAdd) && openSubAdd == old(openSubAdd)
    {
      if r.Ok? {
        categories := r.data.GetOr([]);
      }
      loading := false;
    }

    /** `loadSubCategories` up to the request: the category becomes active before the request. */
    method BeginLoadSub(c: Category) returns (call: Call)
      requires Valid()
      modifies this
      ensures Valid() && loading && activeCategory == Some(c) && call == SubLoadCall(c)
      ensures categories == old(categories) && subCategories == old(subCategories) && mode == old(mode)
      ensures openAdd == old(openAdd) && openSubAdd == old(openSubAdd)
    {
      loading := true;
      activeCategory := Some(c);
      call := SubLoadCall(c);
    }

    /** Only a success switches to the subcategory mode, with `subCategories || []`. */
    method FinishLoadSub(r: Response<Option<seq<SubCategory>>>)
      requires Valid() && activeCategory.Some?
      modifies this
      ensures Valid() && !loading
      ensures r.Ok? ==> subCategories == r.data.GetOr([]) && mode == SubcategoryMode
      ensures r.Failed? ==> subCategories == old(subCategories) && mode == old(mode)
      ensures categories == old(categories) && activeCategory == old(activeCategory)
      ensures openAdd == old(openAdd) && openSubAdd == old(openSubAdd)
    {
      if r.Ok? {
        subCategories := r.data.GetOr([]);
        mode := SubcategoryMode;
      }
      loading := false;
    }

    /** Back to Categories. */
    method Back()
      requires Valid()
      modifies this
      ensures Valid()
      ensures mode == CategoryMode && subCategories == [] && activeCategory == None
      ensures categories == old(categories) && loading == old(loading)
      ensures openAdd == old(openAdd) && openSubAdd == old(openSubAdd)
    {
      mode := CategoryMode;
      subCategories := [];
      activeCategory := None;
    }

    /** The add button on screen opens its own modal. */
    method ClickAdd()
      requires Valid()
      modifies this
      ensures Valid()
      ensures mode == CategoryMode ==> openAdd && openSubAdd == old(openSubAdd)
      ensures mode == SubcategoryMode ==> openSubAdd && openAdd == old(openAdd)
      ensures categories == old(categories) && subCategories == old(subCategories)
      ensures activeCategory == old(activeCategory) && mode == old(mode) && loading == old(loading)
    {
      if AddButtons(mode)[0] == NewCategory {
        openAdd := true;
      } else {
        openSubAdd := true;
      }
    }

    method CloseAdd()
      requires Valid()
      modifies this
      ensures Valid() && !openAdd
      ensures categories == old(categories) && subCategories == old(subCategories)
      ensures activeCategory == old(activeCategory) && mode == old(mode) && loading == old(loading)
      ensures openSubAdd == old(openSubAdd)
    {
      openAdd := false;
    }

    method CloseSubAdd()
      requires Valid()
      modifies this
      ensures Valid() && !openSubAdd
      ensures categories == old(categories) && subCategories == old(subCategories)
      ensures activeCategory == old(activeCategory) && mode == old(mode) && loading == old(loading)
      ensures openAdd == old(openAdd)
    {
      openSubAdd := false;
    }
  }

  /** A failed subcategory load leaves the category mode (and its table) in place, with the
      clicked category remembered as active; a successful one shows its subcategories
      under its name. */
  method LoadSubScenario(cats: seq<Category>, c: Category, subs: seq<SubCategory>, ok: bool)
    returns (table: Table, header: string, active: Option<Category>)
    ensures ok ==> table == SubcategoryTable(SubCategoryColumns, subs) && header == "Sub Categories of " + c.name
    ensures !ok ==> table == CategoryTable(CategoryColumns, cats) && header == "Categories"
    ensures active == Some(c)
  {
    var screen := new CategoryScreen();
    screen.FinishLoadCategories(Ok(Some(cats)));
    var _ := screen.BeginLoadSub(c);
    var r: Response<Option<seq<SubCategory>>> := if ok then Ok(Some(subs)) else Failed(HttpError(None, None));
    screen.FinishLoadSub(r);
    table := ShownTable(screen.mode, screen.categories, screen.subCategories);
    header := Header(screen.mode, screen.activeCategory);
    active := screen.activeCategory;
  }
}
