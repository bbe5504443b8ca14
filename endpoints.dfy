/** The backend paths, relative to the API base URL. */
module Endpoints {
  import opened Wrappers
  import opened Strings

  const AddCategory := "admin/add-category"
  const GetCategory := "admin/get-category"
  const AddSubcategory := "admin/add-sub-category"
  const AddCity := "admin/add-city"
  const GetCity := "admin/get-city"

  const SubcategoryPrefix := "admin/get-sub-category/"
  const EditCityPrefix := "admin/edit-city/"

  /** The fixed entries of the endpoint table. */
  const StaticEndpoints: seq<string> := [AddCategory, GetCategory, AddSubcategory, AddCity, GetCity]

  /** `GET_SUBCATEGORY_BY_CATEGORY(categoryId)`: the prefix followed by the id, verbatim. */
  function GetSubcategoryByCategory(categoryId: string): (p: string)
    ensures StartsWith(p, SubcategoryPrefix) && p[|SubcategoryPrefix|..] == categoryId
  {
    SubcategoryPrefix + categoryId
  }

  /** `EDIT_CITY(id)`: the prefix followed by the id, verbatim. */
  function EditCity(id: string): (p: string)
    ensures StartsWith(p, EditCityPrefix) && p[|EditCityPrefix|..] == id
  {
    EditCityPrefix + id
  }

  /** Both builders are injective: distinct ids give distinct paths. */
  lemma BuildersInjective(a: string, b: string)
    ensures GetSubcategoryByCategory(a) == GetSubcategoryByCategory(b) ==> a == b
    ensures EditCity(a) == EditCity(b) ==> a == b
  {
  }

  /** The two builders never produce the same path. */
  lemma BuildersDisjoint(a: string, b: string)
    ensures GetSubcategoryByCategory(a) != EditCity(b)
  {
    assert GetSubcategoryByCategory(a)[6] == 'g' && EditCity(b)[6] == 'e';
  }

  /** Every fixed endpoint lies under `admin/`. */
  lemma StaticEndpointsUnderAdmin()
    ensures forall i :: 0 <= i < |StaticEndpoints| ==> StartsWith(StaticEndpoints[i], "admin/")
  {
  }

  /** A request target: a path of the table above, or an entry the callers name that the
      table does not define (`LOGIN_PANEL`, `EDIT_EVENT(id)`, ...), kept by its key. */
  datatype Endpoint = Path(path: string) | Unlisted(key: string, arg: Option<string>)
}
