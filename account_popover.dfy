/** The account popover in the header: the avatar, the menu and its own logout. */
module AccountPopover {
  import opened Wrappers
  import opened Strings
  import opened Storage
  import Auth
  import Routes

  const LoginPath := "/login"
  const HttpPrefix := "http"

  /** The fields of the stored user the popover reads. */
  datatype StoredUser = StoredUser(name: Option<string>, email: Option<string>, image: Option<string>)

  /** `JSON.parse` of the stored user text; `None` stands for a parsed `null`. */
  type UserParser = string -> Option<StoredUser>

  /** The user read from storage: an absent or empty entry gives no user. */
  function CurrentUser(items: map<string, string>, parse: UserParser): (u: Option<StoredUser>)
    ensures !Truthy(Lookup(items, Auth.UserKey)) ==> u == None
    ensures Truthy(Lookup(items, Auth.UserKey)) ==> u == parse(items[Auth.UserKey])
  {
    var raw := Lookup(items, Auth.UserKey);
    if Truthy(raw) then parse(raw.value) else None
  }

  /** The avatar source: an image starting with `http` is used as it is, another
      non-empty image is put under the image base URL, and no image gives none. */
  function Avatar(user: Option<StoredUser>, imageBase: string): (src: Option<string>)
    ensures src.Some? <==> user.Some? && Truthy(user.value.image)
    ensures src.Some? && StartsWith(user.value.image.value, HttpPrefix) ==> src.value == user.value.image.value
    ensures src.Some? && !StartsWith(user.value.image.value, HttpPrefix) ==> src.value == imageBase + user.value.image.value
  {
    if user.Some? && user.value.image.Some? && StartsWith(user.value.image.value, HttpPrefix) then user.value.image
    else if user.Some? && Truthy(user.value.image) then Some(imageBase + user.value.image.value)
    else None
  }

  /** The fallback letter: the first character of the name, upper-cased; an empty name
      gives the empty string and no name gives none. */
  function Initial(user: Option<StoredUser>): (r: Option<string>)
    ensures r.Some? <==> user.Some? && user.value.name.Some?
    ensures r.Some? ==> |r.value| == if user.value.name.value == "" then 0 else 1
    ensures r.Some? && user.value.name.value != "" ==> r.value[0] == UpperChar(user.value.name.value[0])
  {
    if user.Some? && user.value.name.Some? then
      var name := user.value.name.value;
      Some(ToUpper(if name == "" then "" else name[..1]))
    else None
  }

  /** An entry of the popover menu. */
  datatype MenuOption = MenuOption(text: string, href: string)

  /** Which menu entries are highlighted for the current path. */
  function Selection(data: seq<MenuOption>, pathname: string): (sel: seq<bool>)
    ensures |sel| == |data|
    ensures forall i :: 0 <= i < |data| ==> (sel[i] <==> data[i].href == pathname)
  {
    seq(|data|, i requires 0 <= i < |data| => data[i].href == pathname)
  }

  /** With distinct links, at most one entry is highlighted. */
  lemma SelectionAtMostOne(data: seq<MenuOption>, pathname: string)
    requires forall a, b :: 0 <= a < b < |data| ==> data[a].href != data[b].href
    ensures forall i, j :: 0 <= i < |data| && 0 <= j < |data| && Selection(data, pathname)[i] && Selection(data, pathname)[j] ==> i == j
  {
  }

  /** A navigation the popover asks the router for. */
  datatype RouterAction = Push(path: string) | Replace(path: string)

  class Popover {
    /** Whether the popover has an anchor, i.e. is open. */
    var isOpen: bool

    constructor()
      ensures !isOpen
    {
      isOpen := false;
    }

    method Open()
      modifies this
      ensures isOpen
    {
      isOpen := true;
    }

    method Close()
      modifies this
      ensures !isOpen
    {
      isOpen := false;
    }

    /** Choosing an entry closes the popover, then pushes its link. */
    method ClickItem(path: string) returns (nav: RouterAction)
      modifies this
      ensures !isOpen && nav == Push(path)
    {
      Close();
      nav := Push(path);
    }

    /** The popover's Logout button empties all of storage, then replaces the route with
        `/login`; it does not close the popover. */
    method Logout(store: LocalStorage) returns (nav: RouterAction)
      modifies store
      ensures store.items == map[] && nav == Replace(LoginPath)
    {
      store.Clear();
      nav := Replace(LoginPath);
    }
  }

  /** After the popover logout the token is gone and `/login` shows the not-found page,
      unlike the sign-in page that `logout` in the auth module leads to. */
  lemma PopoverLogoutLandsOnNotFound(decode: Auth.Decoder, nowMs: int)
    ensures Lookup(map[], Auth.TokenKey) == None
    ensures Routes.Navigate(LoginPath, Lookup(map[], Auth.TokenKey), decode, nowMs) == Routes.Show(Routes.Page404)
    ensures LoginPath != Auth.SignInPath
  {
    Routes.LoginIsNotFound(None, decode, nowMs);
  }

  /** The popover logout and `logout` leave the same storage exactly when nothing but
      the token and the user was stored. */
  lemma PopoverLogoutVersusLogout(items: map<string, string>)
    ensures Auth.AfterLogout(items) == map[] <==> items.Keys <= {Auth.TokenKey, Auth.UserKey}
  {
    if Auth.AfterLogout(items) == map[] {
      forall k | k in items
        ensures k in {Auth.TokenKey, Auth.UserKey}
      {
      }
    }
  }
}
