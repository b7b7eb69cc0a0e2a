/** The navigation bar's items and the lookup that selects the item for a route path.
    Icons and the Refresh item's action are not modelled; an item without a route has
    no `path`. */
module NavbarContainer {
  import opened Common

  datatype NavbarItem = NavbarItem(title: string, path: Option<string>)

  /** `navbarItems`: Map, Favorites and About, followed by a path-less Refresh item when
      the app runs full screen. */
  function NavbarItems(fullscreen: bool): (items: seq<NavbarItem>)
    ensures |items| == if fullscreen then 4 else 3
    ensures items[0].path == Some("/")
  {
    var common := [
      NavbarItem("Map", Some("/")),
      NavbarItem("Favorites", Some("/bookmarks")),
      NavbarItem("About", Some("/about"))
    ];
    if fullscreen then common + [NavbarItem("Refresh", None)] else common
  }

  /** `findIndexByPath`: the index of the first item whose path is `path`, or 0 (the Map
      item) when none is. The result is always an item that has a path, so the Refresh
      item is never selected. */
  method FindIndexByPath(path: string, fullscreen: bool) returns (result: nat)
    ensures result < |NavbarItems(fullscreen)|
    ensures forall i | 0 <= i < result :: NavbarItems(fullscreen)[i].path != Some(path)
    ensures (exists i | 0 <= i < |NavbarItems(fullscreen)| :: NavbarItems(fullscreen)[i].path == Some(path))
            ==> NavbarItems(fullscreen)[result].path == Some(path)
    ensures (forall i | 0 <= i < |NavbarItems(fullscreen)| :: NavbarItems(fullscreen)[i].path != Some(path))
            ==> result == 0
    ensures NavbarItems(fullscreen)[result].path.Some?
  {
    var items := NavbarItems(fullscreen);
    result := 0;
    var index := 0;
    while index < |items|
      invariant 0 <= index <= |items|
      invariant result == 0
      invariant forall i | 0 <= i < index :: items[i].path != Some(path)
    {
      if items[index].path == Some(path) {
        result := index;
        return;
      }
      index := index + 1;
    }
  }
}
