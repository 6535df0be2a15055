/** The browser state the console reads and writes: `window.localStorage`
    (a string-to-string map) and `window.location.href`. One `Window` object
    is shared by the API client and the namespace provider. */
module Browser {
  import opened Js

  /** The storage key holding the login token. */
  const AuthTokenKey := "auth_token"

  /** The storage key holding the selected namespace. */
  const CurrentNamespaceKey := "current_namespace"

  type Storage = map<string, string>

  /** `localStorage.getItem(key)` on a storage value: `null` when the key is absent. */
  function Lookup(storage: Storage, key: string): (v: Option<string>)
    ensures v.Some? <==> key in storage
    ensures v.Some? ==> v.value == storage[key]
  {
    if key in storage then Some(storage[key]) else None
  }

  class Window {
    var localStorage: Storage
    var locationHref: string

    constructor (storage: Storage, href: string)
      ensures localStorage == storage && locationHref == href
    {
      localStorage := storage;
      locationHref := href;
    }

    /** `localStorage.getItem(key)`. */
    function GetItem(key: string): Option<string>
      reads this
    {
      Lookup(localStorage, key)
    }

    /** `localStorage.setItem(key, value)`. */
    method SetItem(key: string, value: string)
      modifies this
      ensures localStorage == old(localStorage)[key := value]
      ensures locationHref == old(locationHref)
    {
      localStorage := localStorage[key := value];
    }

    /** `localStorage.removeItem(key)`; removing an absent key is harmless. */
    method RemoveItem(key: string)
      modifies this
      ensures localStorage == old(localStorage) - {key}
      ensures locationHref == old(locationHref)
    {
      localStorage := localStorage - {key};
    }

    /** `window.location.href = href`. The navigation that follows is not modelled. */
    method Navigate(href: string)
      modifies this
      ensures locationHref == href
      ensures localStorage == old(localStorage)
    {
      locationHref := href;
    }
  }
}
