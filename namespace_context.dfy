/** The namespace provider of src/contexts/NamespaceContext.tsx: the selected
    namespace, the list of known namespaces and a loading flag, with the
    selection mirrored in browser storage under `current_namespace`. */
module NamespaceContext {
  import opened Js
  import opened Http
  import opened ApiTypes
  import opened Browser
  import opened Client
  import NamespaceApi

  // ---------------------------------------------------------------------------
  // Specification of the transitions, on values

  /** `items.some(ns => ns.name === name)`. */
  function AnyNamed(items: seq<NamespaceItem>, name: string): bool {
    if items == [] then false
    else items[0].name == name || AnyNamed(items[1..], name)
  }

  /** `some` holds exactly when one of the items carries the name. */
  lemma {:induction false} AnyNamedExactly(items: seq<NamespaceItem>, name: string)
    ensures AnyNamed(items, name) <==> exists i :: 0 <= i < |items| && items[i].name == name
  {
    if items != [] {
      AnyNamedExactly(items[1..], name);
      if AnyNamed(items[1..], name) {
        var i :| 0 <= i < |items[1..]| && items[1..][i].name == name;
        assert items[i + 1].name == name;
      }
      if exists i :: 0 <= i < |items| && items[i].name == name {
        var i :| 0 <= i < |items| && items[i].name == name;
        if i > 0 {
          assert items[1..][i - 1].name == name;
        }
      }
    }
  }

  /** The storage after `setCurrentNamespace(name)`: a non-empty name is
      stored, anything else clears the key; no other key changes. */
  function StorageAfterSelect(storage: Storage, name: Option<string>): (s: Storage)
    ensures Present(name) ==> Lookup(s, CurrentNamespaceKey) == name
    ensures !Present(name) ==> CurrentNamespaceKey !in s
    ensures forall k :: k != CurrentNamespaceKey ==> Lookup(s, k) == Lookup(storage, k)
  {
    if Present(name) then storage[CurrentNamespaceKey := name.value] else storage - {CurrentNamespaceKey}
  }

  /** A successful refresh drops a non-empty selection that is not among the
      fetched names; a failed refresh, or an empty selection, is kept. */
  predicate DropsSelection(current: Option<string>, outcome: Outcome<Page<NamespaceItem>>) {
    outcome.Success? && Present(current) && !AnyNamed(outcome.data.items, current.value)
  }

  /** The selection after a refresh. */
  function CurrentAfterRefresh(current: Option<string>, outcome: Outcome<Page<NamespaceItem>>): (c: Option<string>)
    ensures outcome.Failure? ==> c == current
    ensures outcome.Success? && Present(c) ==> exists i :: 0 <= i < |outcome.data.items| && outcome.data.items[i].name == c.value
    ensures c == current || c == None
  {
    if DropsSelection(current, outcome) then None
    else if outcome.Success? && Present(current) then
      AnyNamedExactly(outcome.data.items, current.value);
      current
    else current
  }

  /** The list after a refresh: the fetched items, or the old list on failure. */
  function NamespacesAfterRefresh(namespaces: seq<NamespaceItem>, outcome: Outcome<Page<NamespaceItem>>): (ns: seq<NamespaceItem>)
    ensures outcome.Success? ==> ns == outcome.data.items
    ensures outcome.Failure? ==> ns == namespaces
  {
    if outcome.Success? then outcome.data.items else namespaces
  }

  /** The storage after a refresh: the key is removed exactly when the
      selection is dropped. */
  function StorageAfterRefresh(storage: Storage, current: Option<string>, outcome: Outcome<Page<NamespaceItem>>): (s: Storage)
    ensures DropsSelection(current, outcome) ==> CurrentNamespaceKey !in s
    ensures !DropsSelection(current, outcome) ==> s == storage
    ensures forall k :: k != CurrentNamespaceKey ==> Lookup(s, k) == Lookup(storage, k)
  {
    if DropsSelection(current, outcome) then storage - {CurrentNamespaceKey} else storage
  }

  /** The query of the refresh: the first page of at most 100 namespaces. */
  const RefreshParams: Object := map["page" := Num(1), "pageSize" := Num(100)]

  /** The selection and the stored key agree whenever either is non-empty. */
  predicate InSync(current: Option<string>, storage: Storage) {
    var stored := Lookup(storage, CurrentNamespaceKey);
    Present(current) || Present(stored) ==> stored == current
  }

  // ---------------------------------------------------------------------------
  // Properties of the transitions

  /** Selecting a non-empty name and reading storage back, as a fresh provider
      does, yields that name. */
  lemma SelectRoundTrip(storage: Storage, name: string)
    requires name != ""
    ensures Lookup(StorageAfterSelect(storage, Some(name)), CurrentNamespaceKey) == Some(name)
  {
  }

  /** Every transition keeps the selection and storage in sync, and so does
      the client's logout, which leaves the namespace key alone. */
  lemma TransitionsKeepInSync(current: Option<string>, storage: Storage, name: Option<string>,
                              outcome: Outcome<Page<NamespaceItem>>, error: JsValue, dev: bool)
    requires InSync(current, storage)
    ensures InSync(Lookup(storage, CurrentNamespaceKey), storage)
    ensures InSync(name, StorageAfterSelect(storage, name))
    ensures InSync(CurrentAfterRefresh(current, outcome), StorageAfterRefresh(storage, current, outcome))
    ensures InSync(current, StorageAfterError(storage, error, dev))
  {
    LogoutKeepsNamespace(storage, error, dev);
  }

  /** A failed refresh changes nothing but the loading flag. */
  lemma FailedRefreshKeepsState(current: Option<string>, namespaces: seq<NamespaceItem>, storage: Storage, error: JsValue)
    ensures CurrentAfterRefresh(current, Failure(error)) == current
    ensures NamespacesAfterRefresh(namespaces, Failure(error)) == namespaces
    ensures StorageAfterRefresh(storage, current, Failure(error)) == storage
  {
  }

  /** A refresh keeps a selection that one of the fetched items names. */
  lemma RefreshKeepsListedSelection(current: string, page: Page<NamespaceItem>, i: int, storage: Storage)
    requires 0 <= i < |page.items| && page.items[i].name == current
    ensures CurrentAfterRefresh(Some(current), Success(page)) == Some(current)
    ensures StorageAfterRefresh(storage, Some(current), Success(page)) == storage
  {
    AnyNamedExactly(page.items, current);
  }

  /** Once a non-empty namespace is selected, every request outside the
      namespace resource carries it; once the selection is cleared, no request
      carries a namespace header. */
  lemma SelectionScopesRequests(storage: Storage, name: Option<string>, r: Request)
    ensures Present(name) && !IsNamespaceApi(Some(r.url)) ==>
      var h := SentHeaders(r, StorageAfterSelect(storage, name));
      NamespaceHeader in h && h[NamespaceHeader] == name.value
    ensures !Present(name) ==> NamespaceHeader !in SentHeaders(r, StorageAfterSelect(storage, name))
  {
  }

  // ---------------------------------------------------------------------------
  // The provider

  class NamespaceProvider {
    var currentNamespace: Option<string>
    var namespaces: seq<NamespaceItem>
    var loading: bool
    const window: Window

    /** The provider's initial state: the selection is read from storage. */
    constructor (window: Window)
      ensures this.window == window
      ensures currentNamespace == Lookup(window.localStorage, CurrentNamespaceKey)
      ensures namespaces == [] && !loading
    {
      this.window := window;
      currentNamespace := window.GetItem(CurrentNamespaceKey);
      namespaces := [];
      loading := false;
    }

    /** The selection and the stored key agree. */
    predicate Synced()
      reads this, window
    {
      InSync(currentNamespace, window.localStorage)
    }

    /** `setCurrentNamespace(name)`. */
    method SetCurrentNamespace(name: Option<string>)
      modifies this, window
      ensures currentNamespace == name
      ensures window.localStorage == StorageAfterSelect(old(window.localStorage), name)
      ensures window.locationHref == old(window.locationHref)
      ensures namespaces == old(namespaces) && loading == old(loading)
      ensures Synced()
    {
      currentNamespace := name;
      if Present(name) {
        window.SetItem(CurrentNamespaceKey, name.value);
      } else {
        window.RemoveItem(CurrentNamespaceKey);
      }
    }

    /** `refreshNamespaces()`: it issues `request` and handles its `outcome`. */
    method RefreshNamespaces(outcome: Outcome<Page<NamespaceItem>>) returns (request: Request)
      modifies this, window
      ensures request == NamespaceApi.List(RefreshParams)
      ensures namespaces == NamespacesAfterRefresh(old(namespaces), outcome)
      ensures currentNamespace == CurrentAfterRefresh(old(currentNamespace), outcome)
      ensures window.localStorage == StorageAfterRefresh(old(window.localStorage), old(currentNamespace), outcome)
      ensures window.locationHref == old(window.locationHref)
      ensures !loading
      ensures old(Synced()) ==> Synced()
    {
      loading := true;
      request := NamespaceApi.List(map["page" := Num(1), "pageSize" := Num(100)]);
      if outcome.Success? {
        namespaces := outcome.data.items;
        if Present(currentNamespace) {
          var found := AnyNamed(outcome.data.items, currentNamespace.value);
          if !found {
            currentNamespace := None;
            window.RemoveItem(CurrentNamespaceKey);
          }
        }
      }
      loading := false;
    }
  }
}
