/** The browser's `localStorage` as an immutable string-to-string map, and the
    two keys under which the session keeps its tokens. */
module Storage {
  import opened Wrappers

  type Store = map<string, string>

  const AccessKey := "accessToken"
  const RefreshKey := "refreshToken"

  predicate IsTokenKey(key: string) {
    key == AccessKey || key == RefreshKey
  }

  /** `localStorage.getItem(key)`: `null` for a missing key. */
  function GetItem(st: Store, key: string): (v: Option<string>)
    ensures v.Some? <==> key in st
    ensures v.Some? ==> v.value == st[key]
  {
    if key in st then Some(st[key]) else None
  }

  /** Every key other than the two token keys reads the same in both stores. */
  ghost predicate AgreeOffTokens(st: Store, st': Store) {
    forall key :: !IsTokenKey(key) ==> GetItem(st', key) == GetItem(st, key)
  }

  /** `localStorage.setItem(key, value)`. */
  function SetItem(st: Store, key: string, value: string): (st': Store)
    ensures GetItem(st', key) == Some(value)
    ensures forall k :: k != key ==> GetItem(st', k) == GetItem(st, k)
  {
    st[key := value]
  }

  /** `localStorage.removeItem(key)`. */
  function RemoveItem(st: Store, key: string): (st': Store)
    ensures GetItem(st', key) == None
    ensures forall k :: k != key ==> GetItem(st', k) == GetItem(st, k)
  {
    st - {key}
  }

  /** Writes the access token, then the refresh token. */
  function StoreTokens(st: Store, access: string, refresh: string): (st': Store)
    ensures GetItem(st', AccessKey) == Some(access)
    ensures GetItem(st', RefreshKey) == Some(refresh)
    ensures AgreeOffTokens(st, st')
  {
    SetItem(SetItem(st, AccessKey, access), RefreshKey, refresh)
  }

  /** Removes the access token, then the refresh token. */
  function ClearTokens(st: Store): (st': Store)
    ensures GetItem(st', AccessKey) == None
    ensures GetItem(st', RefreshKey) == None
    ensures AgreeOffTokens(st, st')
    ensures st'.Keys == st.Keys - {AccessKey, RefreshKey}
  {
    RemoveItem(RemoveItem(st, AccessKey), RefreshKey)
  }

  /** Clearing the tokens undoes any earlier write of them: only the tokens
      that were there before are lost. */
  lemma ClearAfterStore(st: Store, access: string, refresh: string)
    ensures ClearTokens(StoreTokens(st, access, refresh)) == ClearTokens(st)
    ensures ClearTokens(st) == st - {AccessKey, RefreshKey}
  {
  }
}
