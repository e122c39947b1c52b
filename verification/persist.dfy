/** The three records App.tsx keeps in browser storage (the current user,
    the theme and the progress record), read once by the state initialisers
    and written back by effects. Storage access and `JSON.parse` are not
    modelled: a key's content arrives already classified. */
module Persist {
  import opened Types

  /** What `localStorage.getItem(key)` followed by `JSON.parse` yields: no
      entry (`null`), the empty string (falsy, so never parsed), text
      `JSON.parse` throws on, or a parsed record. */
  datatype Stored<T> = Missing | EmptyText | Malformed | Record(value: T)

  /** A progress record as parsed: records saved before the library feature
      have no `downloadedResourceIds` field. */
  datatype StoredProgress = StoredProgress(
    userId: string,
    completedTopicIds: seq<string>,
    downloadedResourceIds: Option<seq<string>>,
    lastAccessed: Time)

  /** The `currentUser` initialiser: `saved ? JSON.parse(saved) : null`.
      `None` means the initialiser throws: the parse is not guarded, so
      malformed text stops the application from starting. */
  function RestoreUser(saved: Stored<User>): (r: Option<Option<User>>)
    ensures r.None? <==> saved.Malformed?
    ensures saved.Missing? || saved.EmptyText? ==> r == Some(None)
    ensures saved.Record? ==> r == Some(Some(saved.value))
  {
    match saved
    case Missing => Some(None)
    case EmptyText => Some(None)
    case Malformed => None
    case Record(u) => Some(Some(u))
  }

  /** The `isDarkMode` initialiser: a non-empty stored value means dark exactly
      when it is "dark"; without one, the system colour-scheme preference
      decides. */
  function RestoreTheme(saved: Option<string>, systemPrefersDark: bool): (dark: bool)
    ensures saved.Some? && saved.value != "" ==> (dark <==> saved.value == "dark")
    ensures saved.None? || saved.value == "" ==> dark == systemPrefersDark
  {
    if saved.Some? && saved.value != "" then saved.value == "dark" else systemPrefersDark
  }

  /** The `progress` initialiser. Without a stored record: an empty record with
      an empty user id, stamped `now`. With one: its fields, the downloads
      list defaulting to empty. Malformed text makes the initialiser throw. */
  function RestoreProgress(saved: Stored<StoredProgress>, now: Time): (r: Option<UserProgress>)
    ensures r.None? <==> saved.Malformed?
    ensures saved.Missing? || saved.EmptyText? ==> r == Some(UserProgress("", [], [], now))
    ensures saved.Record? ==>
              && r.Some?
              && r.value.userId == saved.value.userId
              && r.value.completedTopicIds == saved.value.completedTopicIds
              && r.value.lastAccessed == saved.value.lastAccessed
              && (saved.value.downloadedResourceIds.None? ==> r.value.downloadedResourceIds == [])
              && (saved.value.downloadedResourceIds.Some? ==>
                    r.value.downloadedResourceIds == saved.value.downloadedResourceIds.value)
  {
    match saved
    case Missing => Some(UserProgress("", [], [], now))
    case EmptyText => Some(UserProgress("", [], [], now))
    case Malformed => None
    case Record(p) =>
      Some(UserProgress(p.userId, p.completedTopicIds, p.downloadedResourceIds.GetOr([]), p.lastAccessed))
  }

  /** The user effect: store the user, or remove the key on logout. */
  function SaveUser(user: Option<User>): (r: Stored<User>)
    ensures r.Missing? <==> user.None?
    ensures user.Some? ==> r == Record(user.value)
  {
    match user
    case Some(u) => Record(u)
    case None => Missing
  }

  /** The theme effect writes "dark" or "light". */
  function SaveTheme(dark: bool): (r: string)
    ensures r == "dark" <==> dark
    ensures !dark ==> r == "light"
  {
    if dark then "dark" else "light"
  }

  /** The progress effect writes every field, the downloads list included. */
  function SaveProgress(p: UserProgress): (r: Stored<StoredProgress>)
    ensures r.Record?
    ensures r.value.userId == p.userId && r.value.completedTopicIds == p.completedTopicIds
    ensures r.value.downloadedResourceIds == Some(p.downloadedResourceIds)
    ensures r.value.lastAccessed == p.lastAccessed
  {
    Record(StoredProgress(p.userId, p.completedTopicIds, Some(p.downloadedResourceIds), p.lastAccessed))
  }

  /** What is written is what the next start reads back, for all three
      records; a saved theme overrides the system preference. */
  lemma RoundTrips(user: Option<User>, dark: bool, systemPrefersDark: bool, p: UserProgress, now: Time)
    ensures RestoreUser(SaveUser(user)) == Some(user)
    ensures RestoreTheme(Some(SaveTheme(dark)), systemPrefersDark) == dark
    ensures RestoreProgress(SaveProgress(p), now) == Some(p)
  {
  }

  /** A record from before the library feature loads with an empty library and
      everything else as stored. */
  lemma LegacyProgress(userId: string, completed: seq<string>, at: Time, now: Time)
    ensures RestoreProgress(Record(StoredProgress(userId, completed, None, at)), now)
              == Some(UserProgress(userId, completed, [], at))
  {
  }
}
