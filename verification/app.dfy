/** The application shell (App.tsx): session, theme and progress state, the
    handlers the components call, and the tab router with its admin gate. */
module App {
  import opened Types
  import opened Seqs
  import Persist
  import Navbar
  import Catalog
  import Downloads

  datatype AppState = AppState(
    activeTab: string,
    currentUser: Option<User>,
    showAuth: bool,
    isDarkMode: bool,
    progress: UserProgress)

  /** First render: the three initialisers run in order and any of them
      throwing stops the start; otherwise the home tab, no dialog, and the
      restored user, theme and progress. */
  function Boot(
    savedUser: Persist.Stored<User>,
    savedTheme: Option<string>,
    systemPrefersDark: bool,
    savedProgress: Persist.Stored<Persist.StoredProgress>,
    now: Time): (r: Option<AppState>)
    ensures r.Some? <==> !savedUser.Malformed? && !savedProgress.Malformed?
    ensures r.Some? ==>
              && r.value.activeTab == "hero" && !r.value.showAuth
              && Some(r.value.currentUser) == Persist.RestoreUser(savedUser)
              && r.value.isDarkMode == Persist.RestoreTheme(savedTheme, systemPrefersDark)
              && Some(r.value.progress) == Persist.RestoreProgress(savedProgress, now)
  {
    match Persist.RestoreUser(savedUser)
    case None => None
    case Some(user) =>
      var dark := Persist.RestoreTheme(savedTheme, systemPrefersDark);
      match Persist.RestoreProgress(savedProgress, now)
      case None => None
      case Some(progress) => Some(AppState("hero", user, false, dark, progress))
  }

  /** A first visit: logged out, empty progress, theme from the system. */
  lemma FirstVisit(systemPrefersDark: bool, now: Time)
    ensures Boot(Persist.Missing, None, systemPrefersDark, Persist.Missing, now)
              == Some(AppState("hero", None, false, systemPrefersDark, UserProgress("", [], [], now)))
  {
  }

  function ToggleTheme(s: AppState): (r: AppState)
    ensures r.isDarkMode == !s.isDarkMode && r.(isDarkMode := s.isDarkMode) == s
  {
    s.(isDarkMode := !s.isDarkMode)
  }

  /** `handleLogin`: the user is set and the dialog closes; the tab and the
      progress are untouched. */
  function Login(s: AppState, user: User): (r: AppState)
    ensures r.currentUser == Some(user) && !r.showAuth
    ensures r.activeTab == s.activeTab && r.progress == s.progress && r.isDarkMode == s.isDarkMode
  {
    s.(currentUser := Some(user), showAuth := false)
  }

  /** `handleLogout`: the user is cleared and the home tab selected; progress
      stays (it is not per-user). */
  function Logout(s: AppState): (r: AppState)
    ensures r.currentUser.None? && r.activeTab == "hero"
    ensures r.progress == s.progress && r.showAuth == s.showAuth && r.isDarkMode == s.isDarkMode
  {
    s.(currentUser := None, activeTab := "hero")
  }

  /** Any tab change. */
  function Navigate(s: AppState, tab: string): (r: AppState)
    ensures r.activeTab == tab && r.(activeTab := s.activeTab) == s
  {
    s.(activeTab := tab)
  }

  function OpenAuth(s: AppState): (r: AppState)
    ensures r.showAuth && r.(showAuth := s.showAuth) == s
  {
    s.(showAuth := true)
  }

  function CloseAuth(s: AppState): (r: AppState)
    ensures !r.showAuth && r.(showAuth := s.showAuth) == s
  {
    s.(showAuth := false)
  }

  /** `toggleTopicCompletion`. Logged out, it only opens the sign-in dialog.
      Logged in, the topic's membership flips (a present id is filtered out
      entirely, a missing one appended) and the record is stamped `now`;
      the downloads and the user id stay. */
  function ToggleTopic(s: AppState, topicId: string, now: Time): (r: AppState)
    ensures s.currentUser.None? ==> r == s.(showAuth := true)
    ensures s.currentUser.Some? ==>
              && r.(progress := s.progress) == s
              && (topicId in r.progress.completedTopicIds <==> topicId !in s.progress.completedTopicIds)
              && (forall t :: t != topicId ==>
                    (t in r.progress.completedTopicIds <==> t in s.progress.completedTopicIds))
              && (topicId !in s.progress.completedTopicIds ==>
                    r.progress.completedTopicIds == s.progress.completedTopicIds + [topicId])
              && (topicId in s.progress.completedTopicIds ==>
                    multiset(r.progress.completedTopicIds) == multiset(s.progress.completedTopicIds)[topicId := 0])
              && r.progress.lastAccessed == now
              && r.progress.downloadedResourceIds == s.progress.downloadedResourceIds
              && r.progress.userId == s.progress.userId
  {
    if s.currentUser.None? then s.(showAuth := true)
    else
      s.(progress := s.progress.(
        completedTopicIds := Toggle(s.progress.completedTopicIds, topicId),
        lastAccessed := now))
  }

  /** `handleResourceDownload`. Logged out, it only opens the sign-in dialog.
      Logged in, the id is added at the end if it is not already there; no
      other field of the record changes. */
  function Download(s: AppState, resourceId: string): (r: AppState)
    ensures s.currentUser.None? ==> r == s.(showAuth := true)
    ensures s.currentUser.Some? ==>
              && r.(progress := s.progress) == s
              && r.progress.(downloadedResourceIds := s.progress.downloadedResourceIds) == s.progress
              && resourceId in r.progress.downloadedResourceIds
              && (resourceId in s.progress.downloadedResourceIds ==> r == s)
              && (resourceId !in s.progress.downloadedResourceIds ==>
                    r.progress.downloadedResourceIds == s.progress.downloadedResourceIds + [resourceId])
  {
    if s.currentUser.None? then s.(showAuth := true)
    else
      s.(progress := s.progress.(
        downloadedResourceIds := AppendIfAbsent(s.progress.downloadedResourceIds, resourceId)))
  }

  /** `handleRemoveDownload`: no login needed; every copy of the id goes, every
      other id keeps its multiplicity, and nothing else changes. */
  function RemoveDownload(s: AppState, resourceId: string): (r: AppState)
    ensures r.(progress := s.progress) == s
    ensures r.progress.(downloadedResourceIds := s.progress.downloadedResourceIds) == s.progress
    ensures resourceId !in r.progress.downloadedResourceIds
    ensures forall t :: t != resourceId ==>
              (t in r.progress.downloadedResourceIds <==> t in s.progress.downloadedResourceIds)
    ensures multiset(r.progress.downloadedResourceIds) == multiset(s.progress.downloadedResourceIds)[resourceId := 0]
  {
    s.(progress := s.progress.(
      downloadedResourceIds := RemoveAll(s.progress.downloadedResourceIds, resourceId)))
  }

  /** Downloading twice is downloading once. */
  lemma DownloadIdempotent(s: AppState, resourceId: string)
    ensures Download(Download(s, resourceId), resourceId) == Download(s, resourceId)
  {
  }

  /** Toggling a topic twice, logged in, gives back the same completed topics,
      and exactly the original list when the topic was not completed. */
  lemma ToggleTopicTwice(s: AppState, topicId: string, now: Time, later: Time)
    requires s.currentUser.Some?
    ensures var ids := ToggleTopic(ToggleTopic(s, topicId, now), topicId, later).progress.completedTopicIds;
              && (forall t :: t in ids <==> t in s.progress.completedTopicIds)
              && (topicId !in s.progress.completedTopicIds ==> ids == s.progress.completedTopicIds)
  {
    ToggleTwice(s.progress.completedTopicIds, topicId);
  }

  /** Removing after downloading, from a library without that id, restores
      the library exactly. */
  lemma RemoveUndoesDownload(s: AppState, resourceId: string)
    requires s.currentUser.Some? && resourceId !in s.progress.downloadedResourceIds
    ensures RemoveDownload(Download(s, resourceId), resourceId) == s
  {
    var ids := s.progress.downloadedResourceIds;
    RemoveAllAppend(ids, [resourceId], resourceId);
    RemoveAllAbsent(ids, resourceId);
    assert RemoveAll([resourceId], resourceId) == [];
  }

  /** What the main area shows. */
  datatype View =
    | Home(completedCount: nat, totalCount: nat, completed: seq<string>)
    | Awareness(completed: seq<string>)
    | Detection
    | Legal
    | Library(downloaded: seq<string>)
    | AdminPanel
    | AccessDenied
    | HeroOnly(completedCount: nat, totalCount: nat)

  /** The tabs the router knows. */
  const KnownTabs: set<string> := {"hero", "awareness", "detection", "legal", "downloads", "admin"}

  /** The admin gate: the control center is shown only to a Cyber Expert. */
  predicate CanAccessAdmin(user: Option<User>) {
    IsExpert(user)
  }

  /** `renderContent`. Each known tab shows its own module with the progress
      it needs; the home tab stacks the hero (with the completed and total
      topic counts) over the knowledge hub and the scanner. The admin tab shows
      the control center exactly when the current user is a Cyber Expert and
      "Access Denied" otherwise, even when logged out; unknown tabs fall back
      to the hero alone, with the same counts. The gate reads the current user
      on every render. */
  function Render(s: AppState): (v: View)
    ensures v == AdminPanel <==> s.activeTab == "admin" && CanAccessAdmin(s.currentUser)
    ensures v == AccessDenied <==> s.activeTab == "admin" && !CanAccessAdmin(s.currentUser)
    ensures v.HeroOnly? <==> s.activeTab !in KnownTabs
    ensures s.activeTab == "downloads" ==> v == Library(s.progress.downloadedResourceIds)
    ensures s.activeTab == "hero" ==>
              v == Home(|s.progress.completedTopicIds|, |Catalog.TopicIds|, s.progress.completedTopicIds)
    ensures s.activeTab == "awareness" ==> v == Awareness(s.progress.completedTopicIds)
    ensures s.activeTab == "detection" ==> v == Detection
    ensures s.activeTab == "legal" ==> v == Legal
    ensures s.activeTab !in KnownTabs ==> v == HeroOnly(|s.progress.completedTopicIds|, |Catalog.TopicIds|)
  {
    var completed := |s.progress.completedTopicIds|;
    var total := |Catalog.TopicIds|;
    if s.activeTab == "hero" then Home(completed, total, s.progress.completedTopicIds)
    else if s.activeTab == "awareness" then Awareness(s.progress.completedTopicIds)
    else if s.activeTab == "detection" then Detection
    else if s.activeTab == "legal" then Legal
    else if s.activeTab == "downloads" then Library(s.progress.downloadedResourceIds)
    else if s.activeTab == "admin" then (if CanAccessAdmin(s.currentUser) then AdminPanel else AccessDenied)
    else HeroOnly(completed, total)
  }

  /** The navigation bar and the router agree: the bar offers the admin tab
      exactly when the router would grant it, so no tab the bar offers ever
      leads to "Access Denied". */
  lemma NavAgreesWithRouter(s: AppState)
    ensures var items := Navbar.NavItems(s.currentUser, |s.progress.downloadedResourceIds|);
              && (Navbar.AdminId in Navbar.Ids(items) <==> Render(Navigate(s, "admin")) == AdminPanel)
              && (forall i :: 0 <= i < |items| ==> Render(Navigate(s, items[i].id)) != AccessDenied)
  {
    var items := Navbar.NavItems(s.currentUser, |s.progress.downloadedResourceIds|);
    Navbar.AdminOfferedIff(s.currentUser, |s.progress.downloadedResourceIds|);
    forall i | 0 <= i < |items|
      ensures Render(Navigate(s, items[i].id)) != AccessDenied
    {
      assert Navbar.Ids(items)[i] == items[i].id;
      if i < 5 {
        assert Navbar.Ids(items)[..5][i] == Navbar.BaseIds[i];
      }
    }
  }

  /** Logging out revokes the control center at once: the home tab is shown,
      and selecting the admin tab again is denied. */
  lemma LogoutRevokesAdmin(s: AppState)
    ensures Render(Logout(s)) == Home(|s.progress.completedTopicIds|, |Catalog.TopicIds|, s.progress.completedTopicIds)
    ensures Render(Navigate(Logout(s), "admin")) == AccessDenied
  {
  }

  /** A navigation-bar click applied to the application. */
  function ApplyNavRequest(s: AppState, request: Navbar.Request): (r: AppState)
    ensures request.NoRequest? ==> r == s
    ensures request.SelectTab? ==> r == Navigate(s, request.tab)
    ensures request.Logout? ==> r == Logout(s)
    ensures request.OpenSignIn? ==> r == OpenAuth(s)
  {
    match request
    case NoRequest => s
    case SelectTab(tab) => Navigate(s, tab)
    case Logout => Logout(s)
    case OpenSignIn => OpenAuth(s)
  }

  /** Choosing a mobile menu entry selects its tab and closes the menu; the
      logo always leads home. */
  lemma MobileSelectAndLogo(s: AppState, m: Navbar.MenuState, item: Navbar.NavItem)
    ensures var c := Navbar.MobileSelect(m, item);
              ApplyNavRequest(s, c.request).activeTab == item.id && !c.menu.isOpen
    ensures ApplyNavRequest(s, Navbar.LogoClick(m).request).activeTab == "hero"
  {
  }

  /** Both Sign In buttons raise the dialog without leaving the current tab;
      the mobile one also closes the menu. */
  lemma SignInButtonsOpenDialog(s: AppState, m: Navbar.MenuState)
    ensures var r := ApplyNavRequest(s, Navbar.DesktopSignIn(m).request);
              r.showAuth && r.activeTab == s.activeTab && r.currentUser == s.currentUser
    ensures var c := Navbar.MobileSignIn(m);
              ApplyNavRequest(s, c.request).showAuth && !c.menu.isOpen
  {
  }

  /** The library's confirmed removal, end to end: after asking to remove a
      shown resource and confirming, it is no longer shown; cancelling instead
      leaves the library as it was. */
  lemma ConfirmedRemovalHidesResource(s: AppState, pending: Downloads.RemovalState, res: Catalog.Resource)
    ensures var step := Downloads.Confirm(Downloads.AskRemove(pending, res).state);
              && step.removeId == Some(res.id)
              && res !in Downloads.Shown(Catalog.Resources,
                   RemoveDownload(s, step.removeId.value).progress.downloadedResourceIds)
    ensures Downloads.Cancel(Downloads.AskRemove(pending, res).state).removeId.None?
  {
  }

  /** Everything the application shell reacts to. */
  datatype Event =
    | SignIn(user: User)
    | SignOut
    | Select(tab: string)
    | FlipTheme
    | ShowAuth
    | HideAuth
    | CompleteTopic(topicId: string, now: Time)
    | Save(resourceId: string)
    | Unsave(resourceId: string)

  function Step(s: AppState, e: Event): AppState {
    match e
    case SignIn(user) => Login(s, user)
    case SignOut => Logout(s)
    case Select(tab) => Navigate(s, tab)
    case FlipTheme => ToggleTheme(s)
    case ShowAuth => OpenAuth(s)
    case HideAuth => CloseAuth(s)
    case CompleteTopic(topicId, now) => ToggleTopic(s, topicId, now)
    case Save(resourceId) => Download(s, resourceId)
    case Unsave(resourceId) => RemoveDownload(s, resourceId)
  }

  function Run(s: AppState, events: seq<Event>): AppState
    decreases |events|
  {
    if |events| == 0 then s else Run(Step(s, events[0]), events[1..])
  }

  /** The id lists behave as sets: no handler ever introduces a duplicate. */
  predicate SetLike(p: UserProgress) {
    NoDuplicates(p.completedTopicIds) && NoDuplicates(p.downloadedResourceIds)
  }

  /** From duplicate-free lists (a fresh start has empty ones), every sequence
      of events keeps both lists duplicate-free, and the progress record's
      user id never changes: signing in does not claim it. */
  lemma {:induction false} RunKeepsSetLike(s: AppState, events: seq<Event>)
    requires SetLike(s.progress)
    ensures SetLike(Run(s, events).progress)
    ensures Run(s, events).progress.userId == s.progress.userId
    decreases |events|
  {
    if |events| > 0 {
      var t := Step(s, events[0]);
      if events[0].CompleteTopic? && s.currentUser.Some? && events[0].topicId in s.progress.completedTopicIds {
        RemoveAllNoDuplicates(s.progress.completedTopicIds, events[0].topicId);
      } else if events[0].Unsave? {
        RemoveAllNoDuplicates(s.progress.downloadedResourceIds, events[0].resourceId);
      }
      assert SetLike(t.progress);
      RunKeepsSetLike(t, events[1..]);
    }
  }

  /** Without a signed-in user, no sequence of topic toggles or downloads
      changes the progress record. */
  lemma {:induction false} LoggedOutProgressFrozen(s: AppState, events: seq<Event>)
    requires s.currentUser.None?
    requires forall i :: 0 <= i < |events| ==> events[i].CompleteTopic? || events[i].Save? || events[i].ShowAuth?
    ensures Run(s, events).progress == s.progress
    ensures Run(s, events).currentUser.None?
    ensures |events| > 0 ==> Run(s, events).showAuth
    decreases |events|
  {
    if |events| > 0 {
      LoggedOutProgressFrozen(Step(s, events[0]), events[1..]);
    }
  }
}
