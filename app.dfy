/** The navigation state of `src/App.js`. The signed-in user comes from the
    auth provider and is passed to each handler. */
module App {
  import opened Base

  /** The sections that need a signed-in user. */
  predicate NeedsLogin(section: string)
  {
    section == "dashboard" || section == "settings" || section == "account"
  }

  /** The page `renderContent` shows. */
  datatype Page =
    | HomePage
    | DashboardPage(userId: Option<string>)
    | SettingsPage(userId: Option<string>)
    | AccountPage(userId: Option<string>)

  /** `user?.id || null`: an absent user or an empty id becomes `null`. */
  function UserId(user: Option<string>): (id: Option<string>)
    ensures id.Some? <==> user.Some? && user.value != ""
    ensures id.Some? ==> id == user
  {
    if user.Some? && user.value != "" then user else None
  }

  /** `renderContent()`: each known section has its page, and anything else
      falls back to the home page. */
  function RenderContent(activeSection: string, user: Option<string>): (p: Page)
    ensures p.HomePage? <==> !NeedsLogin(activeSection)
    ensures activeSection == "dashboard" ==> p == DashboardPage(UserId(user))
    ensures activeSection == "settings" ==> p == SettingsPage(UserId(user))
    ensures activeSection == "account" ==> p == AccountPage(UserId(user))
  {
    if activeSection == "home" then HomePage
    else if activeSection == "dashboard" then DashboardPage(UserId(user))
    else if activeSection == "settings" then SettingsPage(UserId(user))
    else if activeSection == "account" then AccountPage(UserId(user))
    else HomePage
  }

  class AppState {
    var activeSection: string
    var isSidebarExpanded: bool
    var showLoginModal: bool

    /** No protected page is showing unless a user is signed in. */
    predicate Guarded(signedIn: bool)
      reads this
    {
      signedIn || !NeedsLogin(activeSection)
    }

    constructor()
      ensures activeSection == "home" && !isSidebarExpanded && !showLoginModal
      ensures Guarded(false)
    {
      activeSection := "home";
      isSidebarExpanded := false;
      showLoginModal := false;
    }

    /** `handleSectionChange(section)`. */
    method HandleSectionChange(signedIn: bool, section: string)
      modifies this
      ensures !signedIn && NeedsLogin(section) ==>
        showLoginModal && activeSection == old(activeSection)
      ensures signedIn || !NeedsLogin(section) ==>
        activeSection == section && showLoginModal == old(showLoginModal)
      ensures isSidebarExpanded == old(isSidebarExpanded)
      ensures old(Guarded(signedIn)) ==> Guarded(signedIn)
    {
      if !signedIn && NeedsLogin(section) {
        showLoginModal := true;
      } else {
        activeSection := section;
      }
    }

    /** `handleLogout()` with the sign-out call answering `reply`; a failed
        sign-out is only logged. */
    method HandleLogout(reply: Outcome)
      modifies this
      ensures reply.Success? ==> activeSection == "home" && Guarded(false)
      ensures reply.Failure? ==> activeSection == old(activeSection)
      ensures showLoginModal == old(showLoginModal) && isSidebarExpanded == old(isSidebarExpanded)
    {
      if reply.Success? {
        activeSection := "home";
      }
    }

    /** The "Login" button. */
    method OpenLoginModal()
      modifies this
      ensures showLoginModal && activeSection == old(activeSection)
      ensures isSidebarExpanded == old(isSidebarExpanded)
    {
      showLoginModal := true;
    }

    /** The login modal's `onClose`: hide it and go home. */
    method CloseLoginModal()
      modifies this
      ensures !showLoginModal && activeSection == "home" && Guarded(false)
      ensures isSidebarExpanded == old(isSidebarExpanded)
    {
      showLoginModal := false;
      activeSection := "home";
    }
  }

  /** Whatever a signed-out visitor asks for, the page shown is the home page
      as long as it was before. */
  method SignedOutStaysHome(app: AppState, section: string) returns (page: Page)
    requires app.Guarded(false)
    modifies app
    ensures page == HomePage
  {
    app.HandleSectionChange(false, section);
    page := RenderContent(app.activeSection, None);
  }
}
