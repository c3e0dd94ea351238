/** The application shell (App.tsx): the roster with its persisted copy, the signed-in
    account, the current view and the assistant transcript. Role-to-view tables and the
    content dispatch are functions; the shell's state is the class `AppShell`. */
module App {
  import opened Types
  import opened Text
  import opened Seqs
  import opened Roster
  import AuthScreen
  import AdminDashboard

  /** `INITIAL_USERS`: three donors, an administrator and a hospital, all with the demo
      password. */
  const SeedUsers: seq<User> := [
    User("1", "Alex Johnson", "alex@test.com", Some("1234"), "O+", Donor, 12, 36,
         "2023-10-15", Some("Gulou District, Nanjing"), Active),
    User("2", "Li Wei", "liwei@test.com", Some("1234"), "A-", Donor, 5, 15,
         "2023-11-20", Some("Xuanwu District, Nanjing"), Active),
    User("3", "Chen Yu", "chen@test.com", Some("1234"), "B+", Donor, 2, 6,
         "2024-01-05", Some("Jianye District, Nanjing"), Active),
    User("admin", "System Admin", "admin@lifelink.com", Some("1234"), "AB+", Admin, 0, 0,
         "-", Some("Nanjing HQ"), Active),
    User("hosp1", "Drum Tower Hospital", "hospital@lifelink.com", Some("1234"), "-", Hospital, 0, 0,
         "-", Some("Gulou District, Nanjing"), Active)
  ]

  /** The roster the shell starts from: the saved list when there is one, else the seed.
      `stored` is `None` when the slot is absent, empty or does not parse. */
  function LoadUsers(stored: Option<seq<User>>): (r: seq<User>)
    ensures stored.None? ==> r == SeedUsers
    ensures stored.Some? ==> r == stored.value
  {
    match stored
    case None => SeedUsers
    case Some(saved) => saved
  }

  /** The seed has five accounts: three donors, then one administrator and one hospital,
      and every password is "1234". */
  lemma SeedRoles()
    ensures |SeedUsers| == 5
    ensures forall i :: 0 <= i < 3 ==> SeedUsers[i].role == Donor
    ensures SeedUsers[3].role == Admin && SeedUsers[4].role == Hospital
    ensures forall i :: 0 <= i < |SeedUsers| ==> SeedUsers[i].password == Some(AuthScreen.MasterPassword)
    ensures Donors(SeedUsers) == SeedUsers[..3]
  {
    var s := SeedUsers;
    FiveWithThreeDonors(s[0], s[1], s[2], s[3], s[4]);
    assert s == [s[0], s[1], s[2], s[3], s[4]];
    assert s[..3] == [s[0], s[1], s[2]];
  }

  /** The seed's e-mail addresses are pairwise different, so every seeded account can be
      found by its address. */
  lemma SeedEmailsDistinct()
    ensures forall i, j :: 0 <= i < j < |SeedUsers| ==> SeedUsers[i].email != SeedUsers[j].email
  {
  }

  /** Three donors followed by two non-donors: the donors are the first three. */
  lemma FiveWithThreeDonors(a: User, b: User, c: User, d: User, e: User)
    requires a.role == Donor && b.role == Donor && c.role == Donor
    requires d.role != Donor && e.role != Donor
    ensures Donors([a, b, c, d, e]) == [a, b, c]
  {
    var s := [a, b, c, d, e];
    assert s == [a, b, c] + [d, e];
    FilterAppend(IsDonor, [a, b, c], [d, e]);
    FilterKeepsAll(IsDonor, [a, b, c]);
    assert Filter(IsDonor, [d, e]) == [];
  }

  /** A sum over three elements. */
  lemma SumOfThree<T>(f: T -> nat, a: T, b: T, c: T)
    ensures SumOf(f, [a, b, c]) == f(a) + f(b) + f(c)
  {
    assert [a, b, c] == [a] + [b, c] && [b, c] == [b] + [c] && [c] == [c] + [];
    SumOfCons(f, a, [b, c]);
    SumOfCons(f, b, [c]);
    SumOfCons(f, c, []);
  }

  /** On the seed the dashboard shows 5 users, 3 donors, 19 donations and 57 lives. */
  lemma SeedStats()
    ensures AdminDashboard.Stats(SeedUsers) == AdminDashboard.Overview(5, 3, 19, 57)
  {
    var s := SeedUsers;
    SeedRoles();
    assert s[..3] == [s[0], s[1], s[2]];
    SumOfThree(AdminDashboard.Donations, s[0], s[1], s[2]);
    SumOfThree(AdminDashboard.LivesSaved, s[0], s[1], s[2]);
  }

  /** `getDefaultView`: hospitals land on the donor search, everyone else (including an
      administrator) on the dashboard. */
  function DefaultView(role: Option<UserRole>): (v: AppView)
    ensures v == FindDonor <==> role == Some(Hospital)
    ensures v == Dashboard <==> role != Some(Hospital)
  {
    match role
    case Some(Admin) => Dashboard
    case Some(Hospital) => FindDonor
    case _ => Dashboard
  }

  /** A menu entry: the view it opens and its title. */
  datatype NavItem = NavItem(view: AppView, title: string)

  /** `getSidebarItems`: the menu for the signed-in account's role, led by its landing
      view and naming each view once; empty when signed out. */
  function SidebarItems(role: Option<UserRole>): (items: seq<NavItem>)
    ensures items == [] <==> role.None?
    ensures role.Some? ==> |items| > 0 && items[0].view == DefaultView(role)
    ensures forall i, j :: 0 <= i < j < |items| ==> items[i].view != items[j].view
  {
    match role
    case None => []
    case Some(Admin) => [
      NavItem(Dashboard, "System Overview"),
      NavItem(UserManagement, "Manage Users"),
      NavItem(Assistant, "AI Assistant")]
    case Some(Hospital) => [
      NavItem(FindDonor, "Find Donors"),
      NavItem(Dashboard, "My Requests"),
      NavItem(Profile, "Hospital Profile")]
    case Some(Donor) => [
      NavItem(Dashboard, "Dashboard"),
      NavItem(Donate, "Find Center"),
      NavItem(Assistant, "AI Assistant"),
      NavItem(Profile, "Profile")]
  }

  function MenuViews(items: seq<NavItem>): (vs: seq<AppView>)
    ensures |vs| == |items|
    ensures forall i :: 0 <= i < |items| ==> vs[i] == items[i].view
  {
    seq(|items|, i requires 0 <= i < |items| => items[i].view)
  }

  /** The menus, view by view: administrators get the dashboard (labelled "System
      Overview"), user management and the assistant; hospitals the donor search, the
      dashboard and the profile; donors the dashboard, the centre finder, the assistant
      and the profile; nobody signed in gets no menu. */
  lemma SidebarViews()
    ensures MenuViews(SidebarItems(Some(Admin))) == [Dashboard, UserManagement, Assistant]
    ensures MenuViews(SidebarItems(Some(Hospital))) == [FindDonor, Dashboard, Profile]
    ensures MenuViews(SidebarItems(Some(Donor))) == [Dashboard, Donate, Assistant, Profile]
    ensures SidebarItems(None) == []
    ensures SidebarItems(Some(Admin))[0] == NavItem(Dashboard, "System Overview")
  {
  }

  /** Each role's landing view is on its own menu, and only administrators are offered
      user management, only hospitals the donor search. */
  lemma DefaultViewInMenu(role: UserRole)
    ensures DefaultView(Some(role)) in MenuViews(SidebarItems(Some(role)))
    ensures UserManagement in MenuViews(SidebarItems(Some(role))) <==> role == Admin
    ensures FindDonor in MenuViews(SidebarItems(Some(role))) <==> role == Hospital
  {
    SidebarViews();
  }

  /** What the content area shows. */
  datatype Content =
    | AssistantChat       // renderAssistant
    | ProfileCard         // renderProfile
    | AdminOverview       // <AdminDashboard users={users} />
    | DonorSearch         // <HospitalDashboard users={users} />
    | RequestsPlaceholder // the hospital "Under Construction" panel
    | DonorHome           // renderDonorDashboard
    | CenterDirectory     // renderDonate
    | Blank               // null

  /** `renderContent` for a signed-in account: shared views first, then the
      administrator's and the hospital's own views, then the donor views for everyone. */
  function RenderContent(view: AppView, role: UserRole): (c: Content)
    ensures c == AssistantChat <==> view == Assistant
    ensures c == ProfileCard <==> view == Profile
    ensures c == AdminOverview <==> role == Admin && (view == Dashboard || view == UserManagement)
    ensures c == DonorSearch <==> role == Hospital && view == FindDonor
    ensures c == RequestsPlaceholder <==> role == Hospital && view == Dashboard
    ensures c == DonorHome <==> role == Donor && view == Dashboard
    ensures c == CenterDirectory <==> view == Donate
    ensures c == Blank <==> (view == UserManagement && role != Admin) || (view == FindDonor && role != Hospital)
  {
    if view == Assistant then AssistantChat
    else if view == Profile then ProfileCard
    else if role == Admin && (view == Dashboard || view == UserManagement) then AdminOverview
    else if role == Hospital && view == FindDonor then DonorSearch
    else if role == Hospital && view == Dashboard then RequestsPlaceholder
    else if view == Dashboard then
      assert role.Donor?;
      DonorHome
    else if view == Donate then CenterDirectory
    else
      assert view == UserManagement || view == FindDonor;
      Blank
  }

  /** Every menu entry, and every landing view, leads to content. */
  lemma MenuEntriesRender(role: UserRole)
    ensures forall item :: item in SidebarItems(Some(role)) ==> RenderContent(item.view, role) != Blank
    ensures RenderContent(DefaultView(Some(role)), role) != Blank
  {
  }

  /** The greeting the assistant starts with: "Hi <first name>! ...", id "1". */
  function Greeting(user: User, now: int): (m: ChatMessage)
    ensures m.role == FromModel && m.id == "1"
    ensures IsPrefix("Hi " + FirstWord(user.name) + "!", m.text)
  {
    var head := "Hi " + FirstWord(user.name) + "!";
    var text := head + " I'm LifeLink AI. Ask me about donation eligibility or health tips!";
    assert text[..|head|] == head;
    ChatMessage("1", FromModel, text, now)
  }

  /** The shell's state. `storage` is the browser slot holding the saved roster. */
  class AppShell {
    var users: seq<User>
    var storage: Option<seq<User>>
    var currentUser: Option<User>
    var currentView: AppView
    var messages: seq<ChatMessage>
    var inputText: string
    var isTyping: bool

    /** The saved roster is always the roster in memory: every change is saved. */
    ghost predicate Valid()
      reads this
    {
      storage == Some(users)
    }

    /** Start-up: load the roster (seed when nothing is saved), save it, nobody signed in. */
    constructor (stored: Option<seq<User>>)
      ensures Valid() && users == LoadUsers(stored)
      ensures currentUser == None && currentView == Dashboard
      ensures messages == [] && inputText == "" && !isTyping
    {
      users := LoadUsers(stored);
      currentUser := None;
      currentView := Dashboard;
      messages := [];
      inputText := "";
      isTyping := false;
      storage := Some(users);
    }

    /** The user-change effect: with someone signed in, go to their landing view and
        start the transcript with their greeting. */
    method UserChanged(now: int)
      modifies this
      ensures currentUser.Some? ==>
        && currentView == DefaultView(Some(currentUser.value.role))
        && messages == [Greeting(currentUser.value, now)]
      ensures currentUser.None? ==> currentView == old(currentView) && messages == old(messages)
      ensures users == old(users) && storage == old(storage) && currentUser == old(currentUser)
      ensures inputText == old(inputText) && isTyping == old(isTyping)
    {
      if currentUser.Some? {
        currentView := DefaultView(Some(currentUser.value.role));
        messages := [Greeting(currentUser.value, now)];
      }
    }

    /** `handleLogin`, followed by the user-change effect when the account changed. */
    method HandleLogin(user: User, now: int)
      requires Valid()
      modifies this
      ensures Valid() && currentUser == Some(user)
      ensures old(currentUser) != Some(user) ==>
        currentView == DefaultView(Some(user.role)) && messages == [Greeting(user, now)]
      ensures old(currentUser) == Some(user) ==>
        currentView == old(currentView) && messages == old(messages)
      ensures users == old(users) && inputText == old(inputText) && isTyping == old(isTyping)
    {
      var changed := currentUser != Some(user);
      currentUser := Some(user);
      if changed {
        UserChanged(now);
      }
    }

    /** `handleRegister`: append the account and save the whole roster. */
    method HandleRegister(newUser: User)
      requires Valid()
      modifies this
      ensures Valid() && users == old(users) + [newUser]
      ensures currentUser == old(currentUser) && currentView == old(currentView)
      ensures messages == old(messages) && inputText == old(inputText) && isTyping == old(isTyping)
    {
      users := users + [newUser];
      storage := Some(users);
    }

    /** `handleLogout`: nobody signed in, transcript emptied; the view is left as it was. */
    method HandleLogout()
      requires Valid()
      modifies this
      ensures Valid() && currentUser == None && messages == []
      ensures users == old(users) && currentView == old(currentView)
      ensures inputText == old(inputText) && isTyping == old(isTyping)
    {
      currentUser := None;
      messages := [];
    }

    /** The screen's callbacks from the sign-in form, delivered to the shell. */
    method Deliver(call: AuthScreen.Callback, now: int)
      requires Valid()
      modifies this
      ensures Valid()
      ensures call.OnRegister? ==>
        && users == old(users) + [call.newUser]
        && currentUser == old(currentUser) && currentView == old(currentView) && messages == old(messages)
      ensures call.OnLogin? ==>
        && users == old(users) && currentUser == Some(call.user)
        && (old(currentUser) != Some(call.user) ==>
              currentView == DefaultView(Some(call.user.role)) && messages == [Greeting(call.user, now)])
        && (old(currentUser) == Some(call.user) ==>
              currentView == old(currentView) && messages == old(messages))
      ensures inputText == old(inputText) && isTyping == old(isTyping)
    {
      match call
      case OnRegister(u) => HandleRegister(u);
      case OnLogin(u) => HandleLogin(u, now);
    }

    /** Submitting the sign-in form while signed out: the form's callbacks applied in the
        order it makes them. A successful registration appends the new donor, saves the
        roster and signs it in on the dashboard; a successful log-in signs in the found
        account on its landing view; a failure changes nothing here. The form is left
        loading after a success (it is replaced by the signed-in shell) and shows the
        error after a failure. The chat input and typing flag are untouched. */
    method SubmitAuth(screen: AuthScreen.AuthForm, freshId: string, now: int)
      requires Valid() && currentUser.None?
      modifies this, screen
      ensures Valid()
      ensures screen.isLogin == old(screen.isLogin) && screen.form == old(screen.form)
      ensures inputText == old(inputText) && isTyping == old(isTyping)
      ensures var r := AuthScreen.Submit(screen.isLogin, old(users), screen.form, freshId);
        && (r.Err? ==> users == old(users) && currentUser == None && currentView == old(currentView)
                       && messages == old(messages))
        && (r.Err? ==> !screen.isLoading && screen.error == AuthScreen.Message(r.error))
        && (r.Ok? ==> screen.isLoading && screen.error == "")
        && (r.Ok? ==> currentUser == Some(r.value) && currentView == DefaultView(Some(r.value.role))
                      && messages == [Greeting(r.value, now)])
        && (r.Ok? && screen.isLogin ==> users == old(users))
        && (r.Ok? && !screen.isLogin ==> users == old(users) + [r.value] && currentView == Dashboard)
    {
      var calls := screen.HandleSubmit(users, freshId);
      if |calls| > 0 {
        Deliver(calls[0], now);
      }
      if |calls| > 1 {
        Deliver(calls[1], now);
      }
    }

    /** The menu and the links: any view may be chosen, whatever the role. */
    method Navigate(view: AppView)
      modifies this`currentView
      ensures currentView == view
    {
      currentView := view;
    }

    /** `showBackButton`: shown whenever the view is not the role's landing view. */
    function ShowBackButton(): (shown: bool)
      reads this
      requires currentUser.Some?
      ensures currentUser.value.role == Hospital ==> (shown <==> currentView != FindDonor)
      ensures currentUser.value.role != Hospital ==> (shown <==> currentView != Dashboard)
      ensures !shown ==> RenderContent(currentView, currentUser.value.role) != Blank
    {
      currentView != DefaultView(Some(currentUser.value.role))
    }

    /** The back button returns to the landing view, which hides it. */
    method PressBack()
      requires currentUser.Some?
      modifies this`currentView
      ensures currentView == DefaultView(Some(currentUser.value.role))
      ensures !ShowBackButton()
    {
      currentView := DefaultView(Some(currentUser.value.role));
    }

    method SetInput(text: string)
      modifies this`inputText
      ensures inputText == text
    {
      inputText := text;
    }

    /** The assistant's send button is disabled while the input is blank or a reply is pending. */
    function SendDisabled(): (disabled: bool)
      reads this
      ensures !disabled <==> !isTyping && !AllSpace(inputText)
    {
      IsBlank(inputText) || isTyping
    }

    /** `handleChatSubmit` up to the awaited reply: a blank input changes nothing;
        otherwise the untrimmed input is appended as the user's message, the input
        cleared and the typing indicator set. Submission is only possible while the send
        button is enabled, so never while a reply is pending. */
    method SubmitChat(id: string, now: int) returns (sent: bool)
      requires !isTyping
      modifies this`messages, this`inputText, this`isTyping
      ensures sent == !IsBlank(old(inputText))
      ensures sent ==>
        && messages == old(messages) + [ChatMessage(id, FromUser, old(inputText), now)]
        && inputText == "" && isTyping
      ensures !sent ==> messages == old(messages) && inputText == old(inputText) && !isTyping
    {
      if IsBlank(inputText) {
        return false;
      }
      messages := messages + [ChatMessage(id, FromUser, inputText, now)];
      inputText := "";
      isTyping := true;
      sent := true;
    }

    /** The rest of `handleChatSubmit` once the reply arrives: append it, clear typing. */
    method ReceiveReply(id: string, now: int, reply: string)
      requires isTyping
      modifies this`messages, this`isTyping
      ensures messages == old(messages) + [ChatMessage(id, FromModel, reply, now)] && !isTyping
    {
      messages := messages + [ChatMessage(id, FromModel, reply, now)];
      isTyping := false;
    }

    /** The whole of `handleChatSubmit`: the transcript grows by exactly the user's
        message and then the reply, or not at all when the input is blank. */
    method HandleChatSubmit(userId: string, askedAt: int, replyId: string, repliedAt: int, reply: string)
      requires !isTyping
      modifies this`messages, this`inputText, this`isTyping
      ensures !isTyping
      ensures IsBlank(old(inputText)) ==> messages == old(messages) && inputText == old(inputText)
      ensures !IsBlank(old(inputText)) ==>
        && inputText == ""
        && messages == old(messages) + [ChatMessage(userId, FromUser, old(inputText), askedAt),
                                        ChatMessage(replyId, FromModel, reply, repliedAt)]
    {
      var sent := SubmitChat(userId, askedAt);
      if sent {
        ReceiveReply(replyId, repliedAt, reply);
      }
    }
  }
}
