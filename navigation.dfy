/** The application's navigation history (src/App.tsx): a stack of strings that
    starts as ["home"], three click handlers that push onto it, and the back
    handler that pops it and restores the view from the new top entry. */
module Navigation {
  import opened Types
  import opened Text

  /** A history entry as its meaning; the stack itself holds the strings. */
  datatype Entry = Home | Profile | ProjectView(projectId: string) | UserView(userId: string)

  /** The string an entry is pushed as: 'home', 'profile', `project:${id}`,
      `user:${id}`. */
  function Encode(e: Entry): (r: string)
    ensures Decode(r).Some?
    ensures ColonFree(e) ==> Decode(r) == Some(e)
  {
    match e
    case Home => "home"
    case Profile => "profile"
    case ProjectView(id) =>
      DecodeProjectEntry(id);
      "project:" + id
    case UserView(id) =>
      DecodeUserEntry(id);
      "user:" + id
  }

  /** The back handler's reading of an entry: exact matches for 'home' and
      'profile', then prefix tests, the id being `split(':')[1]`. Any other
      string selects no branch. */
  function Decode(s: string): (r: Option<Entry>)
    ensures r.Some? ==> ColonFree(r.value)
  {
    if s == "home" then Some(Home)
    else if s == "profile" then Some(Profile)
    else if StartsWith(s, "project:") then
      assert s[7] == s[..8][7];
      Some(ProjectView(SecondField(s)))
    else if StartsWith(s, "user:") then
      assert s[4] == s[..5][4];
      Some(UserView(SecondField(s)))
    else None
  }

  /** The entry's id, if it has one, contains no ':'. */
  predicate ColonFree(e: Entry)
  {
    match e
    case ProjectView(id) => ':' !in id
    case UserView(id) => ':' !in id
    case _ => true
  }

  lemma DecodeProjectEntry(id: string)
    ensures Decode("project:" + id) == Some(ProjectView(FirstSegment(id)))
  {
    var s := "project:" + id;
    assert s[0] == 'p' && s[3] == 'j' && |s| >= 8;
    assert s[..8] == "project:";
    assert "project" + ":" + id == s;
    SecondFieldAfterTag("project", id);
  }

  lemma DecodeUserEntry(id: string)
    ensures Decode("user:" + id) == Some(UserView(FirstSegment(id)))
  {
    var s := "user:" + id;
    assert s[0] == 'u' && |s| >= 5;
    assert s != "home" && s != "profile";
    assert !StartsWith(s, "project:") by {
      assert |s| < 8 || s[..8][0] == 'u';
    }
    assert s[..5] == "user:";
    assert "user" + ":" + id == s;
    SecondFieldAfterTag("user", id);
  }

  /** Decoding an encoded entry keeps only the part of its id before the first
      ':'. */
  lemma DecodeEncode(e: Entry)
    ensures Decode(Encode(e)) ==
      match e
      case Home => Some(Home)
      case Profile => Some(Profile)
      case ProjectView(id) => Some(ProjectView(FirstSegment(id)))
      case UserView(id) => Some(UserView(FirstSegment(id)))
  {
    match e
    case Home =>
    case Profile =>
    case ProjectView(id) => DecodeProjectEntry(id);
    case UserView(id) => DecodeUserEntry(id);
  }

  /** Encoding then decoding round-trips exactly for the entries whose id has no
      ':'. */
  lemma RoundTrip(e: Entry)
    ensures Decode(Encode(e)) == Some(e) <==> ColonFree(e)
  {
    DecodeEncode(e);
  }

  /** Whatever the back handler reads from an entry string is written back as a
      string it reads the same way. */
  lemma DecodeStable(s: string)
    ensures Decode(s).Some? ==> Decode(Encode(Decode(s).value)) == Decode(s)
  {
    if Decode(s).Some? {
      RoundTrip(Decode(s).value);
    }
  }

  /** An id with a ':' comes back truncated: a project "a:b" is restored as "a". */
  lemma RoundTripTruncates()
    ensures Decode(Encode(ProjectView("a:b"))) == Some(ProjectView("a"))
  {
    DecodeProjectEntry("a:b");
    assert "a:b"[1..] == ":b";
    assert FirstSegment("a:b") == "a";
  }

  /** The location pushed to the browser for an entry. */
  function Location(e: Entry): (r: string)
    ensures |r| >= 1 && r[0] == '/'
    ensures r == "/" <==> e.Home?
  {
    match e
    case Home => "/"
    case Profile => "/profile"
    case ProjectView(id) => "/project/" + id
    case UserView(id) => "/user/" + id
  }

  lemma LocationShape(e: Entry)
    ensures e.Home? ==> Location(e) == "/"
    ensures e.Profile? ==> Location(e) == "/profile"
    ensures e.ProjectView? ==>
      |Location(e)| >= 9 && Location(e)[1] == 'p' && Location(e)[4] == 'j' && Location(e)[9..] == e.projectId
    ensures e.UserView? ==>
      |Location(e)| >= 6 && Location(e)[1] == 'u' && Location(e)[6..] == e.userId
  {
  }

  /** Distinct entries get distinct locations. */
  lemma LocationInjective(a: Entry, b: Entry)
    ensures Location(a) == Location(b) <==> a == b
  {
    LocationShape(a);
    LocationShape(b);
  }

  /** `'' || x` and `x ? … : …` treat the empty string like undefined. */
  predicate Truthy(o: Option<string>)
  {
    o.Some? && o.value != ""
  }

  /** The id a selected value stands for once written to and read back from the
      history. */
  predicate SameId(selected: Option<string>, id: string)
  {
    selected.Some? && FirstSegment(selected.value) == id
  }

  class App {
    var history: seq<string>
    var showProfile: bool
    var selectedProjectId: Option<string>
    var selectedUserId: Option<string>
    var previousPath: string

    /** The view described by the top entry of the history. */
    ghost predicate ShowsTop()
      reads this
      requires history != []
    {
      match Decode(history[|history| - 1])
      case Some(Home) => !showProfile && selectedProjectId.None? && selectedUserId.None?
      case Some(Profile) => showProfile && selectedProjectId.None?
      case Some(ProjectView(id)) => showProfile && SameId(selectedProjectId, id)
      case Some(UserView(id)) => showProfile && selectedProjectId.None? && SameId(selectedUserId, id)
      case None => false
    }

    /** The history is never empty, its root is 'home', every entry is one the
        back handler recognises, and the rendered view is the one its top entry
        describes. */
    ghost predicate Valid()
      reads this
    {
      && history != []
      && history[0] == "home"
      && (forall i :: 0 <= i < |history| ==> Decode(history[i]).Some?)
      && ShowsTop()
    }

    constructor()
      ensures Valid()
      ensures history == ["home"] && !showProfile
      ensures selectedProjectId == None && selectedUserId == None && previousPath == "home"
    {
      history := ["home"];
      showProfile := false;
      selectedProjectId := None;
      selectedUserId := None;
      previousPath := "home";
    }

    /** handleProfileClick(userId?) */
    method ProfileClick(userId: Option<string>) returns (location: string)
      requires Valid()
      modifies this
      ensures Valid()
      ensures Truthy(userId) ==>
        history == old(history) + [Encode(UserView(userId.value))] &&
        location == Location(UserView(userId.value)) &&
        selectedUserId == userId
      ensures !Truthy(userId) ==>
        history == old(history) + [Encode(Profile)] &&
        location == Location(Profile) &&
        selectedUserId == Some("user123")
      ensures showProfile && selectedProjectId == None
      ensures previousPath == if old(showProfile) && Truthy(old(selectedProjectId)) then "project" else "home"
    {
      var entry := if Truthy(userId) then UserView(userId.value) else Profile;
      history := history + [Encode(entry)];
      previousPath := if showProfile && Truthy(selectedProjectId) then "project" else "home";
      location := Location(entry);
      showProfile := true;
      selectedProjectId := None;
      selectedUserId := if Truthy(userId) then userId else Some("user123");
      DecodeEncode(entry);
      assert history[|history| - 1] == Encode(entry);
    }

    /** handleHomeClick */
    method HomeClick() returns (location: string)
      requires Valid()
      modifies this
      ensures Valid()
      ensures history == old(history) + [Encode(Home)]
      ensures location == Location(Home)
      ensures !showProfile && selectedProjectId == None && selectedUserId == None
      ensures previousPath == old(previousPath)
    {
      history := history + [Encode(Home)];
      location := Location(Home);
      showProfile := false;
      selectedProjectId := None;
      selectedUserId := None;
      assert history[|history| - 1] == "home";
    }

    /** handleProjectClick(projectId) */
    method ProjectClick(projectId: string) returns (location: string)
      requires Valid()
      modifies this
      ensures Valid()
      ensures history == old(history) + [Encode(ProjectView(projectId))]
      ensures location == Location(ProjectView(projectId))
      ensures showProfile && selectedProjectId == Some(projectId)
      ensures selectedUserId == old(selectedUserId)
      ensures previousPath == if old(showProfile) then "profile" else "home"
    {
      previousPath := if showProfile then "profile" else "home";
      history := history + [Encode(ProjectView(projectId))];
      location := Location(ProjectView(projectId));
      selectedProjectId := Some(projectId);
      showProfile := true;
      DecodeEncode(ProjectView(projectId));
      assert history[|history| - 1] == Encode(ProjectView(projectId));
    }

    /** handlePopState: drop the top entry unless it is the only one, then
        restore the view the new top entry names. */
    method Back()
      requires Valid()
      modifies this
      ensures Valid()
      ensures previousPath == old(previousPath)
      ensures |old(history)| == 1 ==>
        history == old(history) && showProfile == old(showProfile) &&
        selectedProjectId == old(selectedProjectId) && selectedUserId == old(selectedUserId)
      ensures |old(history)| > 1 ==> history == old(history)[..|old(history)| - 1]
      ensures |old(history)| > 1 ==>
        match Decode(history[|history| - 1])
        case Some(Home) => !showProfile && selectedProjectId == None && selectedUserId == None
        case Some(Profile) =>
          showProfile && selectedProjectId == None && selectedUserId == old(selectedUserId)
        case Some(ProjectView(id)) =>
          showProfile && selectedProjectId == Some(id) && selectedUserId == old(selectedUserId)
        case Some(UserView(id)) =>
          showProfile && selectedProjectId == None && selectedUserId == Some(id)
        case None => false
    {
      if |history| > 1 {
        history := history[..|history| - 1];
        var top := history[|history| - 1];
        assert Decode(top).Some?;
        if top == "home" {
          showProfile := false;
          selectedProjectId := None;
          selectedUserId := None;
        } else if top == "profile" {
          showProfile := true;
          selectedProjectId := None;
        } else if StartsWith(top, "project:") {
          var id := SecondField(top);
          showProfile := true;
          selectedProjectId := Some(id);
        } else if StartsWith(top, "user:") {
          var id := SecondField(top);
          showProfile := true;
          selectedUserId := Some(id);
          selectedProjectId := None;
        }
      }
    }
  }

  /** Any push followed by one back leaves the history as it was. */
  method PushThenBack(app: App, e: Entry) returns (location: string)
    requires app.Valid()
    modifies app
    ensures app.Valid()
    ensures app.history == old(app.history)
    ensures location == Location(if e.UserView? && e.userId == "" then Profile else e)
  {
    ghost var before := app.history;
    match e {
      case Home =>
        location := app.HomeClick();
      case ProjectView(id) =>
        location := app.ProjectClick(id);
      case UserView(id) =>
        location := app.ProfileClick(Some(id));
      case Profile =>
        location := app.ProfileClick(None);
    }
    assert app.history[..|before|] == before;
    app.Back();
  }

  /** Home, a user's profile, a project, then back twice: the feed is shown again
      with nothing selected, on a history of two 'home' entries. */
  method HomeProfileProjectBackBack() returns (app: App)
    ensures app.Valid()
    ensures app.history == ["home", "home"]
    ensures !app.showProfile && app.selectedProjectId == None && app.selectedUserId == None
  {
    app := new App();
    var _ := app.HomeClick();
    ghost var root := app.history;
    var _ := app.ProfileClick(Some("u1"));
    var _ := PushThenBack(app, ProjectView("p7"));
    assert app.history[..|root|] == root;
    app.Back();
  }

  /** A push followed by one back restores the history but not always the view:
      after going to the feed and back, the user selection is gone unless the
      entry returned to is itself a user entry, even when a user was selected
      before the push. */
  method HomeThenBack(app: App)
    requires app.Valid()
    modifies app
    ensures app.Valid()
    ensures app.history == old(app.history)
    ensures app.previousPath == old(app.previousPath)
    ensures app.selectedUserId ==
      match Decode(old(app.history)[|old(app.history)| - 1])
      case Some(UserView(id)) => Some(id)
      case _ => None
    ensures app.selectedProjectId ==
      match Decode(old(app.history)[|old(app.history)| - 1])
      case Some(ProjectView(id)) => Some(id)
      case _ => None
  {
    ghost var before := app.history;
    var _ := app.HomeClick();
    assert app.history[..|before|] == before;
    app.Back();
  }

  /** A user's profile, then a project, then the feed and back: the project is
      shown again, but the user selected before the push to the feed is not. */
  method BackLosesSelectedUser() returns (app: App)
    ensures app.Valid()
    ensures app.showProfile && app.selectedProjectId == Some("p")
    ensures app.selectedUserId == None
  {
    app := new App();
    var _ := app.ProfileClick(Some("u"));
    var _ := app.ProjectClick("p");
    assert app.selectedUserId == Some("u");
    RoundTrip(ProjectView("p"));
    HomeThenBack(app);
  }

  /** The back handler never restores `previousPath`: a user profile, then a
      project (recording 'profile'), then back to the profile leaves 'profile',
      though it was 'home' before the project was pushed. */
  method BackKeepsPreviousPath() returns (app: App)
    ensures app.Valid()
    ensures app.history == ["home", Encode(UserView("u"))]
    ensures app.previousPath == "profile"
  {
    app := new App();
    var _ := app.ProfileClick(Some("u"));
    ghost var pushed := app.history;
    assert app.previousPath == "home";
    var _ := app.ProjectClick("p");
    assert app.history[..2] == pushed;
    app.Back();
  }
}
