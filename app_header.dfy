/**
 * The header bar: the page title by path, the user's name and the avatar image address; and the
 * sidebar's menu, whose paths the titles cover.
 */
module AppHeader {
  import opened Common
  import opened Text

  /** getPageTitle's table. */
  const PageTitles: map<string, string> :=
    map["/" := "Dashboard", "/students" := "Alunos", "/instructors" := "Instrutores",
        "/payments" := "Pagamentos", "/schedule" := "Agendamentos", "/progress" := "Evolução",
        "/workout-plans" := "Planos de Treino", "/notifications" := "Notificações"]

  const DefaultTitle := "Gym CRM Academy"

  function PageTitle(path: string): string {
    Lookup(PageTitles, path, DefaultTitle)
  }

  /** The sidebar's menu entries: a title and the path it opens. */
  datatype MenuItem = MenuItem(title: string, path: string)

  const MenuItems: seq<MenuItem> := [
    MenuItem("Dashboard", "/"), MenuItem("Alunos", "/students"), MenuItem("Instrutores", "/instructors"),
    MenuItem("Pagamentos", "/payments"), MenuItem("Agendamentos", "/schedule"), MenuItem("Evolução", "/progress"),
    MenuItem("Planos de Treino", "/workout-plans"), MenuItem("Notificações", "/notifications")]

  /** Only the eight listed paths have a title of their own; any other path reads "Gym CRM Academy". */
  lemma TitleTable(path: string)
    ensures PageTitle(path) == DefaultTitle <==> path !in PageTitles
    ensures |PageTitles| == 8
  {
  }

  /**
   * Every menu entry opens a page whose header repeats the entry's own title, so no menu path
   * falls to the default; and every titled path is in the menu.
   */
  lemma MenuPathsTitled()
    ensures forall i :: 0 <= i < |MenuItems| ==> PageTitle(MenuItems[i].path) == MenuItems[i].title != DefaultTitle
    ensures forall p :: p in PageTitles ==> exists i :: 0 <= i < |MenuItems| && MenuItems[i].path == p
  {
    forall p | p in PageTitles ensures exists i :: 0 <= i < |MenuItems| && MenuItems[i].path == p {
      if p == "/" { assert MenuItems[0].path == p; }
      else if p == "/students" { assert MenuItems[1].path == p; }
      else if p == "/instructors" { assert MenuItems[2].path == p; }
      else if p == "/payments" { assert MenuItems[3].path == p; }
      else if p == "/schedule" { assert MenuItems[4].path == p; }
      else if p == "/progress" { assert MenuItems[5].path == p; }
      else if p == "/workout-plans" { assert MenuItems[6].path == p; }
      else { assert MenuItems[7].path == p; }
    }
  }

  /** The signed-in user as the auth state holds it; name and avatar may be absent. */
  datatype User = User(name: Option<string>, role: Option<string>, avatar: Option<string>)

  /** The name shown: `user?.name || "Usuário"`. */
  function DisplayName(user: Option<User>): (r: string)
    ensures user.Some? && Truthy(user.value.name) ==> r == user.value.name.value
    ensures !(user.Some? && Truthy(user.value.name)) ==> r == "Usuário"
  {
    OrElse(if user.Some? then user.value.name else None, "Usuário")
  }

  /**
   * The avatar image: the placeholder without an avatar; otherwise the backend address with its
   * first "/api" removed (or the local default when that leaves nothing), "/uploads/" and the
   * avatar file. `backend` is the configured backend address, if any.
   */
  function AvatarUrl(user: Option<User>, backend: Option<string>): (r: string)
    ensures !(user.Some? && Truthy(user.value.avatar)) ==> r == "/placeholder-user.jpg"
    ensures user.Some? && Truthy(user.value.avatar) ==> |r| > |user.value.avatar.value| && r[|r| - |user.value.avatar.value|..] == user.value.avatar.value
    ensures user.Some? && Truthy(user.value.avatar) && backend.None? ==>
      r == "http://localhost:8000/uploads/" + user.value.avatar.value
    ensures (user.Some? && Truthy(user.value.avatar) && backend.Some? && backend.value != ""
             && IndexOf(backend.value, "/api") == -1) ==>
      r == backend.value + "/uploads/" + user.value.avatar.value
    ensures user.Some? && Truthy(user.value.avatar) && backend.Some? && IndexOf(backend.value, "/api") != -1 ==>
      var b, i := backend.value, IndexOf(backend.value, "/api");
      var stripped := b[..i] + b[i + 4..];
      r == (if stripped == "" then "http://localhost:8000" else stripped) + "/uploads/" + user.value.avatar.value
  {
    if user.Some? && Truthy(user.value.avatar) then
      var base := OrElse(if backend.Some? then Some(ReplaceFirst(backend.value, "/api", "")) else None, "http://localhost:8000");
      base + "/uploads/" + user.value.avatar.value
    else "/placeholder-user.jpg"
  }

  /**
   * A backend address ending in "/api" and holding it nowhere else serves avatars from the same
   * host without that suffix.
   */
  lemma AvatarDropsApiSuffix(host: string, avatar: string)
    requires host != [] && IndexOf(host + "/api", "/api") == |host|
    requires avatar != ""
    ensures AvatarUrl(Some(User(None, None, Some(avatar))), Some(host + "/api")) == host + "/uploads/" + avatar
  {
    DropSuffix(host);
    assert OrElse(Some(host), "http://localhost:8000") == host;
  }

  /** Removing the first "/api" of an address that holds it only at the end leaves the host. */
  lemma DropSuffix(host: string)
    requires IndexOf(host + "/api", "/api") == |host|
    ensures ReplaceFirst(host + "/api", "/api", "") == host
  {
    var b := host + "/api";
    assert b[..|host|] == host;
    assert b[|host| + 4..] == [];
  }

  /** A backend address that is just "/api" leaves nothing, so the local default is used. */
  lemma AvatarBareApiFallsBack(avatar: string)
    requires avatar != ""
    ensures AvatarUrl(Some(User(None, None, Some(avatar))), Some("/api")) == "http://localhost:8000/uploads/" + avatar
  {
    assert "/api" <= "/api";
    assert IndexOf("/api", "/api") == 0;
    assert ReplaceFirst("/api", "/api", "") == "";
    assert OrElse(Some(""), "http://localhost:8000") == "http://localhost:8000";
  }
}
