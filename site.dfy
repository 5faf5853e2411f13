/** The request handlers of the page service, as one object holding the
    pages directory (file basename to text) and the requesting browser's
    session flag. Every route handler is a method returning the response it
    sends; I/O failures of the file calls arrive as boolean inputs. */
module Site {
  import opened Utf16
  import opened Normalizer
  import opened Validation
  import opened DisplayName
  import opened Listing

  datatype Option<T> = None | Some(value: T)

  const LOGIN_PATH: string := "/login"
  const ADMIN_PATH: string := "/admin"

  const READ_PAGES_ERROR: string := "Erro ao ler as páginas"
  const BAD_CREDENTIALS: string := "Usuário ou senha incorretos"
  const CREATE_ERROR: string := "Erro na criação da página"
  const NOT_FOUND: string := "Página não encontrada"
  const EDIT_ERROR: string := "Erro ao editar a página"
  const DELETE_ERROR: string := "Erro ao excluir a página"

  /** The templates and the values they are rendered with. */
  datatype View =
    | HomeView(pages: seq<Entry>, heading: string)
    | LoginView(errors: seq<Message>)
    | AdminView
    | CreateView(errors: seq<Message>)
    | PageView(content: JsString, page: JsString)
    | EditView(content: JsString, url: JsString, errors: seq<Message>)

  /** What a handler sends: a redirect, a rendered template with its status,
      or a plain text body with its status. */
  datatype Response =
    | Redirect(location: string)
    | Render(status: nat, view: View)
    | Send(status: nat, message: string)

  /** `validationResult(req).array()` of the login form: one message per
      field that is empty once trimmed, username first, then password. */
  function LoginErrors(username: JsString, password: JsString): (errs: seq<Message>)
    ensures Trim(username) != [] && Trim(password) != [] ==> errs == []
    ensures Trim(username) == [] && Trim(password) != [] ==> errs == [UsernameRequired]
    ensures Trim(username) != [] && Trim(password) == [] ==> errs == [PasswordRequired]
    ensures Trim(username) == [] && Trim(password) == [] ==> errs == [UsernameRequired, PasswordRequired]
  {
    var u := FieldErrors(username, UsernameRequired);
    var p := FieldErrors(password, PasswordRequired);
    TwoChains(u, p, UsernameRequired, PasswordRequired, Trim(username) == [], Trim(password) == []);
    u + p
  }

  /** `validationResult(req).array()` of the create form: url first, then
      content. */
  function CreateErrors(url: JsString, content: JsString): (errs: seq<Message>)
    ensures Trim(url) != [] && Trim(content) != [] ==> errs == []
    ensures Trim(url) == [] && Trim(content) != [] ==> errs == [UrlRequired]
    ensures Trim(url) != [] && Trim(content) == [] ==> errs == [ContentRequired]
    ensures Trim(url) == [] && Trim(content) == [] ==> errs == [UrlRequired, ContentRequired]
  {
    var u := FieldErrors(url, UrlRequired);
    var c := FieldErrors(content, ContentRequired);
    TwoChains(u, c, UrlRequired, ContentRequired, Trim(url) == [], Trim(content) == []);
    u + c
  }

  /** Each login message is reported exactly when its field is empty once
      trimmed. */
  lemma LoginErrorsName(username: JsString, password: JsString)
    ensures UsernameRequired in LoginErrors(username, password) <==> Trim(username) == []
    ensures PasswordRequired in LoginErrors(username, password) <==> Trim(password) == []
  {
    PairMembers(LoginErrors(username, password), UsernameRequired, PasswordRequired,
      Trim(username) == [], Trim(password) == []);
  }

  /** Each create-form message is reported exactly when its field is empty
      once trimmed. */
  lemma CreateErrorsName(url: JsString, content: JsString)
    ensures UrlRequired in CreateErrors(url, content) <==> Trim(url) == []
    ensures ContentRequired in CreateErrors(url, content) <==> Trim(content) == []
  {
    PairMembers(CreateErrors(url, content), UrlRequired, ContentRequired,
      Trim(url) == [], Trim(content) == []);
  }

  /** The entries of two chains in declaration order: the first reports `a`
      when `x`, the second `b` when `y`. */
  lemma TwoChains(u: seq<Message>, v: seq<Message>, a: Message, b: Message, x: bool, y: bool)
    requires u == [] <==> !x
    requires u != [] ==> u == [a]
    requires v == [] <==> !y
    requires v != [] ==> v == [b]
    ensures x && y ==> u + v == [a, b]
    ensures x && !y ==> u + v == [a]
    ensures !x && y ==> u + v == [b]
    ensures !x && !y ==> u + v == []
  {
  }

  /** The list of two chains, `a` reported when `x` and then `b` when `y`,
      holds each message exactly when its chain reports it. */
  lemma PairMembers(errs: seq<Message>, a: Message, b: Message, x: bool, y: bool)
    requires a != b
    requires x && y ==> errs == [a, b]
    requires x && !y ==> errs == [a]
    requires !x && y ==> errs == [b]
    requires !x && !y ==> errs == []
    ensures a in errs <==> x
    ensures b in errs <==> y
  {
    if x && y {
      assert errs[0] == a && errs[1] == b;
    } else if x {
      assert errs[0] == a;
    } else if y {
      assert errs[0] == b;
    }
  }

  class Site {
    /** The pages directory: each file's name without `.txt`, to its text. */
    var pages: map<JsString, JsString>
    /** `req.session.loggedIn` for the session of the requesting browser. */
    var loggedIn: bool
    /** `process.env.ADMIN_USERNAME` and `process.env.ADMIN_PASSWORD`; an
        unset variable is `None` and equals no submitted string. */
    const adminUsername: Option<JsString>
    const adminPassword: Option<JsString>

    /** A service started over an existing pages directory, seen from a
        browser without a session. */
    constructor (adminUsername: Option<JsString>, adminPassword: Option<JsString>,
                 pages: map<JsString, JsString>)
      ensures this.adminUsername == adminUsername && this.adminPassword == adminPassword
      ensures this.pages == pages && !loggedIn
    {
      this.adminUsername := adminUsername;
      this.adminPassword := adminPassword;
      this.pages := pages;
      loggedIn := false;
    }

    /** Every page file has a name the normalizer can produce. */
    ghost predicate KeysSafe()
      reads this
    {
      forall k :: k in pages ==> IsKey(k)
    }

    /** The middleware `authVerify`: lets the request through (`None`) exactly
        when the session is logged in, and otherwise answers with a redirect
        to the login page. */
    function AuthVerify(): (gate: Option<Response>)
      reads this
      ensures gate.None? <==> loggedIn
      ensures gate.Some? ==> gate.value == Redirect(LOGIN_PATH)
    {
      if loggedIn then None else Some(Redirect(LOGIN_PATH))
    }

    /** The directory listing `files` names the file of every stored page. */
    ghost predicate ListsPages(files: seq<JsString>)
      reads this
    {
      forall k :: k in pages ==> FileName(k) in files
    }

    /** GET `/`: lists the entries `files` that reading the pages directory
        returned, or answers 500 when the read failed. When `files` lists
        every page file, every page appears as `(/pages/k, k)`; when every
        stored key is one the normalizer produces, the link of a listed page
        leads the view route back to exactly that page. */
    method Home(files: seq<JsString>, readFails: bool) returns (r: Response)
      ensures readFails ==> r == Send(500, READ_PAGES_ERROR)
      ensures !readFails ==> r.Render? && r.status == 200 && r.view.HomeView?
      ensures !readFails ==> |r.view.pages| == |files|
      ensures !readFails ==> forall i :: 0 <= i < |files| ==>
        r.view.pages[i].name == BaseName(files[i]) &&
        r.view.pages[i].url == PAGES_PREFIX + BaseName(files[i])
      ensures !readFails ==> (r.view.heading == PAGES_CREATED <==> files != [])
      ensures !readFails ==> (r.view.heading == NO_PAGES <==> files == [])
      ensures !readFails ==> forall k :: FileName(k) in files ==>
        Entry(PAGES_PREFIX + k, k) in r.view.pages
      ensures !readFails && ListsPages(files) ==> forall k :: k in pages ==>
        Entry(PAGES_PREFIX + k, k) in r.view.pages
      ensures !readFails && KeysSafe() ==> forall e :: e in r.view.pages && e.name in pages ==>
        e.url == PAGES_PREFIX + e.name && Normalize(e.name) == e.name
    {
      if readFails {
        return Send(500, READ_PAGES_ERROR);
      }
      var entries := Entries(files);
      r := Render(200, HomeView(entries, Heading(entries)));
      forall k | FileName(k) in files
        ensures Entry(PAGES_PREFIX + k, k) in entries
      {
        FileListed(files, k);
      }
      if KeysSafe() {
        forall e | e in entries && e.name in pages
          ensures e.url == PAGES_PREFIX + e.name && Normalize(e.name) == e.name
        {
          NormalizeKey(e.name);
        }
      }
    }

    /** GET `/login`: the login form, for anyone. */
    method LoginForm() returns (r: Response)
      ensures r == Render(200, LoginView([]))
    {
      r := Render(200, LoginView([]));
    }

    /** POST `/login`. Both fields are trimmed; an empty one answers 400 with
        its message; trimmed fields equal to both configured credentials log
        the session in and redirect to `/admin`; anything else answers 401.
        Only a successful login changes the session. */
    method Login(username: JsString, password: JsString) returns (r: Response)
      modifies this`loggedIn
      ensures var u, p := Trim(username), Trim(password);
        if u == [] || p == [] then
          r == Render(400, LoginView(LoginErrors(username, password))) && loggedIn == old(loggedIn)
        else if adminUsername == Some(u) && adminPassword == Some(p) then
          r == Redirect(ADMIN_PATH) && loggedIn
        else
          r == Send(401, BAD_CREDENTIALS) && loggedIn == old(loggedIn)
    {
      var errors := LoginErrors(username, password);
      var u, p := Trim(username), Trim(password);
      if errors != [] {
        return Render(400, LoginView(errors));
      }
      if adminUsername == Some(u) && adminPassword == Some(p) {
        loggedIn := true;
        r := Redirect(ADMIN_PATH);
      } else {
        r := Send(401, BAD_CREDENTIALS);
      }
    }

    /** GET `/logout`: destroys the session, whatever its state, and
        redirects to `/login`. */
    method Logout() returns (r: Response)
      modifies this`loggedIn
      ensures !loggedIn && r == Redirect(LOGIN_PATH)
    {
      loggedIn := false;
      r := Redirect(LOGIN_PATH);
    }

    /** The session cookie's maximum age elapses: the session is gone. */
    method Expire()
      modifies this`loggedIn
      ensures !loggedIn
    {
      loggedIn := false;
    }

    /** GET `/admin`, behind `authVerify`. */
    method Admin() returns (r: Response)
      ensures loggedIn ==> r == Render(200, AdminView)
      ensures !loggedIn ==> r == Redirect(LOGIN_PATH)
    {
      var gate := AuthVerify();
      if gate.Some? {
        return gate.value;
      }
      r := Render(200, AdminView);
    }

    /** GET `/admin/create`, behind `authVerify`. */
    method CreateForm() returns (r: Response)
      ensures loggedIn ==> r == Render(200, CreateView([]))
      ensures !loggedIn ==> r == Redirect(LOGIN_PATH)
    {
      var gate := AuthVerify();
      if gate.Some? {
        return gate.value;
      }
      r := Render(200, CreateView([]));
    }

    /** POST `/admin/create`, behind `authVerify`, which runs before the
        fields are validated. The trimmed content is written, overwriting
        whatever page has the same key, under the key of the trimmed url. */
    method Create(url: JsString, content: JsString, writeFails: bool) returns (r: Response)
      modifies this`pages
      ensures
        if !loggedIn then r == Redirect(LOGIN_PATH) && pages == old(pages)
        else if Trim(url) == [] || Trim(content) == [] then
          r == Render(400, CreateView(CreateErrors(url, content))) && pages == old(pages)
        else if writeFails then r == Send(500, CREATE_ERROR) && pages == old(pages)
        else r == Redirect(ADMIN_PATH) && pages == old(pages)[Normalize(Trim(url)) := Trim(content)]
      ensures old(KeysSafe()) ==> KeysSafe()
    {
      var gate := AuthVerify();
      if gate.Some? {
        return gate.value;
      }
      var errors := CreateErrors(url, content);
      var u, c := Trim(url), Trim(content);
      if errors != [] {
        return Render(400, CreateView(errors));
      }
      var key := Normalize(u);
      if writeFails {
        return Send(500, CREATE_ERROR);
      }
      pages := pages[key := c];
      r := Redirect(ADMIN_PATH);
    }

    /** GET `/pages/:page`, for anyone: the page stored under the key of the
        parameter, titled after the parameter itself; 404 when the file is
        missing or cannot be read. */
    method View(page: JsString, readFails: bool) returns (r: Response)
      ensures var key := Normalize(page);
        if key in pages && !readFails then r == Render(200, PageView(pages[key], Title(page)))
        else r == Send(404, NOT_FOUND)
    {
      var key := Normalize(page);
      if key !in pages || readFails {
        return Send(404, NOT_FOUND);
      }
      r := Render(200, PageView(pages[key], Title(page)));
    }

    /** GET `/pages/:page/edit`, behind `authVerify`: the edit form filled
        with the stored text, its `url` the parameter with `_` made `-`. */
    method EditForm(page: JsString, readFails: bool) returns (r: Response)
      ensures !loggedIn ==> r == Redirect(LOGIN_PATH)
      ensures loggedIn ==> var key := Normalize(page);
        if key in pages && !readFails then r == Render(200, EditView(pages[key], EditUrl(page), []))
        else r == Send(404, NOT_FOUND)
    {
      var gate := AuthVerify();
      if gate.Some? {
        return gate.value;
      }
      var key := Normalize(page);
      if key !in pages || readFails {
        return Send(404, NOT_FOUND);
      }
      r := Render(200, EditView(pages[key], EditUrl(page), []));
    }

    /** POST `/pages/:page/edit`, behind `authVerify`. The trimmed content
        replaces the page stored under the key of the parameter; the page
        need not exist already. */
    method Edit(page: JsString, content: JsString, writeFails: bool) returns (r: Response)
      modifies this`pages
      ensures
        if !loggedIn then r == Redirect(LOGIN_PATH) && pages == old(pages)
        else if Trim(content) == [] then
          r == Render(400, EditView([], EditUrl(page), [ContentRequired])) && pages == old(pages)
        else if writeFails then r == Send(500, EDIT_ERROR) && pages == old(pages)
        else r == Redirect(ADMIN_PATH) && pages == old(pages)[Normalize(page) := Trim(content)]
      ensures old(KeysSafe()) ==> KeysSafe()
    {
      var gate := AuthVerify();
      if gate.Some? {
        return gate.value;
      }
      var errors := FieldErrors(content, ContentRequired);
      var c := Trim(content);
      if errors != [] {
        return Render(400, EditView(c, EditUrl(page), errors));
      }
      var key := Normalize(page);
      if writeFails {
        return Send(500, EDIT_ERROR);
      }
      pages := pages[key := c];
      r := Redirect(ADMIN_PATH);
    }

    /** POST `/pages/:page/delete`, behind `authVerify`. Removing a missing
        file fails like any other removal error: 500, nothing changed. */
    method Delete(page: JsString, unlinkFails: bool) returns (r: Response)
      modifies this`pages
      ensures
        if !loggedIn then r == Redirect(LOGIN_PATH) && pages == old(pages)
        else if Normalize(page) !in old(pages) || unlinkFails then
          r == Send(500, DELETE_ERROR) && pages == old(pages)
        else r == Redirect(ADMIN_PATH) && pages == old(pages) - {Normalize(page)}
      ensures old(KeysSafe()) ==> KeysSafe()
    {
      var gate := AuthVerify();
      if gate.Some? {
        return gate.value;
      }
      var key := Normalize(page);
      if key !in pages || unlinkFails {
        return Send(500, DELETE_ERROR);
      }
      pages := pages - {key};
      r := Redirect(ADMIN_PATH);
    }
  }
}
