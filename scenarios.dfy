/** Sequences of requests against one `Site`, and what the handlers'
    contracts let a client conclude about them. */
module Scenarios {
  import opened Utf16
  import opened Normalizer
  import opened Validation
  import opened DisplayName
  import opened Listing
  import opened Site

  /** A page created under the raw title `title` is shown, unchanged apart
      from trimming, by a view of any parameter with the same key. */
  method CreateThenView(site: Site, title: JsString, content: JsString, page: JsString)
    returns (created: Response, viewed: Response)
    requires site.loggedIn && Trim(title) != [] && Trim(content) != []
    requires Normalize(page) == Normalize(Trim(title))
    modifies site
    ensures created == Redirect(ADMIN_PATH)
    ensures viewed == Render(200, PageView(Trim(content), Title(page)))
  {
    created := site.Create(title, content, false);
    viewed := site.View(page, false);
  }

  /** Writes are last-write-wins with no existence check: two creates whose
      titles share a key leave only the second text under that key, and
      every other page as it was. */
  method CreateTwice(site: Site, t1: JsString, c1: JsString, t2: JsString, c2: JsString)
    returns (first: Response, second: Response)
    requires site.loggedIn
    requires Trim(t1) != [] && Trim(c1) != [] && Trim(t2) != [] && Trim(c2) != []
    requires Normalize(Trim(t1)) == Normalize(Trim(t2))
    modifies site
    ensures first == Redirect(ADMIN_PATH) && second == Redirect(ADMIN_PATH)
    ensures site.pages == old(site.pages)[Normalize(Trim(t1)) := Trim(c2)]
  {
    ghost var before, k, v1, v2 := site.pages, Normalize(Trim(t1)), Trim(c1), Trim(c2);
    first := site.Create(t1, c1, false);
    assert site.loggedIn && site.pages == before[k := v1];
    second := site.Create(t2, c2, false);
    assert site.pages == before[k := v1][k := v2];
    assert before[k := v1][k := v2] == before[k := v2];
  }

  /** Every page on the home listing is reachable through its link: when the
      directory listing names every stored page and every stored key is one
      the normalizer produces, page `k` is listed as `(/pages/k, k)`, and
      following that link shows `k`'s text under the title of `k`. */
  method ListThenView(site: Site, files: seq<JsString>, k: JsString)
    returns (home: Response, viewed: Response)
    requires site.ListsPages(files) && site.KeysSafe() && k in site.pages
    ensures home.Render? && home.view.HomeView?
    ensures Entry(PAGES_PREFIX + k, k) in home.view.pages
    ensures viewed == Render(200, PageView(site.pages[k], Title(k)))
  {
    home := site.Home(files, false);
    viewed := site.View(k, false);
  }

  /** A request to the edit route whose parameter is the edit form's `url`
      writes the page the form was opened on: the new text replaces the old
      one there. */
  method EditThroughForm(site: Site, page: JsString, content: JsString)
    returns (form: Response, edited: Response, viewed: Response)
    requires site.loggedIn && Normalize(page) in site.pages && Trim(content) != []
    modifies site
    ensures form == Render(200, EditView(old(site.pages)[Normalize(page)], EditUrl(page), []))
    ensures edited == Redirect(ADMIN_PATH)
    ensures viewed == Render(200, PageView(Trim(content), Title(page)))
    ensures site.pages == old(site.pages)[Normalize(page) := Trim(content)]
  {
    form := site.EditForm(page, false);
    edited := site.Edit(EditUrl(page), content, false);
    viewed := site.View(page, false);
  }

  /** A successful delete removes exactly the page's key: a later view of it
      answers 404 and every other page is still there, unchanged. */
  method DeleteThenView(site: Site, page: JsString)
    returns (deleted: Response, viewed: Response)
    requires site.loggedIn && Normalize(page) in site.pages
    modifies site
    ensures deleted == Redirect(ADMIN_PATH) && viewed == Send(404, NOT_FOUND)
    ensures site.pages.Keys == old(site.pages).Keys - {Normalize(page)}
    ensures forall k :: k in site.pages ==> site.pages[k] == old(site.pages)[k]
  {
    deleted := site.Delete(page, false);
    viewed := site.View(page, false);
  }

  /** The session moves from anonymous to logged in only through a login with
      the configured credentials, and back through logout: the admin page is
      refused before, served in between, and refused after. */
  method LoginLogout(site: Site, username: JsString, password: JsString)
    returns (before: Response, login: Response, during: Response, logout: Response, after: Response)
    requires !site.loggedIn
    requires Trim(username) != [] && Trim(password) != []
    requires site.adminUsername == Some(Trim(username)) && site.adminPassword == Some(Trim(password))
    modifies site
    ensures before == Redirect(LOGIN_PATH) && after == Redirect(LOGIN_PATH)
    ensures login == Redirect(ADMIN_PATH) && during == Render(200, AdminView)
    ensures logout == Redirect(LOGIN_PATH) && !site.loggedIn
    ensures site.pages == old(site.pages)
  {
    before := site.Admin();
    login := site.Login(username, password);
    during := site.Admin();
    logout := site.Logout();
    after := site.Admin();
  }

  /** Without a session, every protected request is redirected to the login
      page, whatever it carries, and neither the pages nor the session move. */
  method AnonymousRequests(site: Site, page: JsString, url: JsString, content: JsString,
                           fails: bool)
    returns (rs: seq<Response>)
    requires !site.loggedIn
    modifies site
    ensures |rs| == 6 && forall i :: 0 <= i < 6 ==> rs[i] == Redirect(LOGIN_PATH)
    ensures site.pages == old(site.pages) && !site.loggedIn
  {
    var a := site.Admin();
    var b := site.CreateForm();
    var c := site.Create(url, content, fails);
    var d := site.EditForm(page, fails);
    var e := site.Edit(page, content, fails);
    var f := site.Delete(page, fails);
    rs := [a, b, c, d, e, f];
  }

  /** A create whose content is empty fails validation: the form comes back
      with the content message alone, and the pages stay as they were. */
  method EmptyContentChangesNothing(site: Site, url: JsString)
    returns (empty: Response)
    requires site.loggedIn && Trim(url) != []
    modifies site
    ensures empty == Render(400, CreateView([ContentRequired]))
    ensures site.pages == old(site.pages)
  {
    var none: JsString := [];
    assert Trim(none) == [];
    empty := site.Create(url, none, false);
  }

  /** An edit whose write fails answers 500 and leaves the pages as they
      were. */
  method FailedEditChangesNothing(site: Site, page: JsString, content: JsString)
    returns (failed: Response)
    requires site.loggedIn && Trim(content) != []
    modifies site
    ensures failed == Send(500, EDIT_ERROR)
    ensures site.pages == old(site.pages)
  {
    failed := site.Edit(page, content, true);
  }
}
