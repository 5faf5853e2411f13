# Page service: key normalizer, page store and session gate

This project models `index.js`, a small Express content-management service.
Logged-in operators create, edit and delete text pages. Anyone may view a page
or the home listing. Each page is one `<key>.txt` file in a `pages` directory.
The key comes from a raw title or route parameter through
`s.replace(/[^a-z0-9]/gi, "_").toLowerCase()`. The `authVerify` middleware
lets a request through only when the session's `loggedIn` flag is set;
otherwise it redirects to `/login`.

Modules:

- `Utf16` (`utf16.dfy`): JavaScript strings as sequences of UTF-16 code units.
  It holds the character classes the service's patterns use (`[a-z0-9]` under
  `i`, `\w`, `\s`) and ASCII case mapping. None of the patterns has the `u`
  flag, so they all work one code unit at a time. A non-ASCII letter such as
  `é` therefore becomes one `_`, and a character outside the BMP becomes two.
- `Normalizer` (`normalizer.dfy`): the page-key normalizer, the `.txt` file
  name, and their properties. These are: length in code units, alphabet
  `[a-z0-9_]`, a position-by-position description, idempotence, when two raw
  strings share a key, and that no file name can leave the pages directory.
- `Validation` (`validation.dfy`): the `trim()` sanitizer and `notEmpty()`
  validator of express-validator, and the messages of the forms (a
  `Message` datatype whose `Text` is the Portuguese wording). `trim()`
  rewrites the field, so handlers store and compare the trimmed text.
- `DisplayName` (`display.dfy`): the page title shown by the view route
  (`_` to `-`, then `\b\w` upper-cased) and the `url` of the edit form
  (`_` to `-`). Both are computed from the raw parameter, not from the key.
- `Listing` (`listing.dfy`): the home listing, i.e. `path.basename(file,
  ".txt")` and the `/pages/<name>` link for each directory entry, plus the
  heading.
- `Site` (`site.dfy`): class `Site`. It holds `pages` (the pages directory, a
  map from file basename to text), `loggedIn` (the session flag) and the two
  configured credentials. Each route handler is a method that returns the
  response it sends. File-system failures come in as boolean inputs:
  `readFails`, `writeFails`, `unlinkFails`. The result of reading the
  directory comes in as the list `files`.
- `Scenarios` (`scenarios.dfy`): request sequences over one `Site`, proved
  from the handlers' contracts. They cover create-then-view round trips,
  last-write-wins, following a home-page link, editing through the edit form's `url`, delete-then-404, the
  login/logout cycle, anonymous requests, and failed writes.

The model follows the code on points where a reader might expect otherwise:

- The title shown for parameter `my_page_` is `My-Page-`, not `My Page`
  (`DisplayName.TitleOfMyPage`).
- The title is derived from the raw parameter, not from the key.
- The stored content and the compared credentials are the trimmed field values.
- Deleting a missing page answers 500, the same as any removal error.
- Editing a page that does not exist creates it.

## Model

| member | source | states |
|---|---|---|
| Utf16.IsSpace | index.js:74-75 | the white-space set that `trim()` strips. It is not written in index.js: express-validator's `trim()` (validator.js) uses JavaScript's `\s`, i.e. ECMAScript's WhiteSpace and LineTerminator code points. No member of the set lies in 0x30..0x7A, so white space is never a letter, a digit or `_` |
| Normalizer.Sanitize | index.js:136 | `replace(/[^a-z0-9]/gi, "_")` keeps the length and, position by position, keeps an ASCII letter or digit and turns every other code unit into `_` |
| Normalizer.LowerCase | index.js:136 | `toLowerCase()` on the sanitized string keeps the length and lower-cases each code unit in place |
| Normalizer.Normalize | index.js:136 | the key (computed the same way at index.js lines 154, 174, 210 and 228) keeps the length of the raw string; at each position an ASCII letter or digit stays, lower-cased, and any other code unit becomes `_`; so the key consists of `[a-z0-9_]` only |
| Normalizer.NormalizeKey | index.js:154 | a string already in `[a-z0-9_]*` is its own key, so the view route finds a page under its exact key |
| Normalizer.NormalizeIdempotent | index.js:136 | normalizing a key again changes nothing |
| Normalizer.SameKeyIff | index.js:136 | two raw strings share a key if and only if they have equal length, alphanumerics at the same positions, and those agree up to case |
| Normalizer.FileName | index.js:137 | a page's file name is its key followed by exactly the four units `.txt` |
| Normalizer.NoPathEscape | index.js:136-137 | for every raw string the file name has no `/` or `\`, its only `.` is the suffix's, and it is neither `.` nor `..` |
| Validation.TrimStart | index.js:119-126 | the left half of every `.trim()` (index.js lines 74-75, 120, 124 and 192 each trim both ends): the result is a suffix of the field, everything dropped is `\s`, and it does not start with `\s` |
| Validation.TrimEnd | index.js:119-126 | the right half of every `.trim()`: the result is a prefix of the field, everything dropped is `\s`, and it does not end with `\s` |
| Validation.Trim | index.js:74-75 | the trimmed field is the contiguous slice of the submitted one that starts where leading white space ends, and it neither starts nor ends with white space |
| Validation.TrimDropsSpace | index.js:119-126 | everything trimming cuts away, before and after the kept slice, is white space |
| Validation.TrimEmptyIff | index.js:121-126 | `notEmpty()` after `trim()` fails if and only if the field is empty or all white space |
| Validation.TrimIdempotent | index.js:191-192 | trimming a trimmed field changes nothing |
| Validation.FieldErrors | index.js:119-126 | one `body(f).trim().notEmpty().withMessage(m)` chain contributes exactly `[m]` when the trimmed field is empty, and nothing when it is not |
| DisplayName.Hyphenate | index.js:161 | `replace(/_/g, "-")` keeps the length, turns every `_` into `-` and leaves every other code unit in place |
| DisplayName.CapitalizeFrom | index.js:161-163 | the global `\b\w` replacement replaces one code unit by one, so the length is kept |
| DisplayName.CapitalizeAt | index.js:161-163 | the global `\b\w` replacement upper-cases position i exactly when it holds a `\w` unit and position i-1 (or the start) does not |
| DisplayName.Title | index.js:161-163 | the title keeps the length, maps `_` to `-`, upper-cases an ASCII letter exactly at the start or after a non-`[A-Za-z0-9]` unit, and leaves every other unit alone |
| DisplayName.TitleSameKey | index.js:154-163 | the shown title normalizes to the same key as the parameter it came from |
| DisplayName.TitleOfMyPage | index.js:161 | parameter `my_page_` is shown as `My-Page-` |
| DisplayName.EditUrl | index.js:181 | the `url` of the edit form (also re-rendered on a 400 at index.js line 202) keeps the length, maps `_` to `-`, leaves every other unit alone, and normalizes to the same key as the parameter, so a request to the edit route whose parameter is this `url` writes the same page |
| Listing.BaseName | index.js:55 | `path.basename(file, ".txt")` is the file with a trailing `.txt` cut off, or the file unchanged when it does not end in `.txt` |
| Listing.EntryFor | index.js:55-56 | the entry's link is `/pages/` followed by its name, and the name is `path.basename(file, ".txt")`: the file with a trailing `.txt` cut off, or the whole file when it has none |
| Listing.Entries | index.js:54-57 | one entry per directory entry, in the same order, each the entry of that file |
| Listing.Heading | index.js:59-60 | the heading is "Páginas criadas:" exactly when there is an entry, and "Nenhuma página criada" exactly when there is none |
| Listing.BaseNameOfFile | index.js:55 | the name listed for the file of page `k` is `k` |
| Listing.FileListed | index.js:54-57 | when the directory holds the file of page `k`, the listing contains the entry `(/pages/k, k)` |
| Listing.ListedLinkViewsPage | index.js:54-56 | for a key `k`, the listed entry is `(/pages/k, k)` and its name normalizes back to `k` |
| Site.LoginErrors | index.js:73-81 | the login form's error list, case by case: empty when both trimmed fields are non-empty, the username message alone, the password message alone, or both with the username message first |
| Site.LoginErrorsName | index.js:74-75 | the username message is in the list exactly when the trimmed username is empty, and likewise the password message |
| Site.CreateErrors | index.js:118-132 | the create form's error list, case by case: empty when both trimmed fields are non-empty, the url message alone, the content message alone, or both with the url message first |
| Site.CreateErrorsName | index.js:119-126 | the url message is in the list exactly when the trimmed url is empty, and likewise the content message |
| Site.Site.constructor | index.js:26-33 | a new browser has no logged-in session; the store is the existing directory |
| Site.Site.AuthVerify | index.js:39-45 | the gate lets a request through exactly when `loggedIn`, and otherwise answers with a redirect to `/login` |
| Site.Site.Home | index.js:48-63 | 500 on a failed directory read; otherwise one entry per file with its name and link, and the heading by emptiness. The file of any page `k` is listed as `(/pages/k, k)`; when the listing names every stored page, every page is listed so; when every stored key is normalizer output, a listed entry that names a stored page links to `/pages/<name>` and its name normalizes to itself, so the view route finds that page under the key it was listed for |
| Site.Site.LoginForm | index.js:66-68 | the login form is rendered for anyone, without errors |
| Site.Site.Login | index.js:71-95 | 400 with the messages of the empty trimmed fields; a match of both trimmed fields with the configured values sets `loggedIn` and redirects to `/admin`; otherwise 401; only success changes the session |
| Site.Site.Logout | index.js:98-102 | the session is cleared whatever its state, with a redirect to `/login` |
| Site.Site.Expire | index.js:31 | when the session's maximum age elapses the session is no longer logged in |
| Site.Site.Admin | index.js:105-107 | the admin page is rendered when logged in, otherwise a redirect to `/login` |
| Site.Site.CreateForm | index.js:110-112 | the create form is rendered when logged in, otherwise a redirect to `/login` |
| Site.Site.Create | index.js:115-146 | gate before validation; 400 with the form errors; 500 on a failed write; success stores the trimmed content under the key of the trimmed url, overwriting, and redirects to `/admin`; only success changes the store, and every stored key stays in `[a-z0-9_]*` |
| Site.Site.View | index.js:149-166 | the page under the parameter's key with the parameter's title, or 404 when it is missing or unreadable |
| Site.Site.EditForm | index.js:169-184 | gate first; the stored text with the hyphenated `url`, or 404 |
| Site.Site.Edit | index.js:187-220 | gate first; 400 re-rendering the form with the empty content and the hyphenated `url`; 500 on a failed write; success replaces the page under the parameter's key and redirects to `/admin`; only success changes the store |
| Site.Site.Delete | index.js:223-237 | gate first; 500 when the file is missing or the removal fails, store unchanged; success removes exactly that key and redirects to `/admin` |
| Scenarios.CreateThenView | index.js:136-157 | content created under title `t` is shown, as trimmed, by a view of any parameter with the same key |
| Scenarios.CreateTwice | index.js:136-139 | two creates whose titles share a key both succeed and leave the second text under that key, every other page unchanged: last write wins |
| Scenarios.EditThroughForm | index.js:169-220 | after opening the edit form, an edit request whose parameter is the form's `url` replaces that page's text, and the view shows the new text |
| Scenarios.DeleteThenView | index.js:228-236 | after a successful delete the page answers 404, and every other page is unchanged |
| Scenarios.LoginLogout | index.js:84-107 | the admin page is refused, then served after a correct login, then refused after logout; pages are untouched |
| Scenarios.AnonymousRequests | index.js:39-45 | without a session, all six protected requests redirect to `/login` and change neither the pages nor the session |
| Scenarios.ListThenView | index.js:54-57 | when the listing names every stored page and every key is normalizer output, each page is listed as `(/pages/k, k)`, and viewing that link shows the page's text under the title of `k` |
| Scenarios.EmptyContentChangesNothing | index.js:115-132 | a create with empty content answers 400 with the content message alone, and the store is unchanged |
| Scenarios.FailedEditChangesNothing | index.js:213-216 | an edit whose write fails answers 500, and the store is unchanged |

## Left out

- Express setup, static directories, body and cookie parsing, the `hbs` templates, `dotenv` and `listen`. This is framework plumbing. Views are values of the `View` datatype, and the configured credentials are constructor arguments.
- Express routing: which URL reaches which handler is not modelled. After URL-decoding, `:page` may hold `/` (sent as `%2F`) and `.`, as in `../../index.js`. The handlers accept every string as the parameter, and `Normalizer.NoPathEscape` shows that the file they touch stays in the pages directory whatever it holds.
- The edit template. The form is taken to post to `/pages/<url>/edit`, and Express URL-decodes that parameter again. A `url` containing `/`, `?`, `#` or `%` therefore does not come back unchanged: `100%25` arrives as `100%`, and `a/b` matches no route. Every key the normalizer makes (`[a-z0-9_]*`) comes back unchanged. The model states what the edit route does with a parameter equal to the form's `url` (`Scenarios.EditThroughForm`), not that a browser sends that parameter.
- The file system. The pages directory is a map, and `readdir`/`readFile`/`writeFile`/`unlink` failures are boolean inputs. OS error kinds are not modelled.
- UTF-8 storage. Page text is stored and read back as the exact code units written. `writeFile` and `readFile` (index.js:139, 157, 213) encode and decode UTF-8, so a lone surrogate would read back as U+FFFD. A URL-encoded form body cannot carry one: the body parser decodes UTF-8 and leaves an invalid percent-escape such as `%ED%A0%80` undecoded, so `Scenarios.CreateThenView` holds for every text a form can submit.
- Site.Site.Create: a write that fails after truncating the file would leave a partial file. The model keeps the old content on any failed write.
- Site.Site.Edit: a failed write keeps the old content, as for `Create`; a partial file is not modelled.
- Site.Site.Home: the directory entries are an input, and their enumeration order is not modelled. That the listing names every stored page is the hypothesis `ListsPages(files)` of the contract, not a fact derived from the file system.
- Session cookies: signing, the mirror `loggedIn` cookie and the 60000 ms maximum age as clock arithmetic. Expiry is the `Expire` transition.
- express-validator beyond `trim()`/`notEmpty()`. A missing field is modelled as the empty string, and non-string bodies (arrays, objects from extended URL encoding) are not modelled.
- `toLowerCase` outside ASCII. Only `[A-Za-z0-9_]` reaches it, so the ASCII mapping is exact.
- `path.basename` on names that contain `/`. Directory entries never contain one.
- `console.log` (index.js:135), and concurrent requests racing on one key.
