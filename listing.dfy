/** The home page listing: `files.map(file => { name: path.basename(file,
    ".txt"), url: `/pages/${name}` })` over the entries of the pages
    directory, and the heading chosen by whether that list is empty. */
module Listing {
  import opened Utf16
  import opened Normalizer

  /** One link on the home page. */
  datatype Entry = Entry(url: JsString, name: JsString)

  const PAGES_PREFIX: JsString := [SLASH, 0x70, 0x61, 0x67, 0x65, 0x73, SLASH]  // "/pages/"

  const PAGES_CREATED: string := "Páginas criadas:"
  const NO_PAGES: string := "Nenhuma página criada"

  /** `path.basename(file, ".txt")` on a directory entry (which holds no
      `/`): a trailing `.txt` is cut off, including when it is the whole name;
      any other name is kept. */
  function BaseName(file: JsString): (name: JsString)
    ensures name + TXT == file || name == file
    ensures name == file ==> !(|file| >= |TXT| && file[|file| - |TXT|..] == TXT)
  {
    if |file| >= |TXT| && file[|file| - |TXT|..] == TXT then file[..|file| - |TXT|] else file
  }

  /** The link for one directory entry: `/pages/` followed by the entry's
      name without `.txt`. */
  function EntryFor(file: JsString): (e: Entry)
    ensures e.url == PAGES_PREFIX + e.name
    ensures e.name == BaseName(file)
  {
    var name := BaseName(file);
    Entry(PAGES_PREFIX + name, name)
  }

  /** The `files.map(...)` of the home route: one entry per directory entry,
      in directory order. */
  function Entries(files: seq<JsString>): (pages: seq<Entry>)
    ensures |pages| == |files|
    ensures forall i :: 0 <= i < |files| ==> pages[i] == EntryFor(files[i])
  {
    if files == [] then []
    else
      var rest := Entries(files[1..]);
      assert forall i :: 1 <= i < |files| ==> files[1..][i - 1] == files[i];
      [EntryFor(files[0])] + rest
  }

  /** The heading of the home page: "Páginas criadas:" exactly when there
      is an entry, "Nenhuma página criada" exactly when there is none. */
  function Heading(pages: seq<Entry>): (content: string)
    ensures content == PAGES_CREATED <==> pages != []
    ensures content == NO_PAGES <==> pages == []
  {
    if |pages| > 0 then PAGES_CREATED else NO_PAGES
  }

  /** The name listed for the file of page `k` is `k` itself. */
  lemma BaseNameOfFile(k: JsString)
    ensures BaseName(FileName(k)) == k
  {
    var f := FileName(k);
    assert f[|f| - |TXT|..] == TXT;
  }

  /** The file of page `k` in the directory listing gives the entry
      `(/pages/k, k)`. */
  lemma FileListed(files: seq<JsString>, k: JsString)
    requires FileName(k) in files
    ensures Entry(PAGES_PREFIX + k, k) in Entries(files)
  {
    var i :| 0 <= i < |files| && files[i] == FileName(k);
    BaseNameOfFile(k);
    assert Entries(files)[i] == Entry(PAGES_PREFIX + k, k);
  }

  /** A page the service wrote is listed under its key, and its link leads
      back to it: the view route normalizes the listed name to the same key. */
  lemma ListedLinkViewsPage(k: JsString)
    requires IsKey(k)
    ensures EntryFor(FileName(k)) == Entry(PAGES_PREFIX + k, k)
    ensures Normalize(EntryFor(FileName(k)).name) == k
  {
    BaseNameOfFile(k);
    NormalizeKey(k);
  }
}
