/** The two presentation projections of a raw `:page` route parameter: the
    page title shown by the view route, and the `url` handed to the edit form.
    Both work on the parameter as received, not on its key. */
module DisplayName {
  import opened Utf16
  import opened Normalizer

  /** `replace(/_/g, "-")`: every `_` becomes `-`, every other code unit
      stays where it is. */
  function Hyphenate(s: JsString): (r: JsString)
    ensures |r| == |s|
    ensures forall i :: 0 <= i < |s| ==> r[i] == (if s[i] == UNDERSCORE then HYPHEN else s[i])
  {
    if s == [] then [] else [if s[0] == UNDERSCORE then HYPHEN else s[0]] + Hyphenate(s[1..])
  }

  /** `replace(/\b\w/g, c => c.toUpperCase())` on a string whose code unit
      just before `s` is (`prevWord`) or is not a `\w` code unit: a `\w`
      code unit is upper-cased when a word boundary lies just before it. The
      scan replaces one code unit by one, so the length is kept. */
  function CapitalizeFrom(s: JsString, prevWord: bool): (r: JsString)
    ensures |r| == |s|
  {
    if s == [] then []
    else [if IsWordChar(s[0]) && !prevWord then ToUpper(s[0]) else s[0]]
         + CapitalizeFrom(s[1..], IsWordChar(s[0]))
  }

  /** The global scan upper-cases position `i` exactly when `\b\w` matches
      there: it holds a `\w` unit and the unit before it (or `prevWord`, at
      the start) is not one. */
  lemma {:induction false} CapitalizeAt(s: JsString, prevWord: bool, i: nat)
    requires i < |s|
    ensures CapitalizeFrom(s, prevWord)[i] ==
      if IsWordChar(s[i]) && !(if i == 0 then prevWord else IsWordChar(s[i - 1]))
      then ToUpper(s[i]) else s[i]
  {
    if i > 0 {
      CapitalizeAt(s[1..], IsWordChar(s[0]), i - 1);
    }
  }

  /** The title shown on a page: `page.replace(/_/g, "-").replace(/\b\w/g, …)`.
      It keeps the length of the parameter, turns every `_` into `-`,
      upper-cases an ASCII letter exactly when it starts the parameter or
      follows a code unit that is not an ASCII letter or digit, and leaves
      every other code unit alone (digits, letters inside a word, non-ASCII
      letters). So `my_page_` is shown as `My-Page-`. */
  function Title(page: JsString): (r: JsString)
    ensures |r| == |page|
    ensures forall i :: 0 <= i < |page| ==> r[i] == TitleChar(page, i)
  {
    CapitalizeHyphenated(page);
    CapitalizeFrom(Hyphenate(page), false)
  }

  /** What the title holds at position `i` of the parameter. */
  function TitleChar(page: JsString, i: nat): CodeUnit
    requires i < |page|
  {
    if page[i] == UNDERSCORE then HYPHEN
    else if IsLetter(page[i]) && (i == 0 || !IsAlnum(page[i - 1])) then ToUpper(page[i])
    else page[i]
  }

  /** The capitalizing scan after hyphenation, position by position. */
  lemma CapitalizeHyphenated(page: JsString)
    ensures forall i :: 0 <= i < |page| ==>
      CapitalizeFrom(Hyphenate(page), false)[i] == TitleChar(page, i)
  {
    var h := Hyphenate(page);
    forall i | 0 <= i < |page|
      ensures CapitalizeFrom(h, false)[i] == TitleChar(page, i)
    {
      CapitalizeAt(h, false, i);
    }
  }

  /** The shown title names the same page as the parameter it came from:
      normalizing forgets the hyphens and the capitals it added. */
  lemma TitleSameKey(page: JsString)
    ensures Normalize(Title(page)) == Normalize(page)
  {
    var t := Title(page);
    forall i | 0 <= i < |page|
      ensures Normalize(t)[i] == Normalize(page)[i]
    {
      TitleCharKey(page, i);
      assert Normalize(t)[i] == KeyChar(t[i]) && Normalize(page)[i] == KeyChar(page[i]);
    }
  }

  /** One position of the title has the key of the parameter's code unit
      there. */
  lemma TitleCharKey(page: JsString, i: nat)
    requires i < |page|
    ensures KeyChar(TitleChar(page, i)) == KeyChar(page[i])
  {
  }

  /** The `url` the edit form is rendered with: `page.replace(/_/g, "-")`.
      It keeps the length, turns every `_` into `-`, leaves every other code
      unit alone, and names the same page as the parameter, since `_` and
      `-` both normalize to `_`: a request to the edit route whose parameter
      is this `url` writes the same page. */
  function EditUrl(page: JsString): (r: JsString)
    ensures |r| == |page|
    ensures forall i :: 0 <= i < |page| ==> r[i] == (if page[i] == UNDERSCORE then HYPHEN else page[i])
    ensures Normalize(r) == Normalize(page)
  {
    var r := Hyphenate(page);
    assert forall i :: 0 <= i < |page| ==> Normalize(r)[i] == Normalize(page)[i];
    r
  }

  /** The parameter `my_page_` (the key the title `My Page!` is stored
      under) is shown as `My-Page-`: hyphens stay, and so does the trailing one. */
  lemma TitleOfMyPage(page: JsString)
    requires page == [0x6D, 0x79, 0x5F, 0x70, 0x61, 0x67, 0x65, 0x5F]
    ensures Title(page) == [0x4D, 0x79, 0x2D, 0x50, 0x61, 0x67, 0x65, 0x2D]
  {
    var t := Title(page);
    assert t[0] == TitleChar(page, 0) == 0x4D;
    assert t[1] == TitleChar(page, 1) == 0x79;
    assert t[2] == TitleChar(page, 2) == 0x2D;
    assert t[3] == TitleChar(page, 3) == 0x50;
    assert t[4] == TitleChar(page, 4) == 0x61;
    assert t[5] == TitleChar(page, 5) == 0x67;
    assert t[6] == TitleChar(page, 6) == 0x65;
    assert t[7] == TitleChar(page, 7) == 0x2D;
  }
}
