/** The page-key normalizer `s.replace(/[^a-z0-9]/gi, "_").toLowerCase()`,
    which every page route applies to a raw title or route parameter before
    it touches the pages directory. */
module Normalizer {
  import opened Utf16

  /** `replace(/[^a-z0-9]/gi, "_")`: every code unit that is not an ASCII
      letter or digit becomes `_`; the global flag makes it a full scan. */
  function Sanitize(s: JsString): (r: JsString)
    ensures |r| == |s|
    ensures forall i :: 0 <= i < |s| ==> r[i] == if IsAlnum(s[i]) then s[i] else UNDERSCORE
  {
    if s == [] then []
    else [if IsAlnum(s[0]) then s[0] else UNDERSCORE] + Sanitize(s[1..])
  }

  /** `toLowerCase()` on a sanitized string. Only ASCII letters, digits and
      `_` reach it, so the ASCII mapping is the whole of it. */
  function LowerCase(s: JsString): (r: JsString)
    ensures |r| == |s|
    ensures forall i :: 0 <= i < |s| ==> r[i] == ToLower(s[i])
  {
    if s == [] then [] else [ToLower(s[0])] + LowerCase(s[1..])
  }

  /** The page key of a raw title or route parameter. It keeps the length in
      code units; position by position, an ASCII letter or digit stays where
      it is, lower-cased, and every other code unit (a space, `/`, `.`, a
      non-ASCII letter, each half of a surrogate pair) becomes `_`. So the
      key is made of `[a-z0-9_]` only. */
  function Normalize(s: JsString): (k: JsString)
    ensures |k| == |s|
    ensures forall i :: 0 <= i < |s| ==> k[i] == KeyChar(s[i])
    ensures IsKey(k)
  {
    LowerCase(Sanitize(s))
  }

  /** A code unit that may appear in a page key. */
  predicate IsKeyChar(c: CodeUnit) { IsLower(c) || IsDigit(c) || c == UNDERSCORE }

  /** A string made of `[a-z0-9_]` only. */
  predicate IsKey(k: JsString)
  {
    forall i :: 0 <= i < |k| ==> IsKeyChar(k[i])
  }

  /** The one code unit the normalizer makes of `c`. */
  function KeyChar(c: CodeUnit): (r: CodeUnit)
    ensures IsKeyChar(r)
    ensures IsAlnum(c) ==> r != UNDERSCORE && (IsLetter(c) ==> IsLower(r)) && (IsDigit(c) ==> r == c)
  {
    if IsAlnum(c) then ToLower(c) else UNDERSCORE
  }

  /** A page key is left as it is. */
  lemma NormalizeKey(k: JsString)
    requires IsKey(k)
    ensures Normalize(k) == k
  {
    forall i | 0 <= i < |k|
      ensures Normalize(k)[i] == k[i]
    {
      assert IsKeyChar(k[i]);
    }
  }

  /** Normalizing twice is normalizing once. */
  lemma NormalizeIdempotent(s: JsString)
    ensures Normalize(Normalize(s)) == Normalize(s)
  {
    NormalizeKey(Normalize(s));
  }

  /** Two raw strings name the same page exactly when they have the same
      length, their ASCII letters and digits sit at the same positions, and
      those agree up to case: the key forgets case and which
      non-alphanumeric code unit stood where. */
  lemma SameKeyIff(p: JsString, t: JsString)
    ensures Normalize(p) == Normalize(t) <==>
      |p| == |t| &&
      forall i :: 0 <= i < |p| ==>
        (IsAlnum(p[i]) <==> IsAlnum(t[i])) && (IsAlnum(p[i]) ==> ToLower(p[i]) == ToLower(t[i]))
  {
    if Normalize(p) == Normalize(t) {
      forall i | 0 <= i < |p|
        ensures (IsAlnum(p[i]) <==> IsAlnum(t[i])) && (IsAlnum(p[i]) ==> ToLower(p[i]) == ToLower(t[i]))
      {
        assert KeyChar(p[i]) == Normalize(p)[i] == Normalize(t)[i] == KeyChar(t[i]);
      }
    }
    if |p| == |t| && forall i :: 0 <= i < |p| ==>
        (IsAlnum(p[i]) <==> IsAlnum(t[i])) && (IsAlnum(p[i]) ==> ToLower(p[i]) == ToLower(t[i])) {
      forall i | 0 <= i < |p|
        ensures Normalize(p)[i] == Normalize(t)[i]
      {
        assert Normalize(p)[i] == KeyChar(p[i]) && Normalize(t)[i] == KeyChar(t[i]);
      }
    }
  }

  const TXT: JsString := [DOT, 0x74, 0x78, 0x74]  // ".txt"

  /** The file a page lives in: `${key}.txt` inside the pages directory. */
  function FileName(k: JsString): (f: JsString)
    ensures |f| == |k| + |TXT| && f[..|k|] == k && f[|k|..] == TXT
  {
    k + TXT
  }

  /** Whatever the raw string, the file it names stays inside the pages
      directory: the file name has no `/` or `\`, its only `.` is the one
      of the `.txt` suffix, and so it is neither `.` nor `..`. */
  lemma NoPathEscape(s: JsString)
    ensures var f := FileName(Normalize(s));
      && SLASH !in f && BACKSLASH !in f
      && (forall i :: 0 <= i < |f| && f[i] == DOT ==> i == |f| - 4)
      && f != [DOT] && f != [DOT, DOT]
  {
    var k := Normalize(s);
    var f := FileName(k);
    forall i | 0 <= i < |f|
      ensures f[i] != SLASH && f[i] != BACKSLASH && (f[i] == DOT ==> i == |f| - 4)
    {
      if i < |k| {
        assert f[i] == k[i] && IsKeyChar(k[i]);
      } else {
        assert f[i] == TXT[i - |k|];
      }
    }
  }
}
