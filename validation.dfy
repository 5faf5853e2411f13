/** The form-field chains `body(field).trim().notEmpty().withMessage(m)`:
    the sanitizer `trim` rewrites the submitted field in place (so handlers
    read the trimmed text), and `notEmpty` then reports `m` when nothing is
    left. Both ends are trimmed of the code units JavaScript's `\s` matches. */
module Validation {
  import opened Utf16

  /** Drops leading `\s` code units. */
  function TrimStart(s: JsString): (r: JsString)
    ensures |r| <= |s| && r == s[|s| - |r|..]
    ensures forall i :: 0 <= i < |s| - |r| ==> IsSpace(s[i])
    ensures r != [] ==> !IsSpace(r[0])
  {
    if s != [] && IsSpace(s[0]) then TrimStart(s[1..]) else s
  }

  /** Drops trailing `\s` code units. */
  function TrimEnd(s: JsString): (r: JsString)
    ensures |r| <= |s| && r == s[..|r|]
    ensures forall i :: |r| <= i < |s| ==> IsSpace(s[i])
    ensures r != [] ==> !IsSpace(r[|r| - 1])
  {
    if s != [] && IsSpace(s[|s| - 1]) then TrimEnd(s[..|s| - 1]) else s
  }

  /** The `trim()` sanitizer. What it keeps is a contiguous stretch of the
      field, starting where `TrimStart` stopped, that neither starts nor ends
      with white space. */
  function Trim(s: JsString): (r: JsString)
    ensures var a := |s| - |TrimStart(s)|; a + |r| <= |s| && r == s[a..a + |r|]
    ensures r != [] ==> !IsSpace(r[0]) && !IsSpace(r[|r| - 1])
  {
    var t := TrimStart(s);
    var r := TrimEnd(t);
    SliceOfSuffix(s, t, r);
    assert r != [] ==> !IsSpace(r[0]) && !IsSpace(r[|r| - 1]);
    r
  }

  /** What trimming drops, before and after the kept stretch, is white
      space only. */
  lemma TrimDropsSpace(s: JsString)
    ensures var a := |s| - |TrimStart(s)|;
      && (forall i :: 0 <= i < a ==> IsSpace(s[i]))
      && (forall i :: a + |Trim(s)| <= i < |s| ==> IsSpace(s[i]))
  {
    var t := TrimStart(s);
    SpaceAfterSlice(s, t, TrimEnd(t), |s| - |t|);
  }

  /** A prefix of a suffix is a slice, and starts where the suffix does. */
  lemma SliceOfSuffix(s: JsString, t: JsString, r: JsString)
    requires |t| <= |s| && t == s[|s| - |t|..] && |r| <= |t| && r == t[..|r|]
    ensures r == s[|s| - |t|..|s| - |t| + |r|]
    ensures r != [] ==> r[0] == t[0]
  {
  }

  /** What `TrimEnd` cut off the suffix `t` is white space in `s` too. */
  lemma SpaceAfterSlice(s: JsString, t: JsString, r: JsString, a: nat)
    requires a <= |s| && t == s[a..] && |r| <= |t|
    requires forall j :: |r| <= j < |t| ==> IsSpace(t[j])
    ensures forall i :: a + |r| <= i < |s| ==> IsSpace(s[i])
  {
    forall i | a + |r| <= i < |s|
      ensures IsSpace(s[i])
    {
      assert s[i] == t[i - a];
    }
  }

  /** `notEmpty()` after `trim()` fails exactly when the submitted field is
      empty or made of white space only. */
  lemma TrimEmptyIff(s: JsString)
    ensures Trim(s) == [] <==> forall i :: 0 <= i < |s| ==> IsSpace(s[i])
  {
    var t := TrimStart(s);
    if forall i :: 0 <= i < |s| ==> IsSpace(s[i]) {
      assert t == [];
    }
  }

  /** Trimming a trimmed field changes nothing. */
  lemma TrimIdempotent(s: JsString)
    ensures Trim(Trim(s)) == Trim(s)
  {
    var r := Trim(s);
    if r != [] {
      assert TrimStart(r) == r;
      assert TrimEnd(r) == r;
    }
  }

  /** The messages the `withMessage` calls attach; the forms show `Text(m)`. */
  datatype Message = UsernameRequired | PasswordRequired | UrlRequired | ContentRequired

  function Text(m: Message): string
  {
    match m
    case UsernameRequired => "Username é obrigatório"
    case PasswordRequired => "Password é obrigatório"
    case UrlRequired => "É necessário preencher o campo de URL"
    case ContentRequired => "É necessário preencher o campo de Conteúdo"
  }

  /** The entry one chain contributes to `validationResult(req).array()`:
      `notEmpty()` (a length above zero) checks the field as `trim()` left
      it, so the chain reports its message, once, exactly when nothing is
      left after trimming; by `TrimEmptyIff` that is when the submitted
      field is empty or white space only. */
  function FieldErrors(field: JsString, message: Message): (errs: seq<Message>)
    ensures errs == [] <==> Trim(field) != []
    ensures errs != [] ==> errs == [message]
  {
    if |Trim(field)| > 0 then [] else [message]
  }
}
