/**
 * The name-entry dialog shown to a first-time user. It keeps the name as
 * typed; Continue (or Enter) hands the trimmed name on, and only when the
 * trimmed name is not empty.
 */
module UserNameModal {
  import opened Wrappers

  /** The single characters `String.prototype.trim` removes, besides the range U+2000..U+200A. */
  const TrimmableChars: set<char> := {
    '\t', '\n', '\U{000B}', '\U{000C}', '\r', ' ', '\U{00A0}', '\U{1680}',
    '\U{2028}', '\U{2029}', '\U{202F}', '\U{205F}', '\U{3000}', '\U{FEFF}'
  }

  /** The characters `String.prototype.trim` removes: ECMAScript white space and line terminators. */
  predicate IsTrimmable(c: char)
  {
    c in TrimmableChars || '\U{2000}' <= c <= '\U{200A}'
  }

  predicate AllTrimmable(s: string)
  {
    forall i :: 0 <= i < |s| ==> IsTrimmable(s[i])
  }

  /** The first position at or after `i` that does not hold white space (`|s|` if there is none). */
  function SkipForward(s: string, i: nat): (j: nat)
    requires i <= |s|
    ensures i <= j <= |s|
    ensures forall k :: i <= k < j ==> IsTrimmable(s[k])
    ensures j == |s| || !IsTrimmable(s[j])
    decreases |s| - i
  {
    if i < |s| && IsTrimmable(s[i]) then SkipForward(s, i + 1) else i
  }

  /** The position just past the last character before `j`, and not before `lo`, that is not white space (`lo` if there is none). */
  function SkipBackward(s: string, lo: nat, j: nat): (k: nat)
    requires lo <= j <= |s|
    ensures lo <= k <= j
    ensures forall m :: k <= m < j ==> IsTrimmable(s[m])
    ensures k == lo || !IsTrimmable(s[k - 1])
  {
    if j > lo && IsTrimmable(s[j - 1]) then SkipBackward(s, lo, j - 1) else j
  }

  /** Where the trimmed text starts in `s`. */
  function TrimStart(s: string): nat
  {
    SkipForward(s, 0)
  }

  /** Where the trimmed text ends in `s`. */
  function TrimEnd(s: string): nat
  {
    SkipBackward(s, TrimStart(s), |s|)
  }

  /** `s.trim()`: neither starts nor ends with white space, and is empty exactly when `s` is all white space. */
  function Trim(s: string): (r: string)
    ensures r == [] || (!IsTrimmable(r[0]) && !IsTrimmable(r[|r| - 1]))
    ensures r == [] <==> AllTrimmable(s)
  {
    s[TrimStart(s)..TrimEnd(s)]
  }

  /** `Trim` keeps a slice of `s` and cuts off only white space on either side. */
  lemma TrimIsSlice(s: string)
    ensures TrimStart(s) <= TrimEnd(s) <= |s|
    ensures Trim(s) == s[TrimStart(s)..TrimEnd(s)]
    ensures forall i :: 0 <= i < TrimStart(s) ==> IsTrimmable(s[i])
    ensures forall i :: TrimEnd(s) <= i < |s| ==> IsTrimmable(s[i])
  {
  }

  /** Trimming twice is trimming once. */
  lemma TrimIdempotent(s: string)
    ensures Trim(Trim(s)) == Trim(s)
  {
    var t := Trim(s);
    if t != [] {
      assert TrimStart(t) == 0;
      assert TrimEnd(t) == |t|;
    }
  }

  /** `handleSave`: the argument given to `onSave`, or nothing when the trimmed name is empty. */
  function HandleSave(name: string): (saved: Option<string>)
    ensures saved.Some? <==> !AllTrimmable(name)
    ensures saved.Some? ==> saved.value == Trim(name) && saved.value != []
    ensures saved.Some? ==> !IsTrimmable(saved.value[0]) && !IsTrimmable(saved.value[|saved.value| - 1])
  {
    var trimmed := Trim(name);
    if trimmed != [] then Some(trimmed) else None
  }

  /** `handleKeyPress`: Enter saves as Continue does; any other key does nothing. */
  function HandleKeyPress(key: string, name: string): (saved: Option<string>)
    ensures key == "Enter" ==> saved == HandleSave(name)
    ensures key != "Enter" ==> saved == None
  {
    if key == "Enter" then HandleSave(name) else None
  }

  /** The Continue button is disabled while the trimmed name is empty. */
  predicate ContinueDisabled(name: string)
  {
    Trim(name) == []
  }

  /** Continue is disabled exactly when pressing it would save nothing. */
  lemma DisabledIffNothingSaved(name: string)
    ensures ContinueDisabled(name) <==> HandleSave(name).None?
    ensures ContinueDisabled(name) <==> AllTrimmable(name)
  {
  }

  /** What the dialog draws: the field's text and whether Continue is disabled. */
  datatype ModalView = ModalView(name: string, continueDisabled: bool)

  /** A closed dialog draws nothing. */
  function Render(isOpen: bool, name: string): (view: Option<ModalView>)
    ensures view.None? <==> !isOpen
    ensures view.Some? ==> view.value.name == name && (view.value.continueDisabled <==> HandleSave(name).None?)
  {
    if isOpen then Some(ModalView(name, ContinueDisabled(name))) else None
  }

  class NameForm {
    var name: string

    constructor ()
      ensures name == ""
    {
      name := "";
    }

    /** The input's `onChange`: the field holds exactly what was typed. */
    method OnChange(value: string)
      modifies this
      ensures name == value
    {
      name := value;
    }
  }

  /** Typing only blanks and pressing Enter never calls `onSave`. */
  method BlankNameNotSaved(blanks: string) returns (saved: Option<string>)
    requires AllTrimmable(blanks)
    ensures saved == None
  {
    var form := new NameForm();
    form.OnChange(blanks);
    saved := HandleKeyPress("Enter", form.name);
  }
}
