/** The profile form of pages/Profile.tsx: its validity test and the single-field
    update it hands to the shell's update callback. */
module Profile {
  import opened Types

  /** The fields the form edits; `skills` has no control on the form. */
  datatype ProfileField = Name | Field | VisaType | LanguageLevel | Preferences

  /** The choices of the language-level select, in order. */
  const LanguageLevels: seq<string> := ["A1", "A2", "B1", "B2", "C1", "C2"]

  /** The value of a form field. */
  function Get(u: UserProfile, f: ProfileField): string {
    match f
    case Name => u.name
    case Field => u.field
    case VisaType => u.visaType
    case LanguageLevel => u.languageLevel
    case Preferences => u.preferences
  }

  /** `handleChange(f, v)`: the profile `{ ...user, [f]: v }`. */
  function HandleChange(u: UserProfile, f: ProfileField, v: string): (r: UserProfile)
    ensures Get(r, f) == v
    ensures forall g :: g != f ==> Get(r, g) == Get(u, g)
    ensures r.skills == u.skills
  {
    match f
    case Name => u.(name := v)
    case Field => u.(field := v)
    case VisaType => u.(visaType := v)
    case LanguageLevel => u.(languageLevel := v)
    case Preferences => u.(preferences := v)
  }

  /** The characters `String.prototype.trim` removes: white space and line terminators. */
  predicate IsWhitespace(c: char) {
    || c == '\t' || c == '\n' || c == '\U{B}' || c == '\U{C}' || c == '\r' || c == ' '
    || c == '\U{A0}' || c == '\U{1680}' || ('\U{2000}' <= c <= '\U{200A}')
    || c == '\U{2028}' || c == '\U{2029}' || c == '\U{202F}' || c == '\U{205F}'
    || c == '\U{3000}' || c == '\U{FEFF}'
  }

  predicate AllWhitespace(s: string) {
    forall i :: 0 <= i < |s| ==> IsWhitespace(s[i])
  }

  /** Leading white space removed: a suffix of `s` that is empty or starts with
      a character that is not white space, and only white space was dropped. */
  function TrimStart(s: string): (r: string)
    ensures |r| <= |s| && r == s[|s| - |r|..]
    ensures AllWhitespace(s[..|s| - |r|])
    ensures r != "" ==> !IsWhitespace(r[0])
    ensures r == "" <==> AllWhitespace(s)
  {
    if s != "" && IsWhitespace(s[0]) then TrimStart(s[1..]) else s
  }

  /** Trailing white space removed: a prefix of `s` that is empty or ends with
      a character that is not white space, and only white space was dropped. */
  function TrimEnd(s: string): (r: string)
    ensures |r| <= |s| && r == s[..|r|]
    ensures AllWhitespace(s[|r|..])
    ensures r != "" ==> !IsWhitespace(r[|r| - 1])
    ensures r == "" <==> AllWhitespace(s)
  {
    if s != "" && IsWhitespace(s[|s| - 1]) then TrimEnd(s[..|s| - 1]) else s
  }

  /** `s.trim()`: the slice `s[k..k + |r|]` left once white space is dropped from
      both ends; it neither starts nor ends with white space. */
  function Trim(s: string): (r: string)
    ensures exists k :: 0 <= k <= |s| - |r| && r == s[k..k + |r|]
                        && AllWhitespace(s[..k]) && AllWhitespace(s[k + |r|..])
    ensures r != "" ==> !IsWhitespace(r[0]) && !IsWhitespace(r[|r| - 1])
  {
    var t := TrimStart(s);
    var r := TrimEnd(t);
    var k := |s| - |t|;
    assert t == s[k..];
    assert r == s[k..k + |r|];
    assert s[k + |r|..] == t[|r|..];
    assert r != "" ==> r[0] == t[0];
    assert 0 <= k <= |s| - |r| && r == s[k..k + |r|]
           && AllWhitespace(s[..k]) && AllWhitespace(s[k + |r|..]);
    r
  }

  /** A string trims to "" exactly when all of it is white space. */
  lemma TrimEmptyIffAllWhitespace(s: string)
    ensures Trim(s) == "" <==> AllWhitespace(s)
  {
  }

  /** `isFormValid`: a valid form has a name, a field and a visa type. */
  predicate IsFormValid(u: UserProfile)
    ensures IsFormValid(u) ==> u.name != "" && u.field != "" && u.visaType != ""
  {
    Trim(u.name) != "" && u.field != "" && u.visaType != ""
  }

  /** The form is valid exactly when the name has a character that is not white
      space and a field and a visa type are chosen. */
  lemma FormValidIff(u: UserProfile)
    ensures IsFormValid(u) <==>
      (exists i :: 0 <= i < |u.name| && !IsWhitespace(u.name[i])) && u.field != "" && u.visaType != ""
  {
    TrimEmptyIffAllWhitespace(u.name);
  }

  /** A name made only of white space, the empty name included, makes the form invalid. */
  lemma WhitespaceNameInvalid(u: UserProfile)
    requires AllWhitespace(u.name)
    ensures !IsFormValid(u)
  {
    TrimEmptyIffAllWhitespace(u.name);
  }

  /** What the form shows: whether "Save & Enter Dashboard" is enabled and whether
      the notice asking for name, field and visa type is shown. */
  datatype FormView = FormView(saveEnabled: bool, errorShown: bool)

  function View(u: UserProfile): (v: FormView)
    ensures v.saveEnabled <==> IsFormValid(u)
    ensures v.errorShown <==> !v.saveEnabled
  {
    FormView(IsFormValid(u), !IsFormValid(u))
  }

  /** Editing the language level or the preferences never changes validity. */
  lemma EditKeepsValidity(u: UserProfile, f: ProfileField, v: string)
    requires f == LanguageLevel || f == Preferences
    ensures IsFormValid(HandleChange(u, f, v)) == IsFormValid(u)
  {
  }

  /** The language levels offered are the six CEFR levels, each offered once. */
  lemma LanguageLevelChoices()
    ensures |LanguageLevels| == 6
    ensures forall i, j :: 0 <= i < j < |LanguageLevels| ==> LanguageLevels[i] != LanguageLevels[j]
    ensures forall l :: l in LanguageLevels <==> l in {"A1", "A2", "B1", "B2", "C1", "C2"}
  {
  }
}
