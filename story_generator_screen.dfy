/**
 * The story generator form: four text fields, a per-field "X is required"
 * error map rebuilt by each validation, and the generate button, which calls
 * the story context only when every field has non-whitespace text.
 */
module StoryGeneratorScreen {
  import opened Common
  import opened OpenAIService
  import opened StoryContext

  /** The form's fields, in the order of the parameter object's keys. */
  datatype Field = MainCharacter | Setting | Theme | AgeGroup

  const FieldOrder: seq<Field> := [MainCharacter, Setting, Theme, AgeGroup]

  /** The parameter object's key for a field. */
  function Key(f: Field): string {
    match f
    case MainCharacter => "mainCharacter"
    case Setting => "setting"
    case Theme => "theme"
    case AgeGroup => "ageGroup"
  }

  function Value(p: StoryParams, f: Field): string {
    match f
    case MainCharacter => p.mainCharacter
    case Setting => p.setting
    case Theme => p.theme
    case AgeGroup => p.ageGroup
  }

  /** `{ ...storyParams, [f]: text }`. */
  function WithValue(p: StoryParams, f: Field, text: string): (q: StoryParams)
    ensures Value(q, f) == text
    ensures forall g :: g != f ==> Value(q, g) == Value(p, g)
  {
    match f
    case MainCharacter => p.(mainCharacter := text)
    case Setting => p.(setting := text)
    case Theme => p.(theme := text)
    case AgeGroup => p.(ageGroup := text)
  }

  /** The characters `String.prototype.trim` removes: white space and line terminators. */
  predicate IsTrimmed(c: char) {
    c == '\U{9}' || c == '\U{A}' || c == '\U{B}' || c == '\U{C}' || c == '\U{D}' || c == ' '
    || c == '\U{A0}' || c == '\U{1680}' || ('\U{2000}' <= c <= '\U{200A}')
    || c == '\U{2028}' || c == '\U{2029}' || c == '\U{202F}' || c == '\U{205F}'
    || c == '\U{3000}' || c == '\U{FEFF}'
  }

  predicate Blank(s: string) {
    forall k :: 0 <= k < |s| ==> IsTrimmed(s[k])
  }

  /** Dropping one leading white-space character does not change whether the text is blank. */
  lemma BlankTail(s: string)
    requires s != [] && IsTrimmed(s[0])
    ensures Blank(s) <==> Blank(s[1..])
  {
    if Blank(s[1..]) {
      forall k | 0 <= k < |s| ensures IsTrimmed(s[k]) {
        if k > 0 { assert s[k] == s[1..][k - 1]; }
      }
    }
  }

  /** Leading white space removed. */
  function TrimStart(s: string): string {
    if s != [] && IsTrimmed(s[0]) then TrimStart(s[1..]) else s
  }

  /** The text without its leading white space: a suffix, empty iff the text is blank, starting with a non-space. */
  lemma {:induction false} TrimStartShape(s: string)
    ensures |TrimStart(s)| <= |s| && TrimStart(s) == s[|s| - |TrimStart(s)|..]
    ensures TrimStart(s) == "" <==> Blank(s)
    ensures TrimStart(s) != "" ==> !IsTrimmed(TrimStart(s)[0])
  {
    if s != [] && IsTrimmed(s[0]) {
      TrimStartShape(s[1..]);
      BlankTail(s);
    }
  }

  /** Trailing white space removed. */
  function TrimEnd(s: string): string {
    if s != [] && IsTrimmed(s[|s| - 1]) then TrimEnd(s[..|s| - 1]) else s
  }

  /** The text without its trailing white space: a prefix ending with a non-space, kept non-empty by a non-space first character. */
  lemma {:induction false} TrimEndShape(s: string)
    ensures |TrimEnd(s)| <= |s| && TrimEnd(s) == s[..|TrimEnd(s)|]
    ensures TrimEnd(s) != "" ==> !IsTrimmed(TrimEnd(s)[|TrimEnd(s)| - 1])
    ensures s != "" && !IsTrimmed(s[0]) ==> TrimEnd(s) != ""
  {
    if s != [] && IsTrimmed(s[|s| - 1]) {
      TrimEndShape(s[..|s| - 1]);
    }
  }

  /** `String.prototype.trim`: empty exactly when the text is all white space. */
  function Trim(s: string): (r: string)
    ensures r == "" <==> Blank(s)
  {
    TrimStartShape(s);
    TrimEndShape(TrimStart(s));
    TrimEnd(TrimStart(s))
  }

  /** The trimmed text is a slice of the text that starts and ends with a non-space. */
  lemma TrimShape(s: string)
    ensures Contains(s, Trim(s))
    ensures Trim(s) != "" ==> !IsTrimmed(Trim(s)[0]) && !IsTrimmed(Trim(s)[|Trim(s)| - 1])
  {
    var start := TrimStart(s);
    TrimStartShape(s);
    TrimEndShape(start);
    assert OccursAt(s, Trim(s), |s| - |start|);
  }

  /** JavaScript's `toUpperCase` on an ASCII letter; other characters are left as they are. */
  function UpperAscii(c: char): char {
    if 'a' <= c <= 'z' then (c as int - 32) as char else c
  }

  /** `${key.charAt(0).toUpperCase() + key.slice(1)} is required`. */
  function RequiredMessage(f: Field): (m: string)
    ensures |m| == |Key(f)| + |" is required"|
    ensures 'A' <= m[0] <= 'Z' && m[0] == UpperAscii(Key(f)[0])
    ensures m[1..|Key(f)|] == Key(f)[1..]
    ensures EndsWith(m, " is required")
  {
    var key := Key(f);
    var m := [UpperAscii(key[0])] + key[1..] + " is required";
    assert m[1..|key|] == key[1..];
    m
  }

  lemma MainCharacterMessage()
    ensures RequiredMessage(MainCharacter) == "MainCharacter is required"
  {
  }

  lemma SettingMessage()
    ensures RequiredMessage(Setting) == "Setting is required"
  {
  }

  lemma ThemeMessage()
    ensures RequiredMessage(Theme) == "Theme is required"
  {
  }

  lemma AgeGroupMessage()
    ensures RequiredMessage(AgeGroup) == "AgeGroup is required"
  {
  }

  /** Where a field sits in the iteration order. */
  function Position(f: Field): (i: nat)
    ensures i < |FieldOrder| && FieldOrder[i] == f
  {
    match f
    case MainCharacter => 0
    case Setting => 1
    case Theme => 2
    case AgeGroup => 3
  }

  /** The iteration visits every field, each at exactly one position. */
  lemma FieldOrderCoversEveryField(f: Field, i: nat)
    requires i < |FieldOrder|
    ensures f in FieldOrder
    ensures FieldOrder[i] == f <==> Position(f) == i
  {
  }

  /**
   * The `forEach` of `validateForm`: an error exactly for each field whose
   * trimmed text is empty, and valid exactly when there is none.
   */
  method CollectErrors(p: StoryParams) returns (errors: map<Field, string>, valid: bool)
    ensures forall f :: f in errors <==> Trim(Value(p, f)) == ""
    ensures forall f :: f in errors ==> errors[f] == RequiredMessage(f)
    ensures valid <==> forall f :: Trim(Value(p, f)) != ""
    ensures valid <==> errors == map[]
  {
    errors := map[];
    valid := true;
    for i := 0 to |FieldOrder|
      invariant forall f :: f in errors <==> Position(f) < i && Trim(Value(p, f)) == ""
      invariant forall f :: f in errors ==> errors[f] == RequiredMessage(f)
      invariant valid <==> errors == map[]
    {
      var f := FieldOrder[i];
      assert Position(f) == i;
      if Trim(Value(p, f)) == "" {
        errors := errors[f := RequiredMessage(f)];
        valid := false;
      }
    }
    if !valid {
      var f :| f in errors;
    }
  }

  class StoryGeneratorForm {
    var params: StoryParams
    var errors: map<Field, string>

    constructor ()
      ensures params == StoryParams("", "", "", "") && errors == map[]
    {
      params := StoryParams("", "", "", "");
      errors := map[];
    }

    /** Every recorded error is the generated message of its field. */
    predicate ErrorsWellFormed()
      reads this
    {
      forall f :: f in errors ==> errors[f] == RequiredMessage(f)
    }

    /** `validateForm`: the error map is replaced wholesale by one entry per blank field. */
    method ValidateForm() returns (valid: bool)
      modifies this
      ensures params == old(params) && ErrorsWellFormed()
      ensures forall f :: f in errors <==> Trim(Value(params, f)) == ""
      ensures valid <==> forall f :: Trim(Value(params, f)) != ""
    {
      errors, valid := CollectErrors(params);
    }

    /**
     * `handleGenerate`: validate, and only when valid run the story
     * context's generation with the current parameters.
     */
    method HandleGenerate(draft: StoryDraft, api: ChatRequest -> Option<seq<string>>,
                          json: string -> Option<StoryFields>, now: nat) returns (generated: Option<Result<GeneratedStory, Thrown>>)
      modifies this, draft
      ensures params == old(params) && ErrorsWellFormed()
      ensures generated.Some? <==> forall f :: Trim(Value(params, f)) != ""
      ensures generated.None? ==>
        draft.currentStory == old(draft.currentStory) && draft.isGenerating == old(draft.isGenerating)
        && draft.error == old(draft.error)
      ensures forall f :: f in errors <==> Trim(Value(params, f)) == ""
      ensures generated.Some? ==>
        generated.value == AsThrown(OpenAIService.GenerateStory(params, api, json, now)) && !draft.isGenerating
      ensures generated.Some? && generated.value.Success? ==>
        draft.currentStory == Some(generated.value.value) && draft.error == None
      ensures generated.Some? && generated.value.Failure? ==>
        draft.currentStory == old(draft.currentStory) && draft.error == Some(GenerationFailed)
    {
      var valid := ValidateForm();
      if !valid {
        return None;
      }
      var outcome := draft.GenerateStory(params, api, json, now);
      generated := Some(outcome);
    }

    /** A field's `onChangeText`: store the text and clear that field's error only. */
    method OnChangeText(f: Field, text: string)
      modifies this
      ensures params == WithValue(old(params), f, text)
      ensures f !in errors || errors[f] == ""
      ensures forall g :: g != f ==> (g in errors <==> g in old(errors))
      ensures forall g :: g != f && g in errors ==> errors[g] == old(errors)[g]
      ensures old(ErrorsWellFormed()) ==> ErrorsWellFormed() && errors == old(errors) - {f}
    {
      params := WithValue(params, f, text);
      if f in errors && errors[f] != "" {
        errors := errors - {f};
      }
    }
  }
}
