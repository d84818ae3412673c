/** The screen flow of the bar: the customer's mood is typed in, a menu is
    generated for it, a card is picked, the drink is mixed and the receipt is
    printed, after which everything is reset for the next customer.

    The asynchronous menu request is split into two discrete steps: the
    request starts (StartAnalysis), and later it resolves (AnalysisResolves)
    or rejects (AnalysisRejects). */
module AppState {
  import opened Types
  import Gemini
  import RetroPrinter

  /** The characters String.prototype.trim removes: the ECMAScript WhiteSpace
      and LineTerminator code points. */
  predicate IsJsWhitespace(c: char)
  {
    || c == '\t' || c == '\U{000B}' || c == '\U{000C}' || c == ' ' || c == '\U{00A0}'
    || c == '\U{1680}' || ('\U{2000}' <= c <= '\U{200A}') || c == '\U{202F}' || c == '\U{205F}'
    || c == '\U{3000}' || c == '\U{FEFF}'
    || c == '\n' || c == '\r' || c == '\U{2028}' || c == '\U{2029}'
  }

  /** Text made of whitespace only (the empty text included). */
  predicate Blank(s: string)
  {
    forall k :: 0 <= k < |s| ==> IsJsWhitespace(s[k])
  }

  /** Where the text proper starts: the length of the leading whitespace. */
  function TrimStart(s: string): (i: nat)
    ensures i <= |s|
    ensures forall k :: 0 <= k < i ==> IsJsWhitespace(s[k])
    ensures i < |s| ==> !IsJsWhitespace(s[i])
  {
    if |s| == 0 || !IsJsWhitespace(s[0]) then 0 else 1 + TrimStart(s[1..])
  }

  /** Where the text proper ends: everything from here on is whitespace. */
  function TrimEnd(s: string): (j: nat)
    ensures j <= |s|
    ensures forall k :: j <= k < |s| ==> IsJsWhitespace(s[k])
    ensures j > 0 ==> !IsJsWhitespace(s[j - 1])
  {
    if |s| == 0 || !IsJsWhitespace(s[|s| - 1]) then |s| else TrimEnd(s[..|s| - 1])
  }

  /** `s.trim()`: the text with leading and trailing whitespace removed. It is
      empty exactly when the text is blank, and otherwise neither starts nor
      ends with whitespace. */
  function Trim(s: string): (r: string)
    ensures r == [] <==> Blank(s)
    ensures |r| > 0 ==> !IsJsWhitespace(r[0]) && !IsJsWhitespace(r[|r| - 1])
    ensures |r| <= |s|
  {
    var i := TrimStart(s);
    var j := TrimEnd(s);
    if j <= i then [] else s[i..j]
  }

  /** The prefix of the message shown when menu generation rejects. */
  const SyncFailed: string := "同步失败：信号干扰。"

  /** The suffix used when the rejection is not an Error object. */
  const RetryHint: string := "请重试。"

  class App {
    var stage: GameStage
    var moodInput: string
    var menu: seq<DrinkRecipe>
    var targetRecipe: Option<DrinkRecipe>
    var finalMix: Option<MixState>
    var error: Option<string>

    /** The current stage's screen has what it renders: the menu screen a
        non-empty menu, the mixing screen a target, the result screen a target
        and a final mix. */
    predicate ScreenShown()
      reads this
    {
      && (stage == MenuSelect ==> |menu| > 0)
      && (stage == Mixing ==> targetRecipe.Some?)
      && (stage == Result ==> targetRecipe.Some? && finalMix.Some?)
    }

    ghost predicate Valid()
      reads this
    {
      && ScreenShown()
      && (stage == Analyzing ==> !Blank(moodInput))
      && (stage == Mixing || stage == Result ==> targetRecipe.Some? && targetRecipe.value in menu)
    }

    /** The app as first mounted. */
    constructor ()
      ensures Valid()
      ensures stage == MoodInput && moodInput == [] && menu == []
      ensures targetRecipe == None && finalMix == None && error == None
    {
      stage := MoodInput;
      moodInput := [];
      menu := [];
      targetRecipe := None;
      finalMix := None;
      error := None;
    }

    /** Typing in the mood box (shown only on the mood screen). */
    method SetMoodInput(text: string)
      requires Valid() && stage == MoodInput
      modifies this
      ensures Valid()
      ensures moodInput == text
      ensures stage == old(stage) && menu == old(menu) && targetRecipe == old(targetRecipe)
      ensures finalMix == old(finalMix) && error == old(error)
    {
      moodInput := text;
    }

    /** The start button: blank text does nothing; otherwise the request starts,
        the analysing screen shows and any earlier error is cleared. */
    method StartAnalysis() returns (started: bool)
      requires Valid() && stage == MoodInput
      modifies this
      ensures Valid()
      ensures started <==> !Blank(old(moodInput))
      ensures !started ==> stage == old(stage) && error == old(error)
      ensures started ==> stage == Analyzing && error == None
      ensures moodInput == old(moodInput) && menu == old(menu)
      ensures targetRecipe == old(targetRecipe) && finalMix == old(finalMix)
    {
      if Trim(moodInput) == [] {
        return false;
      }
      stage := Analyzing;
      error := None;
      started := true;
    }

    /** The request resolves: the generated menu is stored and the menu screen
        shows. The generator never returns an empty menu, so the menu screen
        always has cards. */
    method AnalysisResolves(keys: Gemini.KeySources, call: Gemini.CallOutcome)
      requires Valid() && stage == Analyzing
      modifies this
      ensures Valid()
      ensures menu == Gemini.GenerateMoodMenu(old(moodInput), keys, call)
      ensures stage == MenuSelect
      ensures moodInput == old(moodInput) && error == old(error)
      ensures targetRecipe == old(targetRecipe) && finalMix == old(finalMix)
    {
      var generated := Gemini.GenerateMoodMenu(moodInput, keys, call);
      menu := generated;
      stage := MenuSelect;
    }

    /** The request rejects with an Error carrying `message`, or with some other
        value (None): the error line is set and the mood screen shows again; the
        menu is left as it was. */
    method AnalysisRejects(message: Option<string>)
      requires Valid() && stage == Analyzing
      modifies this
      ensures Valid()
      ensures error == Some(SyncFailed + (if message.Some? then message.value else RetryHint))
      ensures stage == MoodInput
      ensures moodInput == old(moodInput) && menu == old(menu)
      ensures targetRecipe == old(targetRecipe) && finalMix == old(finalMix)
    {
      error := Some(SyncFailed + (if message.Some? then message.value else RetryHint));
      stage := MoodInput;
    }

    /** A click on card `i` of the menu: that recipe becomes the target and the
        mixing screen shows. */
    method SelectCard(i: nat)
      requires Valid() && stage == MenuSelect && i < |menu|
      modifies this
      ensures Valid()
      ensures targetRecipe == Some(old(menu)[i]) && stage == Mixing
      ensures moodInput == old(moodInput) && menu == old(menu)
      ensures finalMix == old(finalMix) && error == old(error)
    {
      targetRecipe := Some(menu[i]);
      stage := Mixing;
    }

    /** The console hands over the finished mix: it is stored and the result
        screen shows. */
    method FinishMix(m: MixState)
      requires Valid() && stage == Mixing
      modifies this
      ensures Valid()
      ensures finalMix == Some(m) && stage == Result
      ensures moodInput == old(moodInput) && menu == old(menu)
      ensures targetRecipe == old(targetRecipe) && error == old(error)
    {
      finalMix := Some(m);
      stage := Result;
    }

    /** The score the result screen prints, for the stored target and mix. */
    function ResultScore(): (pct: int)
      reads this
      requires ScreenShown() && stage == Result
      ensures 0 <= pct <= 100
      ensures pct == 100 <==> finalMix.value == AsMix(targetRecipe.value)
    {
      RetroPrinter.PerfectIffSameMix(targetRecipe.value, finalMix.value);
      RetroPrinter.Accuracy(targetRecipe.value, finalMix.value)
    }

    /** Back to the mood screen with the text, menu, target and mix cleared; the
        error line is kept. */
    method ResetAll()
      requires Valid()
      modifies this
      ensures Valid()
      ensures stage == MoodInput && moodInput == [] && menu == []
      ensures targetRecipe == None && finalMix == None
      ensures error == old(error)
    {
      stage := MoodInput;
      moodInput := [];
      menu := [];
      targetRecipe := None;
      finalMix := None;
    }
  }

  /** Trimming removes only the whitespace at the two ends: a text that is not
      blank is its leading whitespace, its trimmed text and its trailing
      whitespace, in that order. */
  lemma TrimRemovesOnlyEdges(s: string)
    requires !Blank(s)
    ensures TrimStart(s) < TrimEnd(s)
    ensures s == s[..TrimStart(s)] + Trim(s) + s[TrimEnd(s)..]
    ensures Blank(s[..TrimStart(s)]) && Blank(s[TrimEnd(s)..])
  {
    var i, j := TrimStart(s), TrimEnd(s);
    assert s == s[..i] + s[i..j] + s[j..];
  }

  /** Trimming twice is trimming once. */
  lemma TrimIdempotent(s: string)
    ensures Trim(Trim(s)) == Trim(s)
  {
    var r := Trim(s);
    if r != [] {
      assert TrimStart(r) == 0;
      assert TrimEnd(r) == |r|;
    }
  }
}
