/** The menu generator: three recipes for the customer's mood, from the
    generative text service when a key is configured and the reply is a
    non-empty array, otherwise a fixed local catalog.

    The service request itself (SDK import, prompt, schema, network) is not
    modelled: its effect on the decision is the CallOutcome the generator is
    given, so the generator is a total function of the configured key sources
    and that outcome. */
module Gemini {
  import opened Types

  /** A configuration value as the bundle sees it. */
  datatype EnvValue = Undefined | Null | Str(s: string)

  /** JavaScript truthiness of a configuration value. */
  predicate Truthy(v: EnvValue)
  {
    v.Str? && v.s != ""
  }

  /** The four places the key is read from, in the order the `||` chain consults them:
      process.env.API_KEY, process.env.GEMINI_API_KEY,
      import.meta.env.VITE_GEMINI_API_KEY, import.meta.env.GEMINI_API_KEY. */
  datatype KeySources = KeySources(
    processApiKey: EnvValue,
    processGeminiKey: EnvValue,
    viteGeminiKey: EnvValue,
    metaGeminiKey: EnvValue)
  {
    function Chain(): seq<EnvValue>
    {
      [processApiKey, processGeminiKey, viteGeminiKey, metaGeminiKey]
    }
  }

  /** Where `v0 || v1 || ... || vn` stops: at the first truthy operand, or at
      the last operand when none is truthy. */
  function FirstTruthy(vs: seq<EnvValue>): (i: nat)
    requires |vs| > 0
    ensures i < |vs|
    ensures Truthy(vs[i]) || i == |vs| - 1
    ensures forall j :: 0 <= j < i ==> !Truthy(vs[j])
  {
    if |vs| == 1 || Truthy(vs[0]) then 0 else 1 + FirstTruthy(vs[1..])
  }

  /** The key the generator uses. */
  function ResolveKey(k: KeySources): EnvValue
  {
    k.Chain()[FirstTruthy(k.Chain())]
  }

  /** The key counts as absent when it is falsy or one of the placeholder strings
      a missing variable turns into. */
  predicate KeyMissing(key: EnvValue)
  {
    !Truthy(key) || key == Str("undefined") || key == Str("") || key == Str("null")
  }

  /** The value JSON.parse produced from the reply: an array (its elements read as
      recipes) or any other JSON value. */
  datatype Json = JsonArray(items: seq<DrinkRecipe>) | OtherJson

  /** How the try block ends: an exception (SDK import, request, or JSON.parse of a
      malformed reply), a reply without text, or a reply whose text parsed. */
  datatype CallOutcome = Threw | NoText | Parsed(value: Json)

  /** What `JSON.parse(response.text || "[]")` gives for a reply that did not throw. */
  function ParsedReply(o: CallOutcome): Json
    requires !o.Threw?
  {
    if o.NoText? then JsonArray([]) else o.value
  }

  /** The three hand-written recipes of the local catalog, in menu order. */
  const Catalog: seq<DrinkRecipe> :=
    [
      DrinkRecipe(
        "电子海风",
        "为失眠的城市上弦",
        "霓虹残影中，冰冷的玻璃杯贴着你的指尖。这杯酒像是深夜电台里传来的那首老歌，让你想起某个已经忘记名字的街角。",
        "微甜、微苦，带一点金属味的清爽气泡。入口冰凉，回味带着淡淡的酸涩，就像回忆本身。",
        Amounts(3, 2, 1, 0, 4),
        true,
        false),
      DrinkRecipe(
        "数据流",
        "在代码的缝隙中呼吸",
        "Jill 把杯子推到你面前，屏幕的蓝光映在她的脸上。'有时候，你需要一点混乱来对抗这个过于有序的世界。'她笑着说。",
        "强烈的酸味和苦味交织，中间夹杂着一丝甜意。就像调试代码时的感觉——痛苦，但偶尔会有突破的瞬间。",
        Amounts(2, 4, 5, 1, 3),
        false,
        true),
      DrinkRecipe(
        "赛博梦境",
        "在虚拟与现实的边界",
        "'你知道吗？' Jill 擦拭着杯子，'有时候我觉得我们都在一个巨大的模拟器里。但至少这杯酒是真实的。' 她递给你，眼神里有一丝疲惫。",
        "复杂的层次感，先是甜，然后是苦，最后是辛辣的余韵。就像在虚拟世界中寻找真实的感觉——模糊，但令人着迷。",
        Amounts(4, 3, 2, 3, 5),
        true,
        false)
    ]

  /** The fixed local catalog: three hand-written recipes, whatever the mood. */
  function FallbackMenu(moodText: string): (menu: seq<DrinkRecipe>)
    ensures |menu| == 3
    ensures forall r :: r in menu ==> r.ingredients.WithinLimits()
    ensures menu[0].ingredients.Total() == 10 && menu[1].ingredients.Total() == 15
            && menu[2].ingredients.Total() == 17
  {
    Catalog
  }

  /** The menu for a mood. Without a usable key the catalog is returned and the
      call outcome is never consulted; with one, a reply that parsed to a
      non-empty array is returned as it is, and every other ending (an
      exception, no text, a non-array, an empty array) yields the catalog. */
  function GenerateMoodMenu(moodText: string, keys: KeySources, call: CallOutcome): (menu: seq<DrinkRecipe>)
    ensures |menu| > 0
    ensures KeyMissing(ResolveKey(keys)) ==> menu == FallbackMenu(moodText)
    ensures call.Threw? || call.NoText? || (call.Parsed? && call.value.OtherJson?) ==> menu == FallbackMenu(moodText)
    ensures (!KeyMissing(ResolveKey(keys)) && call.Parsed? && call.value.JsonArray? && |call.value.items| > 0)
              ==> menu == call.value.items
    ensures menu == FallbackMenu(moodText) || (call.Parsed? && call.value.JsonArray? && menu == call.value.items)
  {
    var apiKey := ResolveKey(keys);
    var fallback := FallbackMenu(moodText);
    if KeyMissing(apiKey) then fallback
    else if call.Threw? then fallback
    else
      var parsed := ParsedReply(call);
      if parsed.JsonArray? && |parsed.items| > 0 then parsed.items
      else fallback
  }

  /** The catalog does not depend on the mood text. */
  lemma FallbackIgnoresMood(moodA: string, moodB: string)
    ensures FallbackMenu(moodA) == FallbackMenu(moodB)
  {
  }

  /** Without a usable key no call is made: any two call outcomes give the same menu. */
  lemma NoKeyNoCall(moodText: string, keys: KeySources, callA: CallOutcome, callB: CallOutcome)
    requires KeyMissing(ResolveKey(keys))
    ensures GenerateMoodMenu(moodText, keys, callA) == GenerateMoodMenu(moodText, keys, callB)
  {
  }

  /** The key is the first truthy source, in the fixed order. */
  lemma {:induction false} KeyIsFirstTruthySource(keys: KeySources, i: nat)
    requires i < 4 && Truthy(keys.Chain()[i])
    requires forall j :: 0 <= j < i ==> !Truthy(keys.Chain()[j])
    ensures ResolveKey(keys) == keys.Chain()[i]
  {
    var f := FirstTruthy(keys.Chain());
    assert f == i;
  }

  /** A placeholder string in an earlier source shadows a real key in a later one
      and forces the catalog: a key set only in the last source is never used
      once the first source holds the text "undefined" or "null". */
  lemma PlaceholderShadowsLaterKey(moodText: string, keys: KeySources, call: CallOutcome)
    requires keys.processApiKey == Str("undefined") || keys.processApiKey == Str("null")
    ensures ResolveKey(keys) == keys.processApiKey
    ensures GenerateMoodMenu(moodText, keys, call) == FallbackMenu(moodText)
  {
    KeyIsFirstTruthySource(keys, 0);
  }

  /** The reply is not checked beyond being a non-empty array: a one-recipe reply
      whose amounts break the limits is returned as the menu. */
  lemma ReplyIsNotValidated(moodText: string, keys: KeySources, r: DrinkRecipe)
    requires !KeyMissing(ResolveKey(keys))
    ensures GenerateMoodMenu(moodText, keys, Parsed(JsonArray([r]))) == [r]
  {
  }
}
