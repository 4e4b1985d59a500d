// The prompt builder of the page script: the vibe table, the generation
// prompt template and the description shown beside the result.

module Prompt {
  import opened Js

  const KnownVibes: seq<string> :=
    ["ethereal", "cyberpunk", "mystic", "celestial",
     "crystalline", "bioluminescent", "vaporwave", "painterly"]

  const DefaultDescriptor: string := "magical aura, glowing colors"

  /** The style phrase for a vibe tag: one fixed phrase per known tag, a default for anything else. */
  function VibeDescriptor(vibe: string): string {
    match vibe
    case "ethereal" => "ethereal glow, soft atmospheric, delicate light"
    case "cyberpunk" => "cyberpunk neon lights, dystopian cityscape, glowing wires"
    case "mystic" => "ancient mysticism, arcane symbols, deep magical glow"
    case "celestial" => "cosmic stardust, swirling galaxy, nebulae colors"
    case "crystalline" => "shimmering crystal facets, glowing gemstone light"
    case "bioluminescent" => "glowing organic patterns, natural light, glowing flora"
    case "vaporwave" => "pastel neon aesthetic, retro grid lines, synthwave glow"
    case "painterly" => "expressive brushstrokes, watercolor texture, artistic render"
    case _ => DefaultDescriptor
  }

  /** The default phrase is produced exactly for the tags outside the table. */
  lemma DefaultExactlyForUnknownVibes(vibe: string)
    ensures VibeDescriptor(vibe) == DefaultDescriptor <==> vibe !in KnownVibes
  {
  }

  // The fixed words of the finalPrompt template, in order.
  const PromptHead: string := "portrait of a "
  const AgeWords: string := "-year-old "
  const GenderSep: string := ", "
  const AuraWords: string := " aura, "
  const PromptTail: string := ", high detail, intricate, digital art"

  /** finalPrompt, given the style phrase the vibe switch chose. */
  function FinalPrompt(age: int, gender: string, zodiac: string, auraPrompt: string): string {
    PromptHead + (IntToDecimal(age) + AfterAge(gender, zodiac, auraPrompt))
  }

  /** The words of finalPrompt that follow the age. */
  function AfterAge(gender: string, zodiac: string, auraPrompt: string): (t: string)
    ensures |t| > 0 && t[0] == '-'
  {
    AgeWords + (gender + (GenderSep + (zodiac + (AuraWords + (auraPrompt + PromptTail)))))
  }

  /** The prompt opens and closes with the template's fixed words. */
  lemma PromptFrame(age: int, gender: string, zodiac: string, auraPrompt: string)
    ensures var p := FinalPrompt(age, gender, zodiac, auraPrompt);
            |p| >= |PromptHead| + |PromptTail| &&
            p[..|PromptHead|] == PromptHead && p[|p| - |PromptTail|..] == PromptTail
  {
    PromptLayout(age, gender, zodiac, auraPrompt);
  }

  /** The style phrase is the last thing before the closing words. */
  lemma PromptEndsWithStyle(age: int, gender: string, zodiac: string, auraPrompt: string)
    ensures var p := FinalPrompt(age, gender, zodiac, auraPrompt);
            var end := |p| - |PromptTail|;
            |p| >= |PromptTail| + |auraPrompt| && p[end - |auraPrompt|..end] == auraPrompt
  {
    PromptLayout(age, gender, zodiac, auraPrompt);
  }

  /**
   * Where each piece of the template sits in the prompt: the opening words, the
   * age, "-year-old ", the gender, ", ", the zodiac, " aura, ", the style phrase
   * and the closing words, one after the other.
   */
  lemma PromptLayout(age: int, gender: string, zodiac: string, auraPrompt: string)
    ensures var p := FinalPrompt(age, gender, zodiac, auraPrompt);
            var g := |PromptHead| + |IntToDecimal(age)| + |AgeWords|;
            var z := g + |gender| + |GenderSep|;
            var e := z + |zodiac| + |AuraWords|;
            |p| == e + |auraPrompt| + |PromptTail| &&
            p[..|PromptHead|] == PromptHead &&
            p[|PromptHead|..g - |AgeWords|] == IntToDecimal(age) &&
            p[g - |AgeWords|..g] == AgeWords && p[g..g + |gender|] == gender &&
            p[g + |gender|..z] == GenderSep &&
            p[z..z + |zodiac|] == zodiac && p[z + |zodiac|..e] == AuraWords &&
            p[e..e + |auraPrompt|] == auraPrompt && p[e + |auraPrompt|..] == PromptTail
  {
    var p := FinalPrompt(age, gender, zodiac, auraPrompt);
    var d := IntToDecimal(age);
    var r5 := auraPrompt + PromptTail;
    var r4 := AuraWords + r5;
    var r3 := zodiac + r4;
    var r2 := GenderSep + r3;
    var r1 := gender + r2;
    var r0 := AgeWords + r1;
    var a := |PromptHead| + |d|;
    var g := a + |AgeWords|;
    var z := g + |gender| + |GenderSep|;
    var e := z + |zodiac| + |AuraWords|;
    assert p[0..] == PromptHead + (d + r0);
    Step(p, 0, PromptHead, d + r0);
    Step(p, |PromptHead|, d, r0);
    Step(p, a, AgeWords, r1);
    Step(p, g, gender, r2);
    Step(p, g + |gender|, GenderSep, r3);
    Step(p, z, zodiac, r4);
    Step(p, z + |zodiac|, AuraWords, r5);
    Step(p, e, auraPrompt, PromptTail);
  }

  /** Where `s` continues with `a` and then `rest` from offset `i`, `a` fills the next |a| places. */
  lemma Step(s: string, i: int, a: string, rest: string)
    requires 0 <= i <= |s| && s[i..] == a + rest
    ensures i + |a| <= |s| && s[i..i + |a|] == a && s[i + |a|..] == rest
  {
    assert s[i..i + |a|] == s[i..][..|a|];
    assert s[i + |a|..] == s[i..][|a|..];
  }

  /** The integer written right after `head`, if `p` starts with `head`. */
  function IntAfter(head: string, p: string): Option<int> {
    if |p| < |head| || p[..|head|] != head then None else ReadLeadingInt(p[|head|..])
  }

  /** The age as a prompt states it: the integer written right after the opening words. */
  function AgeInPrompt(p: string): Option<int> {
    IntAfter(PromptHead, p)
  }

  lemma IntAfterHead(head: string, rest: string)
    ensures IntAfter(head, head + rest) == ReadLeadingInt(rest)
  {
    assert (head + rest)[..|head|] == head;
    assert (head + rest)[|head|..] == rest;
  }

  /** The prompt states the computed age, whatever the gender, zodiac and style texts are. */
  lemma PromptStatesAge(age: int, gender: string, zodiac: string, auraPrompt: string)
    ensures AgeInPrompt(FinalPrompt(age, gender, zodiac, auraPrompt)) == Some(age)
  {
    var tail := AfterAge(gender, zodiac, auraPrompt);
    IntAfterHead(PromptHead, IntToDecimal(age) + tail);
    ReadLeadingIntBack(age, tail);
  }

  /** auraDescription */
  function AuraDescription(zodiac: string, vibe: string): string {
    "Behold, your majestic " + zodiac + " aura in a " + vibe + " style!"
  }
}
