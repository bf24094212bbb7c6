/**
 * Properties of whole generated stories: scene identifiers, how the
 * intensity of a story shows in its scenes, what the theme can and cannot
 * change, and the boundary scenario of a short, maximally intense story.
 *
 * Most lemmas are stated for `Assemble` over any valid word tables, which
 * covers `CraftHorrorStory` (it is `Assemble` on the generator's own
 * tables) and keeps the proofs clear of the long table literals.
 */
module StoryProperties {

  import opened Text
  import opened JsMath
  import opened StoryTables
  import opened Selection
  import opened StoryGenerator

  /** Every scene of a generated story has the shape `WellFormedScene` describes. */
  lemma ScenesWellFormed(request: HorrorStoryRequest, seed: Seed, i: nat)
    requires i < |CraftHorrorStory(request, seed).scenes|
    ensures
      var story := CraftHorrorStory(request, seed);
      WellFormedScene(story.scenes[i], GeneratorTables, i, IntensityScalar(request.intensity, i, |story.scenes|),
        Pick(Protagonists, seed), request.theme)
  {
    GeneratorTablesValid();
  }

  /** The voice and the closing note come from the generator's fixed lists. */
  lemma VoiceAndEnding(request: HorrorStoryRequest, seed: Seed)
    ensures CraftHorrorStory(request, seed).voiceProfile.timbre in Timbres
    ensures CraftHorrorStory(request, seed).fxNotes[3] == Endings[seed % 8]
  {
    GeneratorTablesValid();
  }

  /**
   * The title opens with the picked title head, the hook and the synopsis
   * name the picked protagonist, and the synopsis quotes the theme in
   * upper case.
   */
  lemma StoryTextNamesProtagonist(request: HorrorStoryRequest, seed: Seed)
    ensures
      var story, protagonist := CraftHorrorStory(request, seed), Pick(Protagonists, seed);
      && Pick(TitleHeads, seed) + ": " <= story.title
      && IsInfix(protagonist, story.hook)
      && IsInfix(protagonist, story.synopsis)
      && IsInfix(Upper(request.theme), story.synopsis)
  {
    GeneratorTablesValid();
  }

  /** Scene identifiers `scene-1`, `scene-2`, ... are pairwise distinct. */
  lemma SceneIdsDistinct(t: WordTables, request: HorrorStoryRequest, seed: nat, i: nat, j: nat)
    requires ValidTables(t)
    requires i < j < |Assemble(t, request, seed).scenes|
    ensures Assemble(t, request, seed).scenes[i].id != Assemble(t, request, seed).scenes[j].id
  {
    var scenes := Assemble(t, request, seed).scenes;
    if scenes[i].id == scenes[j].id {
      var prefix := "scene-";
      assert NatText(i + 1) == scenes[i].id[|prefix|..];
      assert NatText(j + 1) == scenes[j].id[|prefix|..];
      NatTextInjective(i + 1, j + 1);
      assert false;
    }
  }

  /** Once a scene switches to the high-intensity accent, every later scene keeps it. */
  lemma AccentNeverCools(t: WordTables, request: HorrorStoryRequest, seed: nat, i: nat, j: nat)
    requires ValidTables(t)
    requires i <= j < |Assemble(t, request, seed).scenes|
    requires Assemble(t, request, seed).scenes[i].colorPalette.accent == HighAccent
    ensures Assemble(t, request, seed).scenes[j].colorPalette.accent == HighAccent
  {
    var n := |Assemble(t, request, seed).scenes|;
    ScalarNonDecreasing(request.intensity, i, j, n);
  }

  /**
   * A request more intense than 3 yields only high-intensity scenes: the
   * accent is the hot hue and the third sound cue is a sound layer.
   */
  lemma IntenseRequestIntenseScenes(t: WordTables, request: HorrorStoryRequest, seed: nat, i: nat)
    requires ValidTables(t)
    requires request.intensity > 3.0
    requires i < |Assemble(t, request, seed).scenes|
    ensures Assemble(t, request, seed).scenes[i].colorPalette.accent == HighAccent
    ensures Assemble(t, request, seed).scenes[i].soundscape[2] in t.sounds
  {
    var n := |Assemble(t, request, seed).scenes|;
    assert IntensityScalar(request.intensity, i, n) > 3.0;
  }

  /**
   * The boundary request {theme "lighthouse", intensity 5, duration 45,
   * style found-footage}: three scenes, 45 seconds, every accent hot.
   */
  lemma LighthouseScenario(t: WordTables, seed: nat)
    requires ValidTables(t)
    ensures
      var story := Assemble(t, HorrorStoryRequest("lighthouse", 5.0, 45.0, FoundFootage), seed);
      && story.durationSeconds == 45.0
      && |story.scenes| == 3
      && forall i :: 0 <= i < 3 ==> story.scenes[i].colorPalette.accent == HighAccent
  {
    var request := HorrorStoryRequest("lighthouse", 5.0, 45.0, FoundFootage);
    assert Round(45.0 / 20.0) == 2;
    forall i | 0 <= i < 3
      ensures Assemble(t, request, seed).scenes[i].colorPalette.accent == HighAccent
    {
      IntenseRequestIntenseScenes(t, request, seed, i);
    }
  }

  /**
   * For the same seed, the theme only reaches the synopsis and the
   * narrations: two requests that differ in nothing else give stories with
   * the same title, hook, duration, voice, notes, and scenes that agree
   * outside their narration. In the program the theme also feeds the seed,
   * which is hashed from it, so this holds only once the seed is fixed.
   */
  lemma ThemeOnlyChangesText(t: WordTables, request: HorrorStoryRequest, theme: string, seed: nat)
    requires ValidTables(t)
    ensures
      var a := Assemble(t, request, seed);
      var b := Assemble(t, request.(theme := theme), seed);
      && a.title == b.title
      && a.hook == b.hook
      && a.durationSeconds == b.durationSeconds
      && a.voiceProfile == b.voiceProfile
      && a.fxNotes == b.fxNotes
      && |a.scenes| == |b.scenes|
      && forall i :: 0 <= i < |a.scenes| ==> a.scenes[i] == b.scenes[i].(narration := a.scenes[i].narration)
  {
  }
}
