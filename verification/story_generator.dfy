/**
 * `craftHorrorStory` as a pure function of a request and an explicit
 * 32-bit seed: seven tables are shuffled with distinct affine seed
 * offsets, then every text fragment is a pick from a table.
 *
 * The assembly is written over any `WordTables` that satisfy
 * `ValidTables`; `CraftHorrorStory` runs it on the generator's own tables.
 */
module StoryGenerator {

  import opened Text
  import opened JsMath
  import opened StoryTables
  import opened Selection

  /** A seed as the first four digest bytes read big-endian produce it. */
  type Seed = s: nat | s < 0x1_0000_0000

  datatype HorrorStoryRequest = HorrorStoryRequest(
    theme: string,
    intensity: real,
    duration: real,
    style: Style)

  datatype ColorPalette = ColorPalette(background: string, accent: string)

  datatype HorrorScene = HorrorScene(
    id: string,
    heading: string,
    narration: string,
    visualCue: string,
    soundscape: seq<string>,
    colorPalette: ColorPalette,
    screenDirection: string)

  datatype VoiceProfile = VoiceProfile(pitch: real, rate: real, reverb: real, timbre: string)

  datatype HorrorStory = HorrorStory(
    title: string,
    synopsis: string,
    hook: string,
    durationSeconds: real,
    voiceProfile: VoiceProfile,
    scenes: seq<HorrorScene>,
    fxNotes: seq<string>)

  const MinDuration: real := 45.0
  const MaxDuration: real := 180.0
  const MinScenes: nat := 3
  const MaxScenes: nat := 7

  const EvenBackground: string := "#050508"
  const OddBackground: string := "#140714"
  /** Accent of a scene whose intensity scalar exceeds 3. */
  const HighAccent: string := "#ff3f8e"
  /** Accent of every other scene. */
  const LowAccent: string := "#6a63ff"

  /**
   * Number of scenes for a clamped duration: `clamp(round(d / 20), 3, 7)`.
   * Each count strictly between the bounds covers the 20-second window
   * centred on 20 times that count.
   */
  function SceneCount(durationSeconds: real): (n: nat)
    ensures MinScenes <= n <= MaxScenes
    ensures n == MinScenes || (n as real - 0.5) * 20.0 <= durationSeconds
    ensures n == MaxScenes || durationSeconds < (n as real + 0.5) * 20.0
  {
    Clamp(Round(durationSeconds / 20.0) as real, MinScenes as real, MaxScenes as real).Floor
  }

  /** The seven shuffled tables of one story. */
  datatype Deck = Deck(
    adjectives: seq<string>,
    settings: seq<string>,
    entities: seq<string>,
    details: seq<string>,
    motifs: seq<string>,
    sounds: seq<string>,
    directions: seq<string>)

  /** `items` has the length of `table` and holds only entries of `table`. */
  predicate DrawnFrom(items: seq<string>, table: seq<string>) {
    |items| == |table| && forall x :: x in items ==> x in table
  }

  /** Every list of the deck is drawn from the matching table. */
  predicate DeckOf(d: Deck, t: WordTables) {
    && DrawnFrom(d.adjectives, t.adjectives)
    && DrawnFrom(d.settings, t.settings)
    && DrawnFrom(d.entities, t.entities)
    && DrawnFrom(d.details, t.details)
    && DrawnFrom(d.motifs, t.motifs)
    && DrawnFrom(d.sounds, t.sounds)
    && DrawnFrom(d.directions, t.directions)
  }

  /** A shuffled table is drawn from the table. */
  lemma ShuffleDrawnFrom(table: seq<string>, seed: nat)
    ensures DrawnFrom(Shuffle(table, seed), table)
  {
    forall x | x in Shuffle(table, seed)
      ensures x in table
    {
      ShuffleMembers(table, seed, x);
    }
  }

  /** The shuffles of one story, each with its own affine seed offset. */
  function ShuffleTables(t: WordTables, seed: nat): (d: Deck)
    ensures DeckOf(d, t)
  {
    ShuffleDrawnFrom(t.adjectives, seed);
    ShuffleDrawnFrom(t.settings, seed * 13 + 31);
    ShuffleDrawnFrom(t.entities, seed * 7 + 17);
    ShuffleDrawnFrom(t.details, seed * 19 + 11);
    ShuffleDrawnFrom(t.motifs, seed * 5 + 53);
    ShuffleDrawnFrom(t.sounds, seed * 3 + 71);
    ShuffleDrawnFrom(t.directions, seed * 23 + 97);
    Deck(
      Shuffle(t.adjectives, seed),
      Shuffle(t.settings, seed * 13 + 31),
      Shuffle(t.entities, seed * 7 + 17),
      Shuffle(t.details, seed * 19 + 11),
      Shuffle(t.motifs, seed * 5 + 53),
      Shuffle(t.sounds, seed * 3 + 71),
      Shuffle(t.directions, seed * 23 + 97))
  }

  /** A pick from a table's rearrangement is an entry of the table. */
  function PickFrom(items: seq<string>, table: seq<string>, n: nat): (r: string)
    requires DrawnFrom(items, table)
    requires |table| > 0
    ensures r in table
  {
    Pick(items, n)
  }

  /** Per-scene intensity: `clamp(intensity + index / sceneCount, 1, 5)`. */
  function IntensityScalar(intensity: real, index: nat, sceneCount: nat): (r: real)
    requires sceneCount > 0
    ensures 1.0 <= r <= 5.0
    ensures 1.0 <= intensity <= 5.0 ==> intensity <= r
    ensures 5.0 < intensity ==> r == 5.0
  {
    Clamp(intensity + index as real / sceneCount as real, 1.0, 5.0)
  }

  /** Intensity rises (never falls) from one scene to the next. */
  lemma ScalarNonDecreasing(intensity: real, i: nat, j: nat, sceneCount: nat)
    requires sceneCount > 0
    requires i <= j
    ensures IntensityScalar(intensity, i, sceneCount) <= IntensityScalar(intensity, j, sceneCount)
  {
    assert i as real / sceneCount as real <= j as real / sceneCount as real;
    ClampMonotone(intensity + i as real / sceneCount as real, intensity + j as real / sceneCount as real, 1.0, 5.0);
  }

  /** The scene narration template. */
  function Narration(protagonist: string, detail: string, direction: string, entity: string, theme: string): (n: string)
    ensures IsInfix(detail, n)
    ensures IsInfix(entity, n)
  {
    var a := "The " + protagonist + " keeps the camera steady as ";
    var b := a + detail + ". " + direction + ". The ";
    var c := b + entity + " bleeds through the edges of the frame, translating ";
    InfixAtEnd(a, detail);
    InfixExtend(detail, a + detail, ". ");
    InfixExtend(detail, a + detail + ". ", direction);
    InfixExtend(detail, a + detail + ". " + direction, ". The ");
    InfixAtEnd(b, entity);
    InfixExtend(detail, b, entity);
    InfixExtend(detail, b + entity, " bleeds through the edges of the frame, translating ");
    InfixExtend(entity, b + entity, " bleeds through the edges of the frame, translating ");
    InfixExtend(detail, c, theme);
    InfixExtend(entity, c, theme);
    InfixExtend(detail, c + theme, " into a threat only those watching can answer.");
    InfixExtend(entity, c + theme, " into a threat only those watching can answer.");
    c + theme + " into a threat only those watching can answer."
  }

  /** A narration contains the protagonist, its screen direction and the theme. */
  lemma NarrationEmbeds(protagonist: string, detail: string, direction: string, entity: string, theme: string)
    ensures IsInfix(direction, Narration(protagonist, detail, direction, entity, theme))
    ensures IsInfix(theme, Narration(protagonist, detail, direction, entity, theme))
    ensures IsInfix(protagonist, Narration(protagonist, detail, direction, entity, theme))
  {
    // The template, appended one piece at a time.
    var a := "The " + protagonist;
    var b := a + " keeps the camera steady as ";
    var c := b + detail;
    var d := c + ". ";
    var e := d + direction;
    var f := e + ". The ";
    var g := f + entity;
    var h := g + " bleeds through the edges of the frame, translating ";
    var i := h + theme;
    var n := i + " into a threat only those watching can answer.";
    assert n == Narration(protagonist, detail, direction, entity, theme);
    InfixAtEnd("The ", protagonist);
    InfixExtend(protagonist, a, " keeps the camera steady as ");
    InfixExtend(protagonist, b, detail);
    InfixExtend(protagonist, c, ". ");
    InfixExtend(protagonist, d, direction);
    InfixAtEnd(d, direction);
    InfixExtend(protagonist, e, ". The ");
    InfixExtend(direction, e, ". The ");
    InfixExtend(protagonist, f, entity);
    InfixExtend(direction, f, entity);
    InfixExtend(protagonist, g, " bleeds through the edges of the frame, translating ");
    InfixExtend(direction, g, " bleeds through the edges of the frame, translating ");
    InfixExtend(protagonist, h, theme);
    InfixExtend(direction, h, theme);
    InfixAtEnd(h, theme);
    InfixExtend(protagonist, i, " into a threat only those watching can answer.");
    InfixExtend(direction, i, " into a threat only those watching can answer.");
    InfixExtend(theme, i, " into a threat only those watching can answer.");
  }

  /** What scene `index` of a story looks like, independently of how it is built. */
  ghost predicate WellFormedScene(sc: HorrorScene, t: WordTables, index: nat, scalar: real, protagonist: string, theme: string) {
    && sc.id == "scene-" + NatText(index + 1)
    && sc.visualCue in t.motifs
    && sc.heading == Capitalize(sc.visualCue)
    && sc.screenDirection in t.directions
    && IsInfix(sc.screenDirection, sc.narration)
    && IsInfix(theme, sc.narration)
    && IsInfix(protagonist, sc.narration)
    && |sc.soundscape| == 3
    && sc.soundscape[0] in t.sounds
    && sc.soundscape[1] in t.sounds
    && (sc.soundscape[2] in t.sounds <==> scalar > 3.0)
    && (sc.soundscape[2] in t.motifs <==> scalar <= 3.0)
    && (sc.colorPalette.background == EvenBackground <==> index % 2 == 0)
    && (sc.colorPalette.background == OddBackground <==> index % 2 == 1)
    && (sc.colorPalette.accent == HighAccent <==> scalar > 3.0)
    && (sc.colorPalette.accent == LowAccent <==> scalar <= 3.0)
  }

  /** The third sound cue: a sound layer for an intense scene, a visual motif otherwise. */
  function ThirdCue(t: WordTables, deck: Deck, seed: nat, index: nat, scalar: real): (cue: string)
    requires ValidTables(t) && DeckOf(deck, t)
    ensures cue in t.sounds <==> scalar > 3.0
    ensures cue in t.motifs <==> scalar <= 3.0
  {
    if scalar > 3.0 then PickFrom(deck.sounds, t.sounds, seed + index * 23 + 7)
    else PickFrom(deck.motifs, t.motifs, seed + index * 29 + 9)
  }

  /**
   * The three sound cues of a scene: two sound layers, then a third layer
   * when the scene is intense (scalar above 3) and a visual motif otherwise.
   */
  function Soundscape(t: WordTables, deck: Deck, seed: nat, index: nat, scalar: real): (ss: seq<string>)
    requires ValidTables(t) && DeckOf(deck, t)
    ensures |ss| == 3
    ensures ss[0] in t.sounds && ss[1] in t.sounds
    ensures ss[2] in t.sounds <==> scalar > 3.0
    ensures ss[2] in t.motifs <==> scalar <= 3.0
  {
    [
      PickFrom(deck.sounds, t.sounds, seed + index * 17),
      PickFrom(deck.sounds, t.sounds, seed + index * 19 + 5),
      ThirdCue(t, deck, seed, index, scalar)
    ]
  }

  /** Two-tone palette: background alternates with parity, accent follows intensity. */
  function Palette(index: nat, scalar: real): (p: ColorPalette)
    ensures p.background == EvenBackground <==> index % 2 == 0
    ensures p.background == OddBackground <==> index % 2 == 1
    ensures p.accent == HighAccent <==> scalar > 3.0
    ensures p.accent == LowAccent <==> scalar <= 3.0
  {
    ColorPalette(
      if index % 2 == 0 then EvenBackground else OddBackground,
      if scalar > 3.0 then HighAccent else LowAccent)
  }

  /** Scene `index` of a story with `sceneCount` scenes. */
  function MakeScene(t: WordTables, deck: Deck, protagonist: string, theme: string, intensity: real, seed: nat, sceneCount: nat, index: nat): (sc: HorrorScene)
    requires ValidTables(t) && DeckOf(deck, t)
    requires index < sceneCount
    ensures WellFormedScene(sc, t, index, IntensityScalar(intensity, index, sceneCount), protagonist, theme)
  {
    var scalar := IntensityScalar(intensity, index, sceneCount);
    var motif := PickFrom(deck.motifs, t.motifs, seed + index * 3);
    var entity := PickFrom(deck.entities, t.entities, seed + index * 7);
    var detail := PickFrom(deck.details, t.details, seed + index * 11);
    var direction := PickFrom(deck.directions, t.directions, seed + index * 13);
    NarrationEmbeds(protagonist, detail, direction, entity, theme);
    HorrorScene(
      "scene-" + NatText(index + 1),
      Capitalize(motif),
      Narration(protagonist, detail, direction, entity, theme),
      motif,
      Soundscape(t, deck, seed, index, scalar),
      Palette(index, scalar),
      direction)
  }

  /** All scenes of a story, in playback order. */
  function Scenes(t: WordTables, deck: Deck, protagonist: string, theme: string, intensity: real, seed: nat, sceneCount: nat): (scenes: seq<HorrorScene>)
    requires ValidTables(t) && DeckOf(deck, t)
    ensures |scenes| == sceneCount
    ensures forall i :: 0 <= i < sceneCount ==>
      WellFormedScene(scenes[i], t, i, IntensityScalar(intensity, i, sceneCount), protagonist, theme)
  {
    seq(sceneCount, i requires 0 <= i < sceneCount => MakeScene(t, deck, protagonist, theme, intensity, seed, sceneCount, i))
  }

  /** Speech parameters: deeper and slower with intensity, more reverb, a picked timbre. */
  function Voice(t: WordTables, intensity: real, style: Style, seed: nat): (v: VoiceProfile)
    requires ValidTables(t)
    ensures 0.4 <= v.reverb <= 0.95
    ensures v.timbre in t.timbres
    ensures v.pitch + intensity * 0.06 == 0.62
    ensures v.rate + intensity * 0.03 == style.Cadence()
    ensures 1.0 <= intensity <= 5.0 ==> v.reverb == 0.45 + intensity * 0.08
  {
    VoiceProfile(
      0.62 - intensity * 0.06,
      style.Cadence() - intensity * 0.03,
      Clamp(0.45 + intensity * 0.08, 0.4, 0.95),
      Pick(t.timbres, seed * 31))
  }

  /** More intensity never means less reverb. */
  lemma ReverbRises(t: WordTables, style: Style, seed: nat, quieter: real, louder: real)
    requires ValidTables(t)
    requires quieter <= louder
    ensures Voice(t, quieter, style, seed).reverb <= Voice(t, louder, style, seed).reverb
  {
    ClampMonotone(0.45 + quieter * 0.08, 0.45 + louder * 0.08, 0.4, 0.95);
  }

  function LayerNote(layer: string): string {
    "Layer " + layer + " beneath narration for dread floor"
  }

  function PulseNote(motif: string): string {
    "Pulse " + motif + " between cuts to prime viewer anticipation"
  }

  function AccentNote(layer: string): string {
    "Accent jump-scares with " + layer + " filtered through cavernous reverb"
  }

  /** The four production notes: three picked cues and a closing ending. */
  function FxNotes(t: WordTables, deck: Deck, seed: nat): (notes: seq<string>)
    requires ValidTables(t) && DeckOf(deck, t)
    ensures |notes| == 4
    ensures notes[3] in t.endings && notes[3] == t.endings[seed % |t.endings|]
  {
    [
      LayerNote(PickFrom(deck.sounds, t.sounds, seed * 37)),
      PulseNote(PickFrom(deck.motifs, t.motifs, seed * 41)),
      AccentNote(PickFrom(deck.sounds, t.sounds, seed * 43)),
      Pick(t.endings, seed)
    ]
  }

  /** `text` embeds some entry of `table`. */
  ghost predicate EmbedsEntryOf(table: seq<string>, text: string) {
    exists k :: 0 <= k < |table| && IsInfix(table[k], text)
  }

  lemma NoteEmbeds(table: seq<string>, x: string, before: string, after: string)
    requires x in table
    ensures EmbedsEntryOf(table, before + x + after)
  {
    InfixOfConcat(before, x, after);
    var k :| 0 <= k < |table| && table[k] == x;
  }

  /** The first three notes each embed an entry of the sound or motif table. */
  lemma FxNotesEmbedPicks(t: WordTables, deck: Deck, seed: nat)
    requires ValidTables(t) && DeckOf(deck, t)
    ensures EmbedsEntryOf(t.sounds, FxNotes(t, deck, seed)[0])
    ensures EmbedsEntryOf(t.motifs, FxNotes(t, deck, seed)[1])
    ensures EmbedsEntryOf(t.sounds, FxNotes(t, deck, seed)[2])
  {
    NoteEmbeds(t.sounds, PickFrom(deck.sounds, t.sounds, seed * 37), "Layer ", " beneath narration for dread floor");
    NoteEmbeds(t.motifs, PickFrom(deck.motifs, t.motifs, seed * 41), "Pulse ", " between cuts to prime viewer anticipation");
    NoteEmbeds(t.sounds, PickFrom(deck.sounds, t.sounds, seed * 43), "Accent jump-scares with ", " filtered through cavernous reverb");
  }

  /** The title template: head, adjective and tail. */
  function TitleText(head: string, adjective: string, tail: string): (title: string)
    ensures head + ": " <= title
  {
    head + ": " + (adjective + " " + tail)
  }

  /** The hook template. */
  function HookText(protagonist: string, adjective: string, setting: string, entity: string): (hook: string)
    ensures IsInfix(protagonist, hook)
  {
    var rest := " chases a " + adjective + " mystery in a " + setting + " until the " + entity + " notices the viewers.";
    InfixOfConcat("A ", protagonist, rest);
    "A " + protagonist + rest
  }

  /** The synopsis template; the style name appears with its first `-` spelled as a space. */
  function SynopsisText(theme: string, style: Style, protagonist: string, adjective: string, setting: string, detail: string, entity: string): (synopsis: string)
    ensures IsInfix(Upper(theme), synopsis)
    ensures IsInfix(protagonist, synopsis)
  {
    var opening := "Summoned by whispers of \"";
    var lore := "\" " + ReplaceFirst(style.Name(), '-', " ") + " lore, the ";
    var rest := " breaches a " + adjective + " " + setting + ". Each frame reveals "
      + detail + " while a " + entity + " stitches itself into the signal.";
    var a := opening + Upper(theme);
    var b := a + lore;
    var c := b + protagonist;
    InfixAtEnd(opening, Upper(theme));
    InfixExtend(Upper(theme), a, lore);
    InfixExtend(Upper(theme), b, protagonist);
    InfixAtEnd(b, protagonist);
    InfixExtend(Upper(theme), c, rest);
    InfixExtend(protagonist, c, rest);
    c + rest
  }

  function Title(t: WordTables, deck: Deck, seed: nat): (title: string)
    requires ValidTables(t) && DeckOf(deck, t)
    ensures Pick(t.titleHeads, seed) + ": " <= title
  {
    TitleText(Pick(t.titleHeads, seed), PickFrom(deck.adjectives, t.adjectives, seed), Pick(t.titleTails, seed * 13))
  }

  function Hook(t: WordTables, deck: Deck, protagonist: string, seed: nat): (hook: string)
    requires ValidTables(t) && DeckOf(deck, t)
    ensures IsInfix(protagonist, hook)
  {
    HookText(protagonist,
      PickFrom(deck.adjectives, t.adjectives, seed * 2),
      PickFrom(deck.settings, t.settings, seed * 3),
      PickFrom(deck.entities, t.entities, seed * 5))
  }

  function Synopsis(t: WordTables, deck: Deck, protagonist: string, theme: string, style: Style, seed: nat): (synopsis: string)
    requires ValidTables(t) && DeckOf(deck, t)
    ensures IsInfix(Upper(theme), synopsis)
    ensures IsInfix(protagonist, synopsis)
  {
    SynopsisText(theme, style, protagonist,
      PickFrom(deck.adjectives, t.adjectives, seed * 7),
      PickFrom(deck.settings, t.settings, seed * 11),
      PickFrom(deck.details, t.details, seed * 13),
      PickFrom(deck.entities, t.entities, seed * 17))
  }

  /** The title fills its template with the picked head, an adjective and a title tail, in that order. */
  lemma TitleFilled(t: WordTables, deck: Deck, seed: nat)
    requires ValidTables(t) && DeckOf(deck, t)
    ensures exists adjective, tail ::
      adjective in t.adjectives && tail in t.titleTails
      && Title(t, deck, seed) == TitleText(Pick(t.titleHeads, seed), adjective, tail)
  {
    var adjective := PickFrom(deck.adjectives, t.adjectives, seed);
    var tail := Pick(t.titleTails, seed * 13);
    assert Title(t, deck, seed) == TitleText(Pick(t.titleHeads, seed), adjective, tail);
  }

  /** The hook fills its template with the protagonist, an adjective, a setting and an entity, each in its own slot. */
  lemma HookFilled(t: WordTables, deck: Deck, protagonist: string, seed: nat)
    requires ValidTables(t) && DeckOf(deck, t)
    ensures exists adjective, setting, entity ::
      adjective in t.adjectives && setting in t.settings && entity in t.entities
      && Hook(t, deck, protagonist, seed) == HookText(protagonist, adjective, setting, entity)
  {
    var adjective := PickFrom(deck.adjectives, t.adjectives, seed * 2);
    var setting := PickFrom(deck.settings, t.settings, seed * 3);
    var entity := PickFrom(deck.entities, t.entities, seed * 5);
    assert Hook(t, deck, protagonist, seed) == HookText(protagonist, adjective, setting, entity);
  }

  /**
   * The synopsis fills its template with the theme, the spaced style name,
   * the protagonist, an adjective, a setting, a detail and an entity, each
   * in its own slot.
   */
  lemma SynopsisFilled(t: WordTables, deck: Deck, protagonist: string, theme: string, style: Style, seed: nat)
    requires ValidTables(t) && DeckOf(deck, t)
    ensures exists adjective, setting, detail, entity ::
      adjective in t.adjectives && setting in t.settings && detail in t.details && entity in t.entities
      && Synopsis(t, deck, protagonist, theme, style, seed)
         == SynopsisText(theme, style, protagonist, adjective, setting, detail, entity)
  {
    var adjective := PickFrom(deck.adjectives, t.adjectives, seed * 7);
    var setting := PickFrom(deck.settings, t.settings, seed * 11);
    var detail := PickFrom(deck.details, t.details, seed * 13);
    var entity := PickFrom(deck.entities, t.entities, seed * 17);
    assert Synopsis(t, deck, protagonist, theme, style, seed)
      == SynopsisText(theme, style, protagonist, adjective, setting, detail, entity);
  }

  /** The story assembled from tables `t`. */
  function Assemble(t: WordTables, request: HorrorStoryRequest, seed: nat): (story: HorrorStory)
    requires ValidTables(t)
    ensures MinDuration <= story.durationSeconds <= MaxDuration
    ensures MinDuration <= request.duration <= MaxDuration ==> story.durationSeconds == request.duration
    ensures request.duration < MinDuration ==> story.durationSeconds == MinDuration
    ensures MaxDuration < request.duration ==> story.durationSeconds == MaxDuration
    ensures |story.scenes| == SceneCount(story.durationSeconds)
    ensures forall i :: 0 <= i < |story.scenes| ==>
      WellFormedScene(story.scenes[i], t, i, IntensityScalar(request.intensity, i, |story.scenes|), Pick(t.protagonists, seed), request.theme)
    ensures IsInfix(Pick(t.protagonists, seed), story.hook)
    ensures IsInfix(Pick(t.protagonists, seed), story.synopsis)
    ensures IsInfix(Upper(request.theme), story.synopsis)
    ensures Pick(t.titleHeads, seed) + ": " <= story.title
    ensures 0.4 <= story.voiceProfile.reverb <= 0.95
    ensures story.voiceProfile.timbre in t.timbres
    ensures |story.fxNotes| == 4
    ensures story.fxNotes[3] == t.endings[seed % |t.endings|]
  {
    var durationSeconds := Clamp(request.duration, MinDuration, MaxDuration);
    var deck := ShuffleTables(t, seed);
    var protagonist := Pick(t.protagonists, seed);
    HorrorStory(
      Title(t, deck, seed),
      Synopsis(t, deck, protagonist, request.theme, request.style, seed),
      Hook(t, deck, protagonist, seed),
      durationSeconds,
      Voice(t, request.intensity, request.style, seed),
      Scenes(t, deck, protagonist, request.theme, request.intensity, seed, SceneCount(durationSeconds)),
      FxNotes(t, deck, seed))
  }

  /** `craftHorrorStory(request)` with the seed it would derive passed in. */
  function CraftHorrorStory(request: HorrorStoryRequest, seed: Seed): (story: HorrorStory)
    ensures MinDuration <= story.durationSeconds <= MaxDuration
    ensures MinDuration <= request.duration <= MaxDuration ==> story.durationSeconds == request.duration
    ensures request.duration < MinDuration ==> story.durationSeconds == MinDuration
    ensures MaxDuration < request.duration ==> story.durationSeconds == MaxDuration
    ensures |story.scenes| == SceneCount(story.durationSeconds)
    ensures MinScenes <= |story.scenes| <= MaxScenes
    ensures 0.4 <= story.voiceProfile.reverb <= 0.95
    ensures |story.fxNotes| == 4
  {
    GeneratorTablesValid();
    Assemble(GeneratorTables, request, seed)
  }
}
