/**
 * The fixed word tables of the story generator and its three narration
 * styles. Every table is a non-empty constant read by `pick`/`shuffle`.
 */
module StoryTables {

  import opened Wrappers

  const Adjectives: seq<string> := [
    "unnerving", "suffocating", "nightmarish", "ravenous",
    "sepulchral", "dread-soaked", "blood-flecked", "phantasmal"
  ]

  const Settings: seq<string> := [
    "abandoned research facility", "forgotten coastal town", "snow-choked highway",
    "submerged cathedral", "derelict amusement pier", "blacked-out commuter train",
    "ritual-filled farmhouse", "deserted luxury tower"
  ]

  const Entities: seq<string> := [
    "echoing mimic", "bone orchard wraith", "cicada choir", "hollow-eyed pilgrim",
    "perpetual hunger", "static child", "velocity leech", "spiral-faced saint"
  ]

  const SensoryDetails: seq<string> := [
    "metallic tang of rusted air vents",
    "pulsing emergency strobes",
    "floorboards that inhale and exhale",
    "distant chanting that reverses on itself",
    "static voices stitched through loudspeakers",
    "frozen breath curling into sigils",
    "shadows pooling upward",
    "water dripping in perfect metronome cadence"
  ]

  const VisualMotifs: seq<string> := [
    "grainy VHS flicker",
    "fractured mirror reflections",
    "spiraling floodlights",
    "floating dust embers",
    "failing holographic billboards",
    "ink-black silhouettes",
    "crimson tracers",
    "hands pressing against the inside of the screen"
  ]

  const SoundLayers: seq<string> := [
    "subsonic drone",
    "reverse heartbeat",
    "wet dragging limbs",
    "metal cables thrumming",
    "distant child laughter cracking",
    "glass harmonica shrieks",
    "industrial fans slowing",
    "flooded hallway reverb"
  ]

  const ScreenDirections: seq<string> := [
    "Slow-zoom toward a lone doorway as steam curls upward",
    "Wide shot rotates 15° while silhouettes stretch across walls",
    "Handheld pan across flickering monitors with static interference",
    "Top-down angle reveals sigils traced in condensation",
    "Over-the-shoulder shot of a figure dissolving into smoke",
    "Rapid dolly-in synced with heartbeat stutter",
    "Orbiting drone view of blood-red tide encroaching",
    "Push-in as lights extinguish sequentially"
  ]

  const Endings: seq<string> := [
    "When the sun finally rose, the town was already hollow.",
    "They never found the footage—only the teeth marks on the camera frame.",
    "The emergency broadcast still runs, begging the watchers not to respond.",
    "Every mirror in the city fogged over, whispering the protagonist's new name.",
    "Something knocks from inside the viewers' screens, asking to be let out.",
    "The static child now hums lullabies through the protagonist's lungs.",
    "The ritual continues every night: view, remember, surrender.",
    "The camera keeps recording, but no one is holding it anymore."
  ]

  /** The inline lists the generator picks from without shuffling. */
  const Protagonists: seq<string> := [
    "investigative streamer", "nightshift paramedic", "urban explorer",
    "sleep-deprived archivist", "runaway medium", "retro-tech curator"
  ]

  const TitleHeads: seq<string> := [
    "Night Pulse", "Signal in the Veil", "Room Below Channel 7",
    "Archive of Teeth", "The Swaying Hour", "Hollowcast"
  ]

  const TitleTails: seq<string> := [
    "Transmission", "Requiem", "Broadcast", "Litany", "Episode", "Confession"
  ]

  const Timbres: seq<string> := ["cavern", "void", "whisper"]

  /** The three narration styles a request may name. */
  datatype Style = FoundFootage | Supernatural | Psychological {

    /** The request's spelling of the style. */
    function Name(): string {
      match this
      case FoundFootage => "found-footage"
      case Supernatural => "supernatural"
      case Psychological => "psychological"
    }

    /** The style's tone description; the generator never reads it. */
    function Tone(): string {
      match this
      case FoundFootage => "raw & panicked"
      case Supernatural => "ominous & ritualistic"
      case Psychological => "whispered doubts"
    }

    /** Base speech rate of the style before intensity slows it down. */
    function Cadence(): real {
      match this
      case FoundFootage => 0.96
      case Supernatural => 0.85
      case Psychological => 0.78
    }
  }

  /** The style a request string names, if it names one. */
  function StyleNamed(name: string): (r: Option<Style>)
    ensures r.Some? ==> r.value.Name() == name
    ensures r.None? ==> forall st: Style :: st.Name() != name
  {
    if name == "found-footage" then Some(FoundFootage)
    else if name == "supernatural" then Some(Supernatural)
    else if name == "psychological" then Some(Psychological)
    else None
  }

  /** Every style is recognised by its own name. */
  lemma StyleNameRoundTrip(st: Style)
    ensures StyleNamed(st.Name()) == Some(st)
  {
  }

  /** The sound-layer table and the visual-motif table share no entry. */
  lemma SoundsAreNotMotifs(x: string)
    requires x in SoundLayers
    ensures x !in VisualMotifs
  {
  }

  /** All the lists one story draws from. */
  datatype WordTables = WordTables(
    adjectives: seq<string>,
    settings: seq<string>,
    entities: seq<string>,
    details: seq<string>,
    motifs: seq<string>,
    sounds: seq<string>,
    directions: seq<string>,
    endings: seq<string>,
    protagonists: seq<string>,
    titleHeads: seq<string>,
    titleTails: seq<string>,
    timbres: seq<string>)

  /** The generator's own tables. */
  const GeneratorTables: WordTables := WordTables(
    Adjectives, Settings, Entities, SensoryDetails, VisualMotifs, SoundLayers,
    ScreenDirections, Endings, Protagonists, TitleHeads, TitleTails, Timbres)

  /**
   * What the generator needs of its tables: every list can be picked from,
   * and a sound layer is never mistaken for a visual motif.
   */
  predicate ValidTables(t: WordTables) {
    && |t.adjectives| > 0 && |t.settings| > 0 && |t.entities| > 0 && |t.details| > 0
    && |t.motifs| > 0 && |t.sounds| > 0 && |t.directions| > 0 && |t.endings| > 0
    && |t.protagonists| > 0 && |t.titleHeads| > 0 && |t.titleTails| > 0 && |t.timbres| > 0
    && forall x :: x in t.sounds ==> x !in t.motifs
  }

  lemma GeneratorTablesValid()
    ensures ValidTables(GeneratorTables)
  {
    forall x | x in GeneratorTables.sounds
      ensures x !in GeneratorTables.motifs
    {
      SoundsAreNotMotifs(x);
    }
  }
}
