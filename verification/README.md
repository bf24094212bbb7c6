# Horror story generator — Dafny model

This project models the core of a small web application that writes short
horror stories for narration. The model covers three parts.

- **The story generator** (`lib/storyGenerator.ts`). A request carries a
  theme, an intensity, a duration and a style. The generator clamps the
  duration to 45–180 seconds and derives a scene count of 3–7 from it. It
  shuffles fixed word tables with a Park–Miller generator (multiplier
  16807, modulus 2^31 − 1). It then picks words to fill the title, hook,
  synopsis, scenes, voice profile and effect notes.
- **The request normaliser** of the `POST /api/generate` handler
  (`app/api/generate/route.ts`). It turns an untyped JSON payload into a
  request, using defaults, a clamp on the intensity and a whitelist of
  styles. It answers `{status: "ok", story}`, or 400 with the message
  "Unable to craft horror story".
- **The canvas colour handling** (`components/SceneCanvas.tsx`).
  `hexToRgba` turns `#rrggbb` into `rgba(r, g, b, alpha)` through
  `parseInt(_, 16)`, a 32-bit shift and a byte mask. Empty palette colours
  fall back to `#ff3f8e` and `#050508`.

Modules, one per file except the last:

| module | file | models |
|---|---|---|
| `Wrappers` | wrappers.dfy | `Option` and `Result` |
| `Text` | text.dfy | decimal rendering of numbers, ASCII upper-casing, `replace` of a first occurrence, "appears inside" |
| `JsMath` | js_math.dfy | `clamp` and `Math.round` |
| `StoryTables` | story_tables.dfy | the word tables, the three styles, and `WordTables`, the tables bundled as one value |
| `Selection` | selection.dfy | `pick`, the Park–Miller step and `shuffle` (as a function and as a loop) |
| `StoryGenerator` | story_generator.dfy | the story datatypes and `craftHorrorStory` |
| `StoryProperties` | story_properties.dfy | properties of whole stories |
| `GenerateRoute` | generate_route.dfy | the payload values, the normaliser and the response |
| `SceneCanvas`, `PaletteColours` | scene_canvas.dfy | `parseInt(_, 16)`, ToInt32, `hexToRgba`, the palette fallback, and the generator's own colours |

The generator reads a seed from SHA-256 of the theme and the current time.
Here that seed is a parameter: `CraftHorrorStory(request, seed)` is the
story for one seed, where `seed` is any 32-bit unsigned value. The story
is built by `Assemble(t, request, seed)`, which takes the word tables `t`
as an argument. `CraftHorrorStory` is `Assemble` applied to the
generator's own tables (`GeneratorTables`). Most properties are proved for
`Assemble` over any tables that satisfy `ValidTables`: every table
non-empty, and no sound layer that is also a visual motif.
`GeneratorTablesValid` proves that the generator's tables satisfy it, so
those properties hold for `CraftHorrorStory`.

Numbers (intensity, duration, pitch, rate, reverb, alpha) are exact reals.
The integer arithmetic on seeds is exact in the source too. Every product
it forms stays below 2^53.

Every finite intensity goes through `Math.max(1, Math.min(5, x))`, so an
intensity of 0 becomes 1, not the default 3 (see `NormalizeIntensity` and
`GenerateRoute.BoundaryPayload`).

## Model

| member | source | states |
|---|---|---|
| JsMath.Clamp | lib/storyGenerator.ts:132 | the result lies in [lo, hi]; it is the input when the input is in range, lo below the range and hi above it |
| JsMath.ClampMonotone | lib/storyGenerator.ts:132 | clamping to a fixed range preserves order |
| JsMath.Round | lib/storyGenerator.ts:150 | `Math.round` gives the integer n with n − 1/2 ≤ x < n + 1/2, so halves round up |
| Selection.Pick | lib/storyGenerator.ts:134 | `items[seed % items.length]` is an element of the list |
| Selection.LcgNext | lib/storyGenerator.ts:140 | the generator state after a step lies in [0, 2^31 − 2] |
| Selection.SwapIndex | lib/storyGenerator.ts:141 | the swap partner `s % (i + 1)` never exceeds `i` |
| Selection.Swap | lib/storyGenerator.ts:142 | the destructuring swap exchanges positions i and j and leaves every other position alone |
| Selection.SwapPermutes | lib/storyGenerator.ts:142 | a swap keeps the same multiset of elements |
| Selection.ShuffleFrom | lib/storyGenerator.ts:139-143 | the remaining rounds of the Fisher–Yates loop keep the list's length (a permutation by `ShuffleFromPermutes`) |
| Selection.ShuffleFromPermutes | lib/storyGenerator.ts:139-143 | every remaining round of the Fisher–Yates loop, taken together, permutes its input |
| Selection.Shuffle | lib/storyGenerator.ts:136-145 | `shuffle` returns a list of the input's length (a permutation by `ShufflePermutes`, the loop itself by `ShuffleCopy`) |
| Selection.ShufflePermutes | lib/storyGenerator.ts:136-145 | `shuffle` returns a permutation of its input (equal multisets) |
| Selection.ShuffleMembers | lib/storyGenerator.ts:136-145 | a value occurs in the shuffled list exactly when it occurs in the original |
| Selection.PickShuffled | lib/storyGenerator.ts:134-145 | picking from a shuffled table yields an entry of the original table |
| Selection.ShuffleCopy | lib/storyGenerator.ts:136-145 | the in-place loop (copy, step the generator, swap, count down) computes the recursive `Shuffle` |
| StoryTables.StyleNamed | lib/storyGenerator.ts:126-130 | a name maps to the style with exactly that key, or to nothing when no style has that key |
| StoryTables.StyleNameRoundTrip | lib/storyGenerator.ts:126-130 | looking up a style's own key gives the style back |
| StoryTables.GeneratorTablesValid | lib/storyGenerator.ts:38-124 | the generator's tables are non-empty, and no sound layer is also a visual motif |
| StoryGenerator.SceneCount | lib/storyGenerator.ts:150 | the scene count lies in [3, 7] and is the nearest whole number to duration / 20 unless that lies outside [3, 7] |
| StoryGenerator.ShuffleTables | lib/storyGenerator.ts:154-160 | each of the seven shuffled decks has the length of its table and holds only that table's entries |
| StoryGenerator.PickFrom | lib/storyGenerator.ts:172-179 | a pick from a shuffled deck is an entry of the deck's table |
| StoryGenerator.IntensityScalar | lib/storyGenerator.ts:171 | the per-scene intensity lies in [1, 5] and is at least the request's in-range intensity; above 5 it is 5 |
| StoryGenerator.ScalarNonDecreasing | lib/storyGenerator.ts:171 | the per-scene intensity never falls from one scene to a later one |
| StoryGenerator.Narration | lib/storyGenerator.ts:185 | the narration contains the picked detail and the picked entity |
| StoryGenerator.NarrationEmbeds | lib/storyGenerator.ts:185 | the narration contains the screen direction, the theme and the protagonist |
| StoryGenerator.ThirdCue | lib/storyGenerator.ts:179 | the third cue is a sound layer exactly when the scalar exceeds 3, and a visual motif exactly when it does not |
| StoryGenerator.Soundscape | lib/storyGenerator.ts:176-180 | three cues: the first two are sound layers, and the third follows the intensity rule |
| StoryGenerator.Palette | lib/storyGenerator.ts:188-191 | the background is `#050508` exactly on even indices and `#140714` on odd ones; the accent is `#ff3f8e` exactly when the scalar exceeds 3, otherwise `#6a63ff` |
| StoryGenerator.MakeScene | lib/storyGenerator.ts:170-194 | each scene is well formed: id `scene-` + (index + 1); the visual cue is a motif and the heading is that motif with its first letter upper-cased; the direction comes from the directions table and appears in the narration; plus the soundscape and palette rules above |
| StoryGenerator.Scenes | lib/storyGenerator.ts:170-194 | exactly `sceneCount` scenes, each well formed for its own index and scalar |
| StoryGenerator.Voice | lib/storyGenerator.ts:196-201 | reverb lies in [0.4, 0.95] and is exactly 0.45 + 0.08·intensity for an intensity in [1, 5]; the timbre is one of the three timbres; pitch is 0.62 − 0.06·intensity; rate is the style's cadence − 0.03·intensity |
| StoryGenerator.ReverbRises | lib/storyGenerator.ts:199 | a higher intensity never gives less reverb |
| StoryGenerator.FxNotes | lib/storyGenerator.ts:210-215 | four notes, the last of which is `endings[seed % endings.length]` |
| StoryGenerator.FxNotesEmbedPicks | lib/storyGenerator.ts:211-213 | the first three notes contain a sound layer, a visual motif and a sound layer, in that order |
| StoryGenerator.TitleText | lib/storyGenerator.ts:164 | the title template starts with the head followed by ": " |
| StoryGenerator.HookText | lib/storyGenerator.ts:166 | the hook template names the protagonist |
| StoryGenerator.SynopsisText | lib/storyGenerator.ts:168 | the synopsis template contains the upper-cased theme and names the protagonist |
| StoryGenerator.Title | lib/storyGenerator.ts:164 | the title starts with the picked title head followed by ": " |
| StoryGenerator.Hook | lib/storyGenerator.ts:166 | the hook names the protagonist |
| StoryGenerator.Synopsis | lib/storyGenerator.ts:168 | the synopsis contains the upper-cased theme and names the protagonist |
| StoryGenerator.TitleFilled | lib/storyGenerator.ts:164 | the title is the template filled with the picked head, an entry of the adjectives and an entry of the title tails, in that order |
| StoryGenerator.HookFilled | lib/storyGenerator.ts:166 | the hook is the template filled with the protagonist and an adjective, a setting and an entity, each from its own table and in its own slot |
| StoryGenerator.SynopsisFilled | lib/storyGenerator.ts:168 | the synopsis is the template filled with the upper-cased theme, the style name with its first `-` as a space, the protagonist, and an adjective, a setting, a detail and an entity, each from its own table and in its own slot |
| StoryGenerator.Assemble | lib/storyGenerator.ts:147-217 | the duration is clamped to [45, 180]; the scene count follows the clamped duration; every scene is well formed; hook and synopsis name the protagonist; voice bounds hold; the last of four notes is the seed's ending |
| StoryGenerator.CraftHorrorStory | lib/storyGenerator.ts:147-150 | on the generator's tables: duration in [45, 180] (the request's own when in range), 3 to 7 scenes, reverb in [0.4, 0.95], four effect notes |
| StoryProperties.StoryTextNamesProtagonist | lib/storyGenerator.ts:162-168 | a generated story's title starts with the picked title head and ": "; the hook and the synopsis name the picked protagonist; the synopsis contains the upper-cased theme |
| StoryProperties.ScenesWellFormed | lib/storyGenerator.ts:170-194 | every scene of a generated story is well formed, drawn from the generator's tables with the story's protagonist |
| StoryProperties.VoiceAndEnding | lib/storyGenerator.ts:200-214 | the timbre is one of cavern, void, whisper, and the last note is `endings[seed % 8]` |
| StoryProperties.SceneIdsDistinct | lib/storyGenerator.ts:183 | scene ids are pairwise distinct |
| StoryProperties.AccentNeverCools | lib/storyGenerator.ts:171-190 | once a scene has the hot accent, every later scene has it too |
| StoryProperties.IntenseRequestIntenseScenes | lib/storyGenerator.ts:171-190 | with intensity above 3, every scene has the hot accent and a sound layer as its third cue |
| StoryProperties.LighthouseScenario | lib/storyGenerator.ts:149-190 | theme "lighthouse", intensity 5, 45 s, found-footage gives 45 s, 3 scenes, all with the hot accent |
| StoryProperties.ThemeOnlyChangesText | lib/storyGenerator.ts:164-215 | for the same seed, changing only the theme leaves the title, hook, duration, voice, notes and scenes unchanged, except for the narrations; in the program the theme also feeds the seed (line 151), so two themes normally get different seeds |
| GenerateRoute.JsString | app/api/generate/route.ts:10 | `String(v)` throws exactly for an array or object that has no text form; otherwise it keeps a string unchanged and renders a number as its decimal text |
| GenerateRoute.IsFiniteNumber | app/api/generate/route.ts:11-12 | `Number.isFinite` holds exactly for finite numbers: not for NaN, the infinities, or numeric strings |
| GenerateRoute.NormalizeTheme | app/api/generate/route.ts:7-10 | a missing theme becomes "forbidden signal"; a theme whose `String()` throws gives no theme; any other becomes its text cut to 80 characters (a prefix), or the default when that is empty; a theme has 1–80 characters |
| GenerateRoute.NormalizeIntensity | app/api/generate/route.ts:7-11 | a finite number is clamped to [1, 5]; anything else (strings included) becomes 3 |
| GenerateRoute.NormalizeDuration | app/api/generate/route.ts:7-12 | a finite number passes through unclamped; anything else becomes 75 |
| GenerateRoute.NormalizeStyle | app/api/generate/route.ts:7-15 | a string equal to one of the three style keys is kept; anything else becomes supernatural |
| GenerateRoute.Normalize | app/api/generate/route.ts:6-16 | an unparseable body, or a theme whose `String()` throws, is the error; any other parsed body yields a request with a 1–80 character theme and an intensity in [1, 5], field by field as above |
| GenerateRoute.Encode | app/api/generate/route.ts:7 | the payload a client sends for a request: theme and style key as strings, intensity and duration as numbers, one field each |
| GenerateRoute.NormalizeEncode | app/api/generate/route.ts:7-16 | a request the generator is ready for, sent as a payload, normalises back to itself |
| GenerateRoute.NormalizeIdempotent | app/api/generate/route.ts:7-16 | whenever normalising succeeds, normalising its result again changes nothing |
| GenerateRoute.Post | app/api/generate/route.ts:4-26 | status 200 with a story exactly when the body parses and its theme converts to text, otherwise 400 with "Unable to craft horror story"; the story keeps the generator's bounds |
| GenerateRoute.BoundaryPayload | app/api/generate/route.ts:7-21 | theme "", intensity 0, duration 500, style "unknown" gives ("forbidden signal", 1, 500, supernatural), status 200 and a 180-second story |
| GenerateRoute.ThrowingThemePayload | app/api/generate/route.ts:10-24 | the payload {"theme": {"toString": 0}} makes `String(theme)` throw, and the handler answers 400 with "Unable to craft horror story" |
| SceneCanvas.TrimStart | components/SceneCanvas.tsx:13 | `parseInt` skips exactly the leading white space and line terminators |
| SceneCanvas.HexRun | components/SceneCanvas.tsx:13 | the digits `parseInt` reads are the longest run of hexadecimal digits |
| SceneCanvas.ParseHex | components/SceneCanvas.tsx:13 | text that is empty after leading white space reads as `NaN` |
| SceneCanvas.ReadHexDigits | components/SceneCanvas.tsx:13 | `NaN` exactly when no hexadecimal digit comes first; otherwise a value of the sign asked for |
| SceneCanvas.ParseHexSigned | components/SceneCanvas.tsx:13 | `-` before a run of digits negates its value, `+` keeps it |
| SceneCanvas.ParseHexPrefixed | components/SceneCanvas.tsx:13 | `0x` and `0X`, also after `-`, are skipped before the digits |
| SceneCanvas.ParseHexStops | components/SceneCanvas.tsx:13 | reading stops at the first character that is not a hexadecimal digit; the digits before it give the value |
| SceneCanvas.ParseHexSkipsSpace | components/SceneCanvas.tsx:13 | a leading white-space character does not change the result |
| SceneCanvas.ParseHexUnreadable | components/SceneCanvas.tsx:13 | text that starts with anything but white space, a sign or a hexadecimal digit reads as `NaN` |
| SceneCanvas.SkipSign | components/SceneCanvas.tsx:13 | `parseInt` drops one leading `-` or `+`, and nothing else |
| SceneCanvas.SkipHexPrefix | components/SceneCanvas.tsx:13 | `parseInt` with radix 16 drops a leading `0x` or `0X`, and nothing else |
| SceneCanvas.ToInt32 | components/SceneCanvas.tsx:14-16 | the shift operand is wrapped into the signed 32-bit range and stays congruent modulo 2^32 |
| SceneCanvas.Channel | components/SceneCanvas.tsx:14-16 | a shifted and masked channel lies in [0, 255] |
| SceneCanvas.ChannelBits | components/SceneCanvas.tsx:14-16 | shift-and-mask on the unwrapped value gives a byte |
| SceneCanvas.ChannelIgnoresWrap | components/SceneCanvas.tsx:14-16 | wrapping the operand to 32 bits before `>>` and `&` does not change any channel |
| SceneCanvas.Channels | components/SceneCanvas.tsx:11-16 | all three channels of any input lie in [0, 255] |
| SceneCanvas.HexToRgba | components/SceneCanvas.tsx:11-18 | the result is exactly `rgba(` r `, ` g `, ` b `, ` followed by the alpha text and `)`, where r, g, b are the decoded channels and alpha is passed through |
| SceneCanvas.RgbaTextShaped | components/SceneCanvas.tsx:17 | the template text is the head `rgba(r, g, b, ` followed by the alpha text and `)` |
| SceneCanvas.UnreadableIsBlack | components/SceneCanvas.tsx:13-17 | text `parseInt` cannot read (NaN) gives channels 0, 0, 0 |
| SceneCanvas.RgbaTextInjective | components/SceneCanvas.tsx:17 | the `rgba(r, g, b, alpha)` text determines r, g and b |
| SceneCanvas.HashFree | components/SceneCanvas.tsx:12 | removing the first `#` from `#` + digits leaves the digits |
| SceneCanvas.ParseHexDigits | components/SceneCanvas.tsx:13 | `parseInt(d, 16)` of a run of hexadecimal digits is their value |
| SceneCanvas.SixDigitValue | components/SceneCanvas.tsx:13 | six digits read as three digit pairs, most significant first |
| SceneCanvas.ChannelsOfValue | components/SceneCanvas.tsx:14-16 | the three shifts and masks split r·65536 + g·256 + b back into r, g and b |
| SceneCanvas.SixDigitChannels | components/SceneCanvas.tsx:11-16 | six hex digits, with or without `#`, give channels r, g and b spelled by their pairs, with r·65536 + g·256 + b equal to the parsed value |
| SceneCanvas.DecodeFormatHex | components/SceneCanvas.tsx:11-16 | decoding the `#rrggbb` form of any colour returns that colour |
| SceneCanvas.PaletteOf | components/SceneCanvas.tsx:22-25 | an empty accent becomes `#ff3f8e`, an empty background `#050508`; other colours are kept |
| SceneCanvas.PaletteOfIdempotent | components/SceneCanvas.tsx:22-25 | applying the fallback to a fallen-back palette changes nothing |
| PaletteColours.FallbacksAreStoryColours | components/SceneCanvas.tsx:23 | the fallbacks are the generator's hot accent and its even-scene background |
| PaletteColours.HighAccentChannels | components/SceneCanvas.tsx:11-16 | `#ff3f8e` decodes to (255, 63, 142) |
| PaletteColours.LowAccentChannels | components/SceneCanvas.tsx:11-16 | `#6a63ff` decodes to (106, 99, 255) |
| PaletteColours.EvenBackgroundChannels | components/SceneCanvas.tsx:11-16 | `#050508` decodes to (5, 5, 8) |
| PaletteColours.OddBackgroundChannels | components/SceneCanvas.tsx:11-16 | `#140714` decodes to (20, 7, 20) |
| Text.NatText | lib/storyGenerator.ts:183 | the decimal text of a natural number is non-empty, all digits, and has no leading zero |
| Text.NatTextRoundTrip | components/SceneCanvas.tsx:17 | reading back the decimal text of a channel gives the channel |
| Text.NumberText | components/SceneCanvas.tsx:17 | `${alpha}` of a whole number is its integer text; the text starts with `-` exactly for negative numbers |
| Text.Upper | lib/storyGenerator.ts:168 | `toUpperCase` keeps the length and upper-cases each character in place |
| Text.UpperIdempotent | lib/storyGenerator.ts:168 | upper-cased text has no lower-case letter, so upper-casing again changes nothing |
| Text.Capitalize | lib/storyGenerator.ts:184 | the heading keeps the motif's length, upper-cases its first character and keeps the rest |
| Text.ReplaceFirst | lib/storyGenerator.ts:168 | `replace` with a one-character pattern changes only the first occurrence, and changes nothing when the character is absent |

## Left out

- The seed. The source hashes the theme and `Date.now()` with SHA-256 and reads the first four bytes. The model takes the resulting 32-bit value as a parameter. Hashing and the clock are outside the model.
- Floating point. Intensities, durations, pitch, rate, reverb, scalars and alpha are exact reals. Double-precision rounding of `0.62 - intensity * 0.06` and similar expressions is not modelled.
- Number to text. `String(x)` and `${alpha}` are modelled as the exact decimal expansion, cut after 20 fraction digits. JavaScript's shortest round-trip digits and exponent notation are not modelled.
- Text units. `slice(0, 80)` and `charAt(0)` count UTF-16 code units in the source. The model counts Unicode characters, which agree on text without astral characters.
- Text.Upper, Text.Capitalize: upper-case ASCII letters only. `toUpperCase` follows the full Unicode case mapping. The generator's motifs all start with a lower-case ASCII letter, so their headings agree.
- SceneCanvas.ParseHex: reads digits exactly. `parseInt` loses precision beyond 2^53, about 13 hexadecimal digits, so longer inputs can differ in their low channels.
- JSON parsing and `NextResponse`. The parsed payload is an input (`RequestBody`), and a parse failure is its `Unparseable` case. Composite JSON values (arrays, objects) carry the text `String()` gives for them, or nothing when `String()` throws. What that text is, or whether it throws, is taken as given: `toString` and `valueOf` lookups are not modelled. `console.error` is a side effect and is left out.
- The style's `tone` is part of the table but is never read by the generator, so no property concerns it.
- Rendering. The canvas drawing loop, `StoryPlayer`, `StoryControls`, `HomeClient` and the page layout are user-interface code and are not modelled.
- Determinism. For a given seed it holds by construction, since `CraftHorrorStory` is a function.
- StoryGenerator.CraftHorrorStory: its contract carries only the duration, scene-count, reverb and note-count facts. The other facts are proved for `Assemble` and restated for generated stories by separate lemmas: the per-scene facts in `StoryProperties.ScenesWellFormed`, the title, hook and synopsis facts in `StoryProperties.StoryTextNamesProtagonist`, the timbre and ending in `StoryProperties.VoiceAndEnding`. Stating them all on the literal tables at once makes the proof much more expensive.
- StoryGenerator.ShuffleTables: states membership and length (`DrawnFrom`) rather than equal multisets. Full permutation is `Selection.ShufflePermutes`.
- StoryGenerator.Voice: states pitch and rate as exact linear functions of the intensity, without floating-point rounding.
