# Bitmap-font generator core, modelled in Dafny

The generator is a Phaser scene. It turns a line of text into a sprite sheet of glyphs and a
BMFont-style XML descriptor. This project models the sequential logic inside that scene and
its helpers:

- **Layout** (`initResize`). The text is split into UTF-16 code units, one text object each,
  with repeats kept. The cell is the largest measured width by the largest measured height.
  The grid has 10 columns. Its height is `n / 10 + 1` in real division. Each object is moved
  right by `maxWidth / 2 - width / 2`. The canvas is `maxWidth * 10` by
  `maxHeight * (n / 10 + 1)`.
- **Descriptor** (`generateFont`). There is one `char` record per object, plus the `info`,
  `common`, `pages` and `chars` blocks. The document is an attribute tree (`Element`), not XML text.
- **Texture cache** (`downloadCanvas`, `createTexture`). The key is
  `fontFamily_fontSize_fontColor_time`. It is a class holding the manager's texture map and
  a draw counter. A key already held returns at once without drawing. Any other key draws
  once and is registered.
- **`Swear`**. A promise wrapper with the states pending, done, canceled and rejected.
  Canceled is absorbing.
- **`makeGradient`**. `lines = floor(height / font) || 1` bands. Every option's percent is
  scaled into every band, band after band.

`src/js/Scene.js` is the JavaScript twin of `src/scripts/scenes/Main.ts`. The two differ only
in how they read the form, so one model serves both. Rows below cite whichever file has the
lines a member models. The corresponding ranges are:

- `initResize`: Main.ts 46-110 and Scene.js 39-104.
- `generateFont`: Main.ts 112-210 and Scene.js 106-194.
- `downloadCanvas`: Main.ts 212-220 and Scene.js 196-204.
- `createTexture`: Main.ts 222-255 and Scene.js 214-239.

Modules: `Wrappers` (Option), `JsStrings` (code units, `String()` of an integer and its
inverse), `Layout`, `Descriptor`, `Textures`, `MainScene` (the scene class), `Extra`
(`Swear`, `makeGradient`).

Inputs that stand in for the host:

- `sizes`: what the renderer measures for each text object.
- `aligned`: where `Phaser.Actions.GridAlign` puts each object.
- `now`: the clock reading that `new Date().getTime()` gives.
- `Request`: the form fields, with `parseInt` already applied.

The two download links are the scene fields `xmlMap` and `fontMap`. They hold what the links
carry before base64 encoding.

The model follows the code as written:

- Repeated characters are kept: the text `"AAB"` gives three glyphs.
- The grid height is `n / 10 + 1` in real division. `Layout.GridHeightExceedsRows`
  proves it is always more than the occupied rows `ceil(n / 10)`, by at most one row.
- The gradient axis is fixed at (0, 5)-(0, height). The stops are exactly the band-major
  option stops, with nothing added between bands.
- A settled `Swear` keeps changing its readable state: `reject` after `resolve` sets the
  state to rejected while the promise stays fulfilled (`Extra.RejectAfterResolve`).
- The descriptor carries no offsets and no padding: `xoffset` is "0" and `padding` is "0,0,0,0".
- The one page entry of the `pages` block is tagged `pages`, as the object key is written.

## Model

| member | source | states |
|---|---|---|
| `Layout.TextStyle` | src/scripts/scenes/Main.ts:60-67 | family, size as `fontSize + "px"` and colour are copied; `strokeThickness` is present exactly when the stroke size is non-zero and then equals it; `stroke` is present exactly when the stroke colour is non-empty and then equals it |
| `Layout.Split` | src/scripts/scenes/Main.ts:54 | `split("")` gives one one-unit string per code unit, in order |
| `Layout.SplitConcat` | src/js/Scene.js:47 | joining the pieces gives the text back, so nothing is dropped, merged or deduplicated |
| `Layout.AddTexts` | src/scripts/scenes/Main.ts:69-75 | the push loop yields one text object per character, in order, and width and height lists that are exactly the objects' measured sizes |
| `Layout.Max` | src/scripts/scenes/Main.ts:79-80 | `Math.max` of a non-empty list is an upper bound of every element and equals one of them |
| `Layout.GridHeight` | src/scripts/scenes/Main.ts:82-83 | the grid height is at least one, and ten times it is `n + 10`, so the code-unit count is recoverable from it |
| `Layout.ResizeBounds` | src/js/Scene.js:73-74 | every laid-out glyph has width ≤ maxWidth and height ≤ maxHeight, and both maxima are attained by some measured size |
| `Layout.GridHeightExceedsRows` | src/scripts/scenes/Main.ts:82-83 | `n / 10 + 1` is strictly more than `ceil(n / 10)`, the occupied rows, and at most one more |
| `Layout.CanvasWidth` | src/scripts/scenes/Main.ts:99 | the canvas is ten cells wide: a tenth of it is the cell width, so a non-negative cell fits in it |
| `Layout.CanvasHeight` | src/scripts/scenes/Main.ts:100 | a non-negative cell height fits in the canvas height, and a zero cell height gives a zero canvas height; `Layout.CellsFitCanvas` places every row inside it |
| `Layout.CellsFitCanvas` | src/scripts/scenes/Main.ts:99-100 | for non-negative cell sizes, the cell of glyph i (column i mod 10, row i div 10) lies inside the `maxWidth * 10` by `maxHeight * (n / 10 + 1)` canvas |
| `Layout.ResizeCanvas` | src/js/Scene.js:93-94 | the canvas is `maxWidth * 10` wide and `maxHeight * (n / 10 + 1)` high, with non-negative cell sizes when the measured sizes are non-negative |
| `Layout.Resize` | src/scripts/scenes/Main.ts:46-100 | there is one glyph per code unit of the text, the grid height is `GridHeight` of the code-unit count, the canvas is ten cells wide, and (for a non-negative cell height) at least one cell high |
| `Layout.ResizeGlyphs` | src/js/Scene.js:47-91 | glyph i holds the i-th code unit, the style, its measured size, the grid y unchanged and the grid x plus `maxWidth / 2 - width / 2`; there are exactly as many glyphs as code units |
| `Layout.WidestGlyphUnmoved` | src/scripts/scenes/Main.ts:96 | a glyph of maximal width keeps the x that the grid gave it |
| `Layout.Centre` | src/scripts/scenes/Main.ts:95-97 | only x changes; the glyph's horizontal centre lands at the old x plus half a cell; a glyph as wide as the cell is not moved; a narrower glyph stays within its cell |
| `Layout.CentreInCells` | src/js/Scene.js:89-91 | the in-place loop leaves every array element centred as `Centre` says, in order |
| `Layout.GridAlign` | src/scripts/scenes/Main.ts:85-93 | the objects receive the grid positions given as input, and nothing else about them changes |
| `Descriptor.CharRecord` | src/scripts/scenes/Main.ts:128-142 | `id` is the first code unit (NaN for an empty text), `char` the text, x, y, width and height are copied, `yoffset = maxHeight - height`, `xadvance = width`, and `xoffset`, `page`, `chnl` are "0", "0", "15" |
| `Descriptor.CharDataArray` | src/scripts/scenes/Main.ts:124-143 | the push loop yields exactly one record per object, in object order |
| `Descriptor.Info` | src/scripts/scenes/Main.ts:148-163 | the `info` block has no children, carries the face, the size and the outline `String(strokeSize)` |
| `Descriptor.Common` | src/scripts/scenes/Main.ts:164-177 | the `common` block has no children, line height and base equal to the cell height, and one page |
| `Descriptor.Pages` | src/scripts/scenes/Main.ts:178-185 | the `pages` block has no attributes and one child, whose only attributes are id "0" and file "font.png" |
| `Descriptor.Chars` | src/scripts/scenes/Main.ts:186-191 | the `chars` block's only attribute is `count`, the number of records, and its children are the records in order |
| `Descriptor.FontDocument` | src/scripts/scenes/Main.ts:145-192 | the root is tagged `font` and has exactly four children, `info`, `common`, `pages` and `chars` in that order, the last holding the records |
| `Descriptor.InfoHeader` | src/scripts/scenes/Main.ts:148-163 | `info` carries the face, the size and the outline, and the outline reads back as the stroke size |
| `Descriptor.CommonHeader` | src/scripts/scenes/Main.ts:164-177 | `common` has lineHeight = base = maxHeight |
| `Descriptor.PagesHeader` | src/scripts/scenes/Main.ts:178-185 | `pages` has exactly one entry, with id "0" and file "font.png" |
| `Descriptor.DocumentBlocks` | src/js/Scene.js:135-180 | the root `font` has each of `info`, `common`, `pages` and `chars` exactly once |
| `Descriptor.DocumentChars` | src/scripts/scenes/Main.ts:186-191 | `chars.count` is the number of records, and the `char` children are exactly the records, in order |
| `Descriptor.DocumentBoxes` | src/js/Scene.js:116-133 | reading the document back gives, record by record, the text, position and size of the glyphs it was built from |
| `Descriptor.SheetRecords` | src/js/Scene.js:120-127 | for a laid-out sheet, record i has `id` equal to the code of the i-th code unit, `char` equal to that unit, and a non-negative `yoffset` |
| `Textures.KeyTimestamp` | src/scripts/scenes/Main.ts:216 | what follows the last underscore of a key reads back as the time stamp, whatever the other fields hold |
| `Textures.KeysDifferByTime` | src/js/Scene.js:200 | two different time stamps always give two different keys |
| `Textures.KeyNotMissing` | src/scripts/scenes/Main.ts:230 | a generated key is never the manager's `__MISSING` key |
| `Textures.TextureKey` | src/scripts/scenes/Main.ts:216 | a key starts with the font family followed by an underscore and ends with an underscore followed by `String(time)` |
| `Textures.TextureManager.Get` | src/scripts/scenes/Main.ts:230 | `textures.get` returns the held texture, or the missing placeholder for an unknown key |
| `Textures.TextureManager.constructor` | src/scripts/scenes/Main.ts:230 | a new manager holds only the `__MISSING` placeholder and has drawn nothing |
| `Textures.TextureManager.Has` | src/js/Scene.js:216 | the cache test holds exactly when the key is held and is not `__MISSING` |
| `Textures.TextureManager.AddBase64` | src/scripts/scenes/Main.ts:246 | a new key is registered with the snapshot; a key in use is refused and nothing changes |
| `Textures.TextureManager.CreateTexture` | src/scripts/scenes/Main.ts:222-255 | a held key returns at once with map and draw count unchanged; any other key adds exactly one draw; a key other than `__MISSING` then has the container's snapshot at the given size registered and no other entry changes, and is held afterwards |
| `Textures.CreateTextureTwice` | src/js/Scene.js:214-239 | two requests for one key other than `__MISSING` draw at most once between them, and the second leaves the cache as the first left it |
| `Textures.Container.constructor` | src/scripts/scenes/Main.ts:77 | the container holds the very array of objects that is later laid out |
| `Textures.Container.Destroy` | src/scripts/scenes/Main.ts:43 | destroying marks the container destroyed and keeps its size |
| `MainScene.Main.constructor` | src/scripts/game.ts:5-6 | the game starts at 512 by 512 with no sheet and no links, and its cache holds only the `__MISSING` placeholder and has drawn nothing |
| `MainScene.Main.ClearScene` | src/scripts/scenes/Main.ts:42-44 | an existing container is destroyed and keeps its width and height |
| `MainScene.Main.InitResize` | src/scripts/scenes/Main.ts:46-110 | the container holds exactly the laid-out glyphs of `Layout.Resize` and the scene is resized to the canvas size; the descriptor link holds the document of those glyphs; the texture key is held afterwards, it cost one draw exactly when it was new, and the cache otherwise keeps every entry it had |
| `MainScene.Main.PlaceGlyphs` | src/scripts/scenes/Main.ts:51-109 | the fresh container holds exactly the laid-out glyphs of `Layout.Resize`, in a fresh array; the returned cell size is the sheet's; the container and the scene take the canvas size; the links stay as they were |
| `MainScene.Main.GenerateFont` | src/scripts/scenes/Main.ts:112-210 | the descriptor link holds the font document of the objects' records; the sheet's texture is added under the new key, or the cache is left as it was when the key was held |
| `MainScene.Main.DownloadCanvas` | src/scripts/scenes/Main.ts:212-220 | the container is cached under `fontFamily_fontSize_fontColor_now`, drawn only if that key was new, with every other entry of the cache unchanged, and the image link holds the texture of that key |
| `JsStrings.DecimalRoundTrip` | src/scripts/scenes/Main.ts:161 | `String(n)` of an integer reads back as `n` |
| `JsStrings.DecimalString` | src/scripts/scenes/Main.ts:161 | `String(i)` of an integer is non-empty, contains no underscore and ends in a digit |
| `Extra.Swear.constructor` | src/scripts/util/extra.ts:9-16 | a new swear is pending, not canceled, with an unsettled promise |
| `Extra.Swear.Cancel` | src/scripts/util/extra.ts:18-21 | from any state the flag is set and the state becomes canceled; the promise is untouched |
| `Extra.Swear.Resolve` | src/scripts/util/extra.ts:23-27 | when canceled nothing changes; otherwise the state becomes done and the promise is fulfilled unless it had already settled |
| `Extra.Swear.Reject` | src/scripts/util/extra.ts:29-33 | when canceled nothing changes; otherwise the state becomes rejected and the promise is rejected unless it had already settled |
| `Extra.CancelThenCalls` | src/scripts/util/extra.ts:18-33 | after `cancel` on a swear in any state, any run of `resolve` and `reject` calls leaves it canceled with its promise as it was at the cancel |
| `Extra.CancelIsAbsorbing` | src/scripts/util/extra.ts:9-33 | a fresh swear, once canceled, stays canceled and unsettled through any later `resolve` and `reject` calls |
| `Extra.RejectAfterResolve` | src/scripts/util/extra.ts:23-33 | `reject` after `resolve` leaves the state rejected while the promise stays fulfilled with the first value |
| `Extra.Lines` | src/scripts/util/extra.ts:40-42 | `lines` is at least 1, equals `floor(height / font)` when that is positive, and `lines - 1` lines of the font fit the height |
| `Extra.BandStops` | src/scripts/util/extra.ts:54-59 | one band has one stop per option, with that option's colour, in option order |
| `Extra.StopsOfBandsLength` | src/scripts/util/extra.ts:53-60 | the first `bands` bands give `bands * options` stops |
| `Extra.Stops` | src/scripts/util/extra.ts:53-60 | `makeGradient` adds `lines * options` stops |
| `Extra.StopAt` | src/scripts/util/extra.ts:53-60 | there are `lines * options` stops; stop `i * options + j` is option j's colour at `p / (100 * lines) + i / lines` |
| `Extra.OffsetInBand` | src/scripts/util/extra.ts:56 | a percent in [0, 100] lands in band i, that is in [i / lines, (i + 1) / lines] |
| `Extra.OffsetMonotone` | src/scripts/util/extra.ts:56 | within one band a larger percent never gives a smaller offset |
| `Extra.StopsInUnit` | src/scripts/util/extra.ts:53-60 | with percents in [0, 100] every stop lies in [0, 1] |
| `Extra.StopsSorted` | src/scripts/util/extra.ts:53-59 | with percents in [0, 100] and non-decreasing, the whole stop sequence is non-decreasing |
| `Extra.CanvasGradient.AddColorStop` | src/scripts/util/extra.ts:55-58 | a stop in [0, 1] is appended; any other offset raises `IndexSizeError` and adds nothing |
| `Extra.MakeGradient` | src/scripts/util/extra.ts:36-64 | fewer than two options report an error, create nothing and keep the fill; otherwise the fill becomes a fresh gradient on (0, 5)-(0, height) holding exactly the band-major stops, unless a stop falls outside [0, 1], in which case the fill stays |

## Left out

- `loadFont` and `WebFont.load` with its callbacks: an asynchronous foreign library. `create` and the click listener are DOM wiring.
- The `document.querySelector` reads and the `href` assignments are left out. The form is a `Request` and the links are the `xmlMap` and `fontMap` fields. The form re-reads inside `generateFont` are its `form` parameter.
- `btoa` base64 encoding, `js2xmlparser.parse` text serialisation and escaping, and `textures.getBase64` are left out. The model keeps the attribute tree and the texture.
- Attribute order inside an element is not modelled: attributes are a map. XML gives attribute order no meaning.
- Text measurement is left out: `obj.width` and `obj.height` are the input `sizes`.
- The internals of `Phaser.Actions.GridAlign` are left out: the positions it assigns are the input `aligned`. So neither "no two glyphs share a cell" nor the pre-shift positions are proved.
- `renderTexture` drawing and snapshot, the asynchronous image load in `addBase64`, `setTimeout` and the promise callbacks are left out. A snapshot is the container's glyphs at its size. Registration is taken to complete before the promise resolves.
- The `console.debug` and `console.error` messages are left out. The error is the `TooFewColors` outcome.
- `src/scripts/game.ts` beyond the initial game size, and `webpack/webpack.common.js` and `webpack/webpack.prod.js`: bootstrap and build configuration, with no logic of the core.
- IEEE-754 numbers are idealised as `real` and `parseInt` results as `int`, so there is no NaN from a blank field and no rounding. `String()` of a magnitude of 10^21 or more uses exponent form in JavaScript, and the model does not.
- `MainScene.Main.InitResize` requires a non-empty text, because `Math.max()` of an empty list is `-Infinity` and the canvas size is then not finite. `Layout.Max` and `Layout.Resize` share this requirement.
- `Extra.MakeGradient` requires `height >= 0` and a positive font size. The font size is the number `Number(style.fontSize.replace("px", ""))`, taken as a field. A zero size would make `lines` infinite and `new Array` throw. A colour that the canvas cannot parse (a `SyntaxError` from `addColorStop`) is not modelled.
- `Extra.Swear.Resolve` does not model a promise resolved with a thenable adopting that thenable's state.
- Literal strings of the model are ASCII. `JsStrings.Js` turns them into code units.
