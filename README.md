# GeneticArtist, modelled in Dafny

GeneticArtist paints an approximation of a target image one stroke at a time. A stroke is a
grayscale mask picked from a stroke library. It is scaled, rotated, coloured with the mean
colour of the target under it, and painted onto the canvas. For each stroke a genetic
algorithm (pygad) searches the five-gene space `type`, `xPos`, `yPos`, `scale`, `angle`.
The fitness of a gene is `1 - diff`, where `diff` is the difference between the target and
the canvas with that stroke painted on it. `draw_stroke` commits the best gene found.

This project models the `GeneticArtist` controller and `PooledGA` population scoring of
`src/genetic_artist.py`:

- `wrappers.dfy` (`Wrappers`): `Option`, `Result` and `Outcome`. A file OpenCV cannot read
  is `None`. An exception is a `Failure`/`Fail` value.
- `images.dfy` (`Images`): images as rows of BGR pixels, masks as rows of bytes. The
  `image_ops` operations are an `ImageOps` record of function values, so nothing is claimed
  about their pixels. `ColorLike` is the one operation given a meaning: an image of the same
  shape, filled with one colour.
- `gene_space.dfy` (`GeneSpace`): gene domains (`range(a, b)` and `{'low', 'high'}`), the
  gene dictionary the constructor declares, and the name-to-index table. Python's `int()`
  truncation is written out as `Trunc`.
- `pooled_ga.dfy` (`PooledGa`): `pool.map` as a chunked map. Each chunk is mapped by a
  worker and the results are concatenated in chunk order. Order preservation is proved
  for every chunk size.
- `genetic_artist.dfy` (`Artist`): the class `GeneticArtist`. It holds the constant
  target, stroke list and image operations, and the fields `canvasImg`, `geneIdxTable`,
  `geneSpace` and `gaParameters`. Rendering and fitness are pure functions of a `Context`
  value. That value is the frozen canvas, the target, the strokes and the gene table.

Behaviour kept as the code has it:

- The exception `NonMatchingCanvasSize` is declared but never raised. A canvas whose size
  differs from the target's is accepted (`InitSucceedsIff`, `InitLoadsImages`).
- A canvas path that cannot be read raises `ImageNotFoundError` with the **target's** path
  (`InitMissingCanvasNamesTarget`).
- `num_parents_mating` is `max(p // 4, p)`. That is `p` for every `p >= 0`.
- The fitness mapping is `1 - diff` (`main.py` uses `1 / diff`; it is not part of this model).
- The fitness callback reads the painter's state when the engine calls it. Nothing changes
  that state during a search, so the model binds the callback to a snapshot (`Ctx()`) taken
  when `draw_stroke` starts.

Only `draw_stroke` changes the canvas. Every other method either has no `modifies` clause
or frames out `canvasImg`, and the target and stroke list are `const`.

## Model

| member | source | states |
|---|---|---|
| `GeneSpace.GeneDeclarations` | src/genetic_artist.py:142-149 | the declared gene names are exactly `type`, `xPos`, `yPos`, `scale`, `angle`, in that order, and they are distinct |
| `GeneSpace.DomainByName` | src/genetic_artist.py:142-150 | through the gene table: `type` is `range(0, number of strokes)`, `xPos` is `range(0, width)`, `yPos` is `range(0, height)`, `scale` is `{0.01, 1.0}`, `angle` is `{0.0, 360.0}`, and there are exactly five genes |
| `GeneSpace.GeneNamesLayout` | src/genetic_artist.py:172-177 | the k-th declared gene name has index k in the table |
| `GeneSpace.IndexTableIsExact` | src/genetic_artist.py:172-179 | an index table's values are exactly 0..n-1, no two names share an index, and the names it numbers are distinct |
| `GeneSpace.LookupFollowsDeclarations` | src/genetic_artist.py:179-182 | a lookup succeeds iff the name was declared; it then gives the declaration position, and the gene space holds that name's domain there; an undeclared name is the KeyError |
| `GeneSpace.Trunc` | src/genetic_artist.py:186-193 | `int()` on a float rounds toward zero: the result is within 1 of the input, on the input's side of zero |
| `GeneSpace.TruncOfIntGene` | src/genetic_artist.py:186-193 | a whole-number gene from a non-negative `range` truncates to itself, inside the range |
| `Artist.GeneticArtist.InitGeneTables` | src/genetic_artist.py:172-179 | after the call the table numbers the dictionary's keys in insertion order, and the gene space is the dictionary's values in the same order |
| `Artist.GeneticArtist.GeneIdx` | src/genetic_artist.py:181-182 | on a constructed painter, exactly the five declared names are found, each at its declaration position within the gene space |
| `Artist.NumParentsMating` | src/genetic_artist.py:161 | `max(p // 4, p)` is `p` for every `p >= 0`, and `p // 4` for negative `p` |
| `Artist.ParentsMatingIsPopulation` | src/genetic_artist.py:157-170 | the engine parameters make every member of a non-negative population a mating parent, and declare one gene per gene space entry |
| `Artist.NumGenesIsFive` | src/genetic_artist.py:162 | a constructed painter's engine parameters have `num_genes` equal to 5 |
| `Artist.ReadableAppend` | src/genetic_artist.py:124-128 | loading keeps listing order: the stroke list of a concatenated listing is the concatenation of the two stroke lists |
| `Artist.ReadableMembers` | src/genetic_artist.py:124-128 | the stroke list holds exactly the images of the readable files, and unreadable files are dropped |
| `Artist.ReadableEmptyIff` | src/genetic_artist.py:124-130 | the stroke list is empty iff no file in the listing is readable |
| `Artist.InitChecksTargetFirst` | src/genetic_artist.py:118-121 | an unreadable target raises `ImageNotFoundError(target path)`, whatever the strokes and canvas |
| `Artist.InitChecksStrokesSecond` | src/genetic_artist.py:123-130 | with a readable target, a listing with no readable file raises `EmptyStrokeImgList(directory)`, whatever the canvas |
| `Artist.InitMissingCanvasNamesTarget` | src/genetic_artist.py:133-136 | a named canvas that cannot be read raises `ImageNotFoundError` carrying the target's path |
| `Artist.InitSucceedsIff` | src/genetic_artist.py:118-138 | construction succeeds iff the target, at least one stroke file and any named canvas are readable; `NonMatchingCanvasSize` is never the outcome |
| `Artist.InitLoadsImages` | src/genetic_artist.py:119-138 | on success the target is as read; the strokes are the readable files in listing order; the canvas is the named file as read, of any size, or without a path a white image of the target's shape |
| `Artist.GeneticArtist.Create` | src/genetic_artist.py:109-170 | the constructor fails exactly as the check order says, with the same error; on success it yields a fresh valid painter holding the loaded images and the engine parameters built from the configuration |
| `Artist.GeneticArtist.constructor` | src/genetic_artist.py:140-170 | declares the five genes from the stroke count and the target's shape, builds the tables, uses one process and builds the engine parameters |
| `Artist.SpaceGeneRenderable` | src/genetic_artist.py:184-197 | a gene from the declared space renders without KeyError or IndexError; it picks an existing stroke at a non-negative index, lies inside the target, and has scale in [0.01, 1] and angle in [0, 360] |
| `Artist.RenderReadsDeclaredFields` | src/genetic_artist.py:184-197 | the render depends on a gene only through the five fields addressed by name |
| `Artist.FitnessOfDiff` | src/genetic_artist.py:199-201 | a non-negative difference scores at most 1, and the score is 1 exactly for a zero difference |
| `Artist.FitnessStrictlyDecreasing` | src/genetic_artist.py:199-201 | a smaller difference scores strictly higher, in both directions |
| `Artist.FitnessRanksByDifference` | src/genetic_artist.py:199-201 | one gene outscores another iff its render is closer to the target |
| `PooledGa.PoolMap` | src/genetic_artist.py:101-105 | for every chunk size, the gathered results have the population's length and the i-th is the score of the i-th input |
| `PooledGa.CalPopFitness` | src/genetic_artist.py:98-105 | one fitness per population member, in population order; the i-th is `fitness_func(population[i], 0)` |
| `PooledGa.ChunkSizeIsInvisible` | src/genetic_artist.py:101-105 | the pool's chunk size does not change the scores or their order |
| `Artist.PooledScoresUseFrozenCanvas` | src/genetic_artist.py:98-105 | scoring a population from the gene space gives, in order, each member's fitness against the same frozen canvas |
| `Artist.GeneticArtist.DrawStroke` | src/genetic_artist.py:203-215 | the search gets a fitness callback bound to the current canvas, and the canvas becomes the best gene's render against the pre-stroke canvas; the painter stays valid |
| `Artist.GeneticArtist.GetImage` | src/genetic_artist.py:217-218 | returns an image equal to the canvas, and changes nothing |
| `Artist.GetImageIsACopy` | src/genetic_artist.py:217-218 | the image `get_image` returned is unchanged by a later `draw_stroke` |
| `Artist.GeneticArtist.StoreImage` | src/genetic_artist.py:220-222 | a failed write raises `OutputImageError(path)`, a successful one returns normally, and nothing of the painter changes |

## Left out

- The `image_ops` module is not part of this model. Scaling, rotating, the mean colour, painting and the image difference are uninterpreted function values, so pixel-level properties are not stated: which pixels a stroke can change, and what happens to a stroke placed off the canvas.
- `ColorLike`: `image_ops.color_like` is not part of this model. It is defined here as "same shape, every pixel the given colour", as its name and its use for the blank canvas say.
- Rendering is pure on image values. If `paint_stroke` drew on its canvas argument in place, the model would not capture it. Images are immutable values throughout, so buffer identity and aliasing are not modelled; `get_image`'s copy shows only as `GetImageIsACopy`.
- File system and OpenCV I/O (`glob.glob`, `cv.imread`, `cv.imwrite`) are inputs. The listing is a sequence of optional masks in `glob` order. Each image read is an `Option`. The write is a function returning success.
- The pygad engine (`run`, selection, crossover, mutation, elitism) is the `Engine` function parameter. `DrawStroke` requires that its best solution lies in the declared gene space, as pygad promises for a `gene_space`. The solution's fitness and index, which `best_solution` also returns, are unused by the source and not modelled.
- `DrawStroke`: the branch that builds a `PooledGA` runs only with more than one process. The constructor fixes one process, so the model always uses the single engine; the pooled scoring is modelled on its own as `CalPopFitness`.
- `GeneInSpace` reads a `{'low', 'high'}` domain as the closed interval; pygad draws from it uniformly, and whether `high` itself can occur is not modelled.
- The worker pool's concurrency and its choice of chunk size are not modelled: `PoolMap` takes any positive chunk size and models the gathered order.
- Floating point is modelled as `real`. The L2 difference is an abstract real, and it is not assumed to be non-negative.
- `genetic_artist_config` is not part of this model. The four settings used are the `GAConfig` record. The exceptions' message formatting and `ConfigFileNotFoundError`/`ConfigFileError`, which the core never raises, are left out.
- `main.py` and `video/video.py` are scripts outside the controller and are not modelled.
