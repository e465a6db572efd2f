/** The painting controller: it loads a target image, a stroke library and a canvas, declares
    the gene space of one stroke, and on each `DrawStroke` lets the search engine pick the
    best stroke against the current canvas and paints it.

    File reads are inputs (`Option` values: `None` is a file OpenCV could not read), the
    search engine is a function parameter, and the image operations are the uninterpreted
    `ImageOps` record. */
module Artist {
  import opened Wrappers
  import opened Images
  import opened GeneSpace
  import opened PooledGa

  /** The painter's exceptions. `NonMatchingCanvasSize` is declared but never raised. */
  datatype ArtistError =
    | NonMatchingCanvasSize
    | EmptyStrokeImgList(strokeImgDirPath: string)
    | ImageNotFoundError(filePath: string)
    | OutputImageError(outputPath: string)

  /** The search settings read from the configuration file. */
  datatype GAConfig = GAConfig(generations: int, populationSize: int, keepElitism: int,
                               mutationProbability: real)

  /** The parameters handed to the search engine (the fitness callback is passed beside them). */
  datatype GAParameters = GAParameters(
    numGenerations: int,
    solPerPop: int,
    numParentsMating: int,
    numGenes: nat,
    geneSpace: seq<Domain>,
    keepElitism: int,
    parentSelectionType: string,
    crossoverType: string,
    mutationType: string,
    mutationProbability: real,
    mutationByReplacement: bool)

  /** A search engine run: given its parameters and a fitness callback, the best solution
      it found. Its randomness is inside the function. */
  type Engine = (GAParameters, (Gene, int) --> real) -> Gene

  /** `max(p // 4, p)`: Python's `//` floors, which for the divisor 4 is Dafny's `/`.
      For every population size that is not negative this is the population size itself. */
  function NumParentsMating(populationSize: int): (r: int)
    ensures populationSize >= 0 ==> r == populationSize
    ensures populationSize < 0 ==> r == populationSize / 4 && r >= populationSize
  {
    if populationSize / 4 >= populationSize then populationSize / 4 else populationSize
  }

  function GAParametersFor(config: GAConfig, space: seq<Domain>): GAParameters {
    GAParameters(
      numGenerations := config.generations,
      solPerPop := config.populationSize,
      numParentsMating := NumParentsMating(config.populationSize),
      numGenes := |space|,
      geneSpace := space,
      keepElitism := config.keepElitism,
      parentSelectionType := "sss",
      crossoverType := "uniform",
      mutationType := "random",
      mutationProbability := config.mutationProbability,
      mutationByReplacement := true)
  }

  /** Every parent is mating: the engine's `num_parents_mating` equals `sol_per_pop`
      whenever the configured population size is not negative. */
  lemma ParentsMatingIsPopulation(config: GAConfig, space: seq<Domain>)
    requires config.populationSize >= 0
    ensures GAParametersFor(config, space).numParentsMating == GAParametersFor(config, space).solPerPop
    ensures GAParametersFor(config, space).numGenes == |space|
  {
  }

  // ---------------------------------------------------------------------------------------
  // Loading

  /** The images a stroke directory yields: the readable files, in listing order. */
  function Readable<T>(listing: seq<Option<T>>): seq<T>
    decreases |listing|
  {
    if listing == [] then []
    else
      var last := listing[|listing| - 1];
      Readable(listing[..|listing| - 1]) + (if last.Some? then [last.value] else [])
  }

  /** Loading keeps listing order: the stroke list of a concatenated listing is the
      concatenation of the stroke lists. */
  lemma {:induction false} ReadableAppend<T>(a: seq<Option<T>>, b: seq<Option<T>>)
    ensures Readable(a + b) == Readable(a) + Readable(b)
    decreases |b|
  {
    if b == [] {
      assert a + b == a;
    } else {
      var b' := b[..|b| - 1];
      assert (a + b)[..|a + b| - 1] == a + b';
      ReadableAppend(a, b');
    }
  }

  /** The stroke list holds exactly the images of the readable files. */
  lemma {:induction false} ReadableMembers<T>(listing: seq<Option<T>>)
    ensures forall x :: x in Readable(listing) <==> Some(x) in listing
    decreases |listing|
  {
    if listing != [] {
      var init := listing[..|listing| - 1];
      ReadableMembers(init);
      assert listing == init + [listing[|listing| - 1]];
    }
  }

  /** The stroke list is empty exactly when no file in the listing is readable. */
  lemma {:induction false} ReadableEmptyIff<T>(listing: seq<Option<T>>)
    ensures Readable(listing) == [] <==> forall i :: 0 <= i < |listing| ==> listing[i].None?
    decreases |listing|
  {
    if listing != [] {
      var init := listing[..|listing| - 1];
      ReadableEmptyIff(init);
      if Readable(listing) == [] {
        forall i | 0 <= i < |listing| ensures listing[i].None? {
          if i < |listing| - 1 { assert listing[i] == init[i]; }
        }
      }
    }
  }

  /** What the constructor loads: the target, the stroke list and the starting canvas. */
  datatype LoadedImages = LoadedImages(target: Image, strokes: seq<Mask>, canvas: Image)

  /** The constructor's outcome, in the order it checks: an unreadable target fails first,
      then an empty stroke list, then a named canvas that cannot be read (reported with the
      target's path). An empty or absent canvas path gives a white canvas shaped like the
      target. The canvas and target sizes are not compared. */
  function Init(targetImgPath: string, targetRead: Option<Image>,
                strokeImgDirPath: string, strokeReads: seq<Option<Mask>>,
                canvasImgPath: Option<string>, canvasRead: Option<Image>)
    : Result<LoadedImages, ArtistError>
  {
    if targetRead.None? then Failure(ImageNotFoundError(targetImgPath))
    else if Readable(strokeReads) == [] then Failure(EmptyStrokeImgList(strokeImgDirPath))
    else if canvasImgPath.Some? && canvasImgPath.value != "" then
      if canvasRead.None? then Failure(ImageNotFoundError(targetImgPath))
      else Success(LoadedImages(targetRead.value, Readable(strokeReads), canvasRead.value))
    else Success(LoadedImages(targetRead.value, Readable(strokeReads), ColorLike(targetRead.value, White)))
  }

  /** An unreadable target fails with its path, whatever the strokes and the canvas. */
  lemma InitChecksTargetFirst(targetImgPath: string, strokeImgDirPath: string,
                              strokeReads: seq<Option<Mask>>,
                              canvasImgPath: Option<string>, canvasRead: Option<Image>)
    ensures Init(targetImgPath, None, strokeImgDirPath, strokeReads, canvasImgPath, canvasRead)
         == Failure(ImageNotFoundError(targetImgPath))
  {
  }

  /** With a readable target, a listing without one readable stroke fails with the
      directory path, whatever the canvas. */
  lemma InitChecksStrokesSecond(targetImgPath: string, target: Image, strokeImgDirPath: string,
                                strokeReads: seq<Option<Mask>>,
                                canvasImgPath: Option<string>, canvasRead: Option<Image>)
    requires forall i :: 0 <= i < |strokeReads| ==> strokeReads[i].None?
    ensures Init(targetImgPath, Some(target), strokeImgDirPath, strokeReads, canvasImgPath, canvasRead)
         == Failure(EmptyStrokeImgList(strokeImgDirPath))
  {
    ReadableEmptyIff(strokeReads);
  }

  /** A named canvas that cannot be read fails with the TARGET's path, not the canvas's. */
  lemma InitMissingCanvasNamesTarget(targetImgPath: string, target: Image, strokeImgDirPath: string,
                                     strokeReads: seq<Option<Mask>>, canvasImgPath: string)
    requires Readable(strokeReads) != [] && canvasImgPath != ""
    ensures Init(targetImgPath, Some(target), strokeImgDirPath, strokeReads, Some(canvasImgPath), None)
         == Failure(ImageNotFoundError(targetImgPath))
  {
  }

  /** Construction succeeds exactly when the target is readable, some stroke file is readable,
      and a named canvas is readable; it never raises `NonMatchingCanvasSize`. */
  lemma InitSucceedsIff(targetImgPath: string, targetRead: Option<Image>,
                        strokeImgDirPath: string, strokeReads: seq<Option<Mask>>,
                        canvasImgPath: Option<string>, canvasRead: Option<Image>)
    ensures var r := Init(targetImgPath, targetRead, strokeImgDirPath, strokeReads, canvasImgPath, canvasRead);
      && (r.Success? <==>
            && targetRead.Some?
            && (exists i :: 0 <= i < |strokeReads| && strokeReads[i].Some?)
            && (canvasImgPath.Some? && canvasImgPath.value != "" ==> canvasRead.Some?))
      && r != Failure(NonMatchingCanvasSize)
  {
    ReadableEmptyIff(strokeReads);
  }

  /** On success the stroke list is the readable strokes in listing order, and the canvas is
      the canvas file's image as read, even when its shape differs from the target's, or,
      with no canvas path, a white image of the target's shape. */
  lemma InitLoadsImages(targetImgPath: string, target: Image,
                        strokeImgDirPath: string, strokeReads: seq<Option<Mask>>,
                        canvasImgPath: Option<string>, canvasRead: Option<Image>)
    requires Init(targetImgPath, Some(target), strokeImgDirPath, strokeReads, canvasImgPath, canvasRead).Success?
    ensures var loaded := Init(targetImgPath, Some(target), strokeImgDirPath, strokeReads, canvasImgPath, canvasRead).value;
      && loaded.target == target
      && loaded.strokes == Readable(strokeReads) && loaded.strokes != []
      && (forall m :: m in loaded.strokes <==> Some(m) in strokeReads)
      && (canvasImgPath.Some? && canvasImgPath.value != "" ==> loaded.canvas == canvasRead.value)
      && (canvasImgPath.None? || canvasImgPath.value == "" ==>
            && Height(loaded.canvas) == Height(target)
            && (forall i :: 0 <= i < |loaded.canvas| ==> |loaded.canvas[i]| == |target[i]|)
            && (forall i, j :: 0 <= i < |loaded.canvas| && 0 <= j < |loaded.canvas[i]| ==>
                  loaded.canvas[i][j] == White))
  {
    ReadableMembers(strokeReads);
  }

  // ---------------------------------------------------------------------------------------
  // Rendering and fitness

  /** What rendering a gene reads: the image operations, the target, the canvas frozen for the
      current stroke, the stroke list and the gene index table. */
  datatype Context = Context(ops: ImageOps, target: Image, canvas: Image, strokes: seq<Mask>,
                             table: map<string, nat>)

  /** `gene[self._gene_idx(name)]` is defined: the name is in the table and inside the gene. */
  predicate HasField(ctx: Context, g: Gene, name: string) {
    name in ctx.table && ctx.table[name] < |g|
  }

  function Field(ctx: Context, g: Gene, name: string): real
    requires HasField(ctx, g, name)
  {
    g[ctx.table[name]]
  }

  /** The stroke list index the gene names, as `int(...)` truncates it. */
  function StrokeIndex(ctx: Context, g: Gene): int
    requires HasField(ctx, g, "type")
  {
    Trunc(Field(ctx, g, "type"))
  }

  /** The (x, y) position the gene names, each truncated by `int(...)`. */
  function Placement(ctx: Context, g: Gene): Position
    requires HasField(ctx, g, "xPos") && HasField(ctx, g, "yPos")
  {
    (Trunc(Field(ctx, g, "xPos")), Trunc(Field(ctx, g, "yPos")))
  }

  /** Python list indexing: a negative index counts from the end. */
  function PyIndex<T>(s: seq<T>, i: int): T
    requires -|s| <= i < |s|
  {
    if i < 0 then s[|s| + i] else s[i]
  }

  /** The gene can be rendered without a `KeyError` or an `IndexError`. */
  predicate Renderable(ctx: Context, g: Gene) {
    && HasField(ctx, g, "type") && HasField(ctx, g, "xPos") && HasField(ctx, g, "yPos")
    && HasField(ctx, g, "scale") && HasField(ctx, g, "angle")
    && -|ctx.strokes| <= StrokeIndex(ctx, g) < |ctx.strokes|
  }

  /** `_image_from_gene`: pick the stroke, scale it, rotate it, sample the target's mean
      colour under it and paint it on the frozen canvas. */
  function Render(ctx: Context, g: Gene): Image
    requires Renderable(ctx, g)
  {
    var stroke := PyIndex(ctx.strokes, StrokeIndex(ctx, g));
    var scaled := ctx.ops.scaleStroke(stroke, Field(ctx, g, "scale"));
    var rotated := ctx.ops.rotateStroke(scaled, Field(ctx, g, "angle"));
    var position := Placement(ctx, g);
    var color := ctx.ops.meanStrokeColor(ctx.target, rotated, position);
    ctx.ops.paintStroke(ctx.canvas, rotated, color, position)
  }

  /** A gene from the declared gene space can always be rendered: it picks an existing stroke
      (never a negative index), is placed inside the target, and its scale and angle lie in
      their declared ranges. */
  lemma SpaceGeneRenderable(ctx: Context, g: Gene)
    requires IsIndexTable(ctx.table, GeneNames)
    requires GeneInSpace(g, Domains(GeneDeclarations(|ctx.strokes|, Width(ctx.target), Height(ctx.target))))
    ensures Renderable(ctx, g)
    ensures 0 <= StrokeIndex(ctx, g) < |ctx.strokes|
    ensures 0 <= Placement(ctx, g).0 < Width(ctx.target) && 0 <= Placement(ctx, g).1 < Height(ctx.target)
    ensures 0.01 <= Field(ctx, g, "scale") <= 1.0 && 0.0 <= Field(ctx, g, "angle") <= 360.0
  {
    var space := Domains(GeneDeclarations(|ctx.strokes|, Width(ctx.target), Height(ctx.target)));
    DomainByName(ctx.table, |ctx.strokes|, Width(ctx.target), Height(ctx.target));
    GeneNamesLayout(ctx.table);
    assert InDomain(g[0], space[0]) && InDomain(g[1], space[1]) && InDomain(g[2], space[2]);
    assert InDomain(g[3], space[3]) && InDomain(g[4], space[4]);
    TruncOfIntGene(g[0], 0, |ctx.strokes|);
    TruncOfIntGene(g[1], 0, Width(ctx.target));
    TruncOfIntGene(g[2], 0, Height(ctx.target));
  }

  /** Rendering reads a gene only through its five declared fields, addressed by name. */
  lemma RenderReadsDeclaredFields(ctx: Context, g1: Gene, g2: Gene)
    requires Renderable(ctx, g1) && Renderable(ctx, g2)
    requires forall name :: name in GeneNames ==> Field(ctx, g1, name) == Field(ctx, g2, name)
    ensures Render(ctx, g1) == Render(ctx, g2)
  {
    assert "type" in GeneNames && "xPos" in GeneNames && "yPos" in GeneNames;
    assert "scale" in GeneNames && "angle" in GeneNames;
  }

  /** `1 - diff`: smaller differences score strictly higher; a perfect match scores 1, the
      most a non-negative difference can score. */
  function FitnessOfDiff(diff: real): (f: real)
    ensures diff >= 0.0 ==> f <= 1.0
    ensures f == 1.0 <==> diff == 0.0
  {
    1.0 - diff
  }

  lemma FitnessStrictlyDecreasing(d1: real, d2: real)
    ensures d1 < d2 <==> FitnessOfDiff(d1) > FitnessOfDiff(d2)
  {
  }

  /** `_fitness_function`: the difference between the target and the render, mapped to a score. */
  function Fitness(ctx: Context, g: Gene): real
    requires Renderable(ctx, g)
  {
    FitnessOfDiff(ctx.ops.imageDifference(ctx.target, Render(ctx, g)))
  }

  /** One gene outscores another exactly when its render is closer to the target. */
  lemma FitnessRanksByDifference(ctx: Context, g1: Gene, g2: Gene)
    requires Renderable(ctx, g1) && Renderable(ctx, g2)
    ensures Fitness(ctx, g1) > Fitness(ctx, g2) <==>
      ctx.ops.imageDifference(ctx.target, Render(ctx, g1)) < ctx.ops.imageDifference(ctx.target, Render(ctx, g2))
  {
    FitnessStrictlyDecreasing(ctx.ops.imageDifference(ctx.target, Render(ctx, g1)),
                              ctx.ops.imageDifference(ctx.target, Render(ctx, g2)));
  }

  /** The callback handed to the engine: `lambda g, gidx: self._fitness_function(g, gidx)`,
      bound to the context of the current stroke. The index is ignored. */
  function FitnessCallback(ctx: Context): (Gene, int) --> real {
    (g: Gene, geneIdx: int) requires Renderable(ctx, g) => Fitness(ctx, g)
  }

  /** Scoring a population of the gene space with the pooled strategy gives, in population
      order, each member's fitness against the same frozen canvas. */
  lemma PooledScoresUseFrozenCanvas(ctx: Context, population: seq<Gene>, chunkSize: nat)
    requires chunkSize > 0
    requires IsIndexTable(ctx.table, GeneNames)
    requires forall i :: 0 <= i < |population| ==>
      GeneInSpace(population[i], Domains(GeneDeclarations(|ctx.strokes|, Width(ctx.target), Height(ctx.target))))
    ensures forall i :: 0 <= i < |population| ==> Renderable(ctx, population[i])
    ensures var scores := CalPopFitness(FitnessCallback(ctx), population, chunkSize);
      && |scores| == |population|
      && forall i :: 0 <= i < |population| ==> scores[i] == Fitness(ctx, population[i])
  {
    forall i | 0 <= i < |population| ensures Renderable(ctx, population[i]) {
      SpaceGeneRenderable(ctx, population[i]);
    }
  }

  // ---------------------------------------------------------------------------------------
  // The controller

  class GeneticArtist {
    const ops: ImageOps
    const targetImg: Image
    const strokeImgList: seq<Mask>
    var canvasImg: Image
    var geneIdxTable: map<string, nat>
    var geneSpace: seq<Domain>
    /** Pooled scoring is slower than a single process, so one process is used. */
    const processes: nat
    var gaParameters: GAParameters

    /** The object invariant: a non-empty stroke list, and the gene table, gene space and
        engine parameters the constructor derives from the strokes and the target. */
    ghost predicate Valid()
      reads this
    {
      && strokeImgList != []
      && IsIndexTable(geneIdxTable, GeneNames)
      && geneSpace == Domains(GeneDeclarations(|strokeImgList|, Width(targetImg), Height(targetImg)))
      && gaParameters.numGenes == |geneSpace|
      && gaParameters.geneSpace == geneSpace
      && processes == 1
    }

    function LoadedState(): LoadedImages
      reads this
    {
      LoadedImages(targetImg, strokeImgList, canvasImg)
    }

    /** The rendering context of the current stroke. */
    function Ctx(): Context
      reads this
    {
      Context(ops, targetImg, canvasImg, strokeImgList, geneIdxTable)
    }

    /** The constructor, given the images it loaded (see `Create` for loading and its errors). */
    constructor (ops: ImageOps, target: Image, strokes: seq<Mask>, canvas: Image, config: GAConfig)
      requires strokes != []
      ensures Valid()
      ensures LoadedState() == LoadedImages(target, strokes, canvas) && this.ops == ops
      ensures gaParameters == GAParametersFor(config, geneSpace)
    {
      this.ops := ops;
      targetImg := target;
      strokeImgList := strokes;
      canvasImg := canvas;
      processes := 1;
      new;
      var genes := GeneDeclarations(|strokes|, Width(target), Height(target));
      InitGeneTables(genes);
      gaParameters := GAParametersFor(config, geneSpace);
    }

    /** Loads the target, the stroke list and the canvas, failing as `Init` says. */
    static method Create(ops: ImageOps, targetImgPath: string, targetRead: Option<Image>,
                         strokeImgDirPath: string, strokeReads: seq<Option<Mask>>,
                         config: GAConfig, canvasImgPath: Option<string>, canvasRead: Option<Image>)
      returns (r: Result<GeneticArtist, ArtistError>)
      ensures var init := Init(targetImgPath, targetRead, strokeImgDirPath, strokeReads, canvasImgPath, canvasRead);
        && (r.Failure? <==> init.Failure?)
        && (r.Failure? ==> r.error == init.error)
        && (r.Success? ==>
              && fresh(r.value) && r.value.Valid() && r.value.ops == ops
              && r.value.LoadedState() == init.value
              && r.value.gaParameters == GAParametersFor(config, r.value.geneSpace))
    {
      if targetRead.None? {
        return Failure(ImageNotFoundError(targetImgPath));
      }
      var target := targetRead.value;

      var strokes: seq<Mask> := [];
      for i := 0 to |strokeReads|
        invariant strokes == Readable(strokeReads[..i])
      {
        var readImg := strokeReads[i];
        assert strokeReads[..i + 1][..i] == strokeReads[..i];
        if readImg.Some? {
          strokes := strokes + [readImg.value];
        }
      }
      assert strokeReads[..|strokeReads|] == strokeReads;
      if |strokes| == 0 {
        return Failure(EmptyStrokeImgList(strokeImgDirPath));
      }

      var canvas: Image;
      if canvasImgPath.Some? && canvasImgPath.value != "" {
        if canvasRead.None? {
          return Failure(ImageNotFoundError(targetImgPath));
        }
        canvas := canvasRead.value;
      } else {
        canvas := ColorLike(target, White);
      }

      var artist := new GeneticArtist(ops, target, strokes, canvas, config);
      return Success(artist);
    }

    /** `_init_gene_tables`: number the gene names in declaration order and keep the domains,
        in the same order, as the gene space. */
    method InitGeneTables(genes: seq<GeneDecl>)
      requires Distinct(Names(genes))
      modifies this`geneIdxTable, this`geneSpace
      ensures IsIndexTable(geneIdxTable, Names(genes))
      ensures geneSpace == Domains(genes)
    {
      var geneIdx := 0;
      geneIdxTable := map[];
      while geneIdx < |genes|
        invariant 0 <= geneIdx <= |genes|
        invariant IsIndexTable(geneIdxTable, Names(genes)[..geneIdx])
      {
        geneIdxTable := geneIdxTable[genes[geneIdx].name := geneIdx];
        geneIdx := geneIdx + 1;
      }
      assert Names(genes)[..|genes|] == Names(genes);
      geneSpace := Domains(genes);
    }

    /** `_gene_idx`: on a valid painter, exactly the declared names are found, and each is
        found at its declaration position. */
    function GeneIdx(geneName: string): (r: Option<nat>)
      reads this
      ensures Valid() ==> (r.Some? <==> geneName in GeneNames)
      ensures Valid() && r.Some? ==> r.value < |geneSpace| && GeneNames[r.value] == geneName
    {
      Lookup(geneIdxTable, geneName)
    }

    /** `draw_stroke`: run a fresh search whose fitness callback is bound to the current
        canvas, then replace the canvas with the best gene's render against that canvas. */
    method DrawStroke(run: Engine)
      requires Valid()
      requires GeneInSpace(run(gaParameters, FitnessCallback(Ctx())), geneSpace)
      modifies this`canvasImg
      ensures Valid()
      ensures Renderable(old(Ctx()), run(gaParameters, FitnessCallback(old(Ctx()))))
      ensures canvasImg == Render(old(Ctx()), run(gaParameters, FitnessCallback(old(Ctx()))))
    {
      var frozen := Ctx();
      var solution := run(gaParameters, FitnessCallback(frozen));
      SpaceGeneRenderable(frozen, solution);
      canvasImg := Render(frozen, solution);
    }

    /** `get_image`: the canvas, as a value of its own. */
    method GetImage() returns (img: Image)
      ensures img == canvasImg
    {
      img := canvasImg;
    }

    /** `store_image`: write the canvas; a failed write is an `OutputImageError` naming the
        path. Nothing of the painter changes either way. */
    method StoreImage(outputFile: string, imwrite: (string, Image) -> bool) returns (r: Outcome<ArtistError>)
      ensures r.Pass? <==> imwrite(outputFile, canvasImg)
      ensures r.Fail? ==> r.error == OutputImageError(outputFile)
    {
      if !imwrite(outputFile, canvasImg) {
        return Fail(OutputImageError(outputFile));
      }
      return Pass;
    }
  }

  /** A valid painter's engine parameters declare exactly five genes. */
  lemma NumGenesIsFive(artist: GeneticArtist)
    requires artist.Valid()
    ensures artist.gaParameters.numGenes == 5
  {
  }

  /** The image `get_image` returns is not the canvas itself: a stroke drawn afterwards
      leaves it as it was. */
  method GetImageIsACopy(artist: GeneticArtist, run: Engine) returns (img: Image)
    requires artist.Valid()
    requires GeneInSpace(run(artist.gaParameters, FitnessCallback(artist.Ctx())), artist.geneSpace)
    modifies artist`canvasImg
    ensures img == old(artist.canvasImg)
  {
    img := artist.GetImage();
    artist.DrawStroke(run);
  }
}
