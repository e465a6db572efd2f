/** The gene space of the painter: the declared genes, their domains, and the table
    that turns a gene's name into its position in a candidate solution. */
module GeneSpace {
  import opened Wrappers

  /** A candidate solution: one number per declared gene, in declaration order. */
  type Gene = seq<real>

  /** The domain of one gene, in the two forms the search engine accepts. */
  datatype Domain =
    | IntRange(start: int, stop: int)   // range(start, stop): the integers start <= v < stop
    | Uniform(low: real, high: real)    // {'low': low, 'high': high}: the reals low <= v <= high

  /** One entry of the gene dictionary: a name and its domain. */
  datatype GeneDecl = GeneDecl(name: string, domain: Domain)

  /** Python's `int(x)` on a float: drops the fraction, rounding toward zero. */
  function Trunc(x: real): (r: int)
    ensures 0.0 <= x ==> r as real <= x < r as real + 1.0
    ensures x < 0.0 ==> r as real - 1.0 < x <= r as real
  {
    if x >= 0.0 then x.Floor else -((-x).Floor)
  }

  predicate InDomain(v: real, d: Domain) {
    match d
    case IntRange(start, stop) => v == v.Floor as real && start <= v.Floor < stop
    case Uniform(low, high) => low <= v <= high
  }

  /** A gene the search engine may propose for `space`: one value per domain, each inside it. */
  predicate GeneInSpace(g: Gene, space: seq<Domain>) {
    |g| == |space| && forall i :: 0 <= i < |g| ==> InDomain(g[i], space[i])
  }

  /** The keys of the gene dictionary, in insertion order. */
  function Names(genes: seq<GeneDecl>): (r: seq<string>)
    ensures |r| == |genes| && forall k :: 0 <= k < |genes| ==> r[k] == genes[k].name
  {
    seq(|genes|, k requires 0 <= k < |genes| => genes[k].name)
  }

  /** The values of the gene dictionary, in insertion order: the gene space list. */
  function Domains(genes: seq<GeneDecl>): (r: seq<Domain>)
    ensures |r| == |genes| && forall k :: 0 <= k < |genes| ==> r[k] == genes[k].domain
  {
    seq(|genes|, k requires 0 <= k < |genes| => genes[k].domain)
  }

  /** No name occurs twice, as for the keys of a dictionary. */
  predicate Distinct(names: seq<string>) {
    forall i, j :: 0 <= i < j < |names| ==> names[i] != names[j]
  }

  /** `t` maps the k-th of `names` to k and holds no other key. */
  predicate IsIndexTable(t: map<string, nat>, names: seq<string>) {
    && (forall name :: name in t ==> name in names)
    && (forall k :: 0 <= k < |names| ==> names[k] in t && t[names[k]] == k)
  }

  /** The index table's values are exactly 0 .. |names| - 1, no two keys share one, and
      the names it was built from were distinct. */
  lemma IndexTableIsExact(t: map<string, nat>, names: seq<string>)
    requires IsIndexTable(t, names)
    ensures Distinct(names)
    ensures forall v: nat :: v in t.Values <==> v < |names|
    ensures forall a, b :: a in t && b in t && a != b ==> t[a] != t[b]
  {
    forall v | v in t.Values ensures v < |names| {
      var name :| name in t && t[name] == v;
      var k :| 0 <= k < |names| && names[k] == name;
    }
    forall k: nat | k < |names| ensures k in t.Values {
      assert names[k] in t && t[names[k]] == k;
    }
    forall a, b | a in t && b in t && a != b ensures t[a] != t[b] {
      var i :| 0 <= i < |names| && names[i] == a;
      var j :| 0 <= j < |names| && names[j] == b;
    }
  }

  /** `_gene_idx`: the index of a gene name; `None` is the `KeyError` of an unknown name. */
  function Lookup(t: map<string, nat>, name: string): Option<nat> {
    if name in t then Some(t[name]) else None
  }

  /** Looking a declared name up gives its declaration position, and the gene space
      holds that name's domain there; an undeclared name is not found. */
  lemma LookupFollowsDeclarations(t: map<string, nat>, genes: seq<GeneDecl>, name: string)
    requires IsIndexTable(t, Names(genes))
    ensures Lookup(t, name).Some? <==> name in Names(genes)
    ensures Lookup(t, name).Some? ==>
      var k := Lookup(t, name).value;
      k < |genes| && genes[k].name == name && Domains(genes)[k] == genes[k].domain
  {
    if name in Names(genes) {
      var k :| 0 <= k < |genes| && Names(genes)[k] == name;
      assert t[name] == k;
    }
  }

  /** The gene names the painter declares, in its order. */
  const GeneNames: seq<string> := ["type", "xPos", "yPos", "scale", "angle"]

  /** The gene dictionary built from the stroke count and the target's width and height. */
  function GeneDeclarations(strokeCount: nat, width: nat, height: nat): (r: seq<GeneDecl>)
    ensures Names(r) == GeneNames && Distinct(Names(r))
  {
    [ GeneDecl("type", IntRange(0, strokeCount)),
      GeneDecl("xPos", IntRange(0, width)),
      GeneDecl("yPos", IntRange(0, height)),
      GeneDecl("scale", Uniform(0.01, 1.0)),
      GeneDecl("angle", Uniform(0.0, 360.0)) ]
  }

  /** An index table of the painter's gene names puts them at 0 .. 4, in order. */
  lemma GeneNamesLayout(t: map<string, nat>)
    requires IsIndexTable(t, GeneNames)
    ensures "type" in t && t["type"] == 0
    ensures "xPos" in t && t["xPos"] == 1
    ensures "yPos" in t && t["yPos"] == 2
    ensures "scale" in t && t["scale"] == 3
    ensures "angle" in t && t["angle"] == 4
  {
    assert GeneNames[0] == "type" && GeneNames[1] == "xPos" && GeneNames[2] == "yPos";
    assert GeneNames[3] == "scale" && GeneNames[4] == "angle";
  }

  /** Through the table, each gene name addresses the domain declared for it: `type` ranges
      over the stroke indices, `xPos` and `yPos` over the target's columns and rows, `scale`
      over [0.01, 1.0] and `angle` over [0.0, 360.0]; there are exactly five genes. */
  lemma DomainByName(t: map<string, nat>, strokeCount: nat, width: nat, height: nat)
    requires IsIndexTable(t, GeneNames)
    ensures var space := Domains(GeneDeclarations(strokeCount, width, height));
      && |space| == 5
      && "type" in t && space[t["type"]] == IntRange(0, strokeCount)
      && "xPos" in t && space[t["xPos"]] == IntRange(0, width)
      && "yPos" in t && space[t["yPos"]] == IntRange(0, height)
      && "scale" in t && space[t["scale"]] == Uniform(0.01, 1.0)
      && "angle" in t && space[t["angle"]] == Uniform(0.0, 360.0)
  {
    GeneNamesLayout(t);
  }

  /** A whole-number gene value inside a non-negative integer range is its own truncation. */
  lemma TruncOfIntGene(v: real, start: int, stop: int)
    requires 0 <= start && InDomain(v, IntRange(start, stop))
    ensures Trunc(v) as real == v && start <= Trunc(v) < stop
  {
  }
}
