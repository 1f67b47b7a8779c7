/** The chaos-game engine: a system of contraction mappings, one colour per
    map, and the running point that each iteration sends through a randomly
    chosen map. Random draws are passed in as arguments. */
module Fractal {
  import opened Wrappers
  import opened Geometry
  import opened Weights

  /** Why a system is refused at construction. */
  datatype Error =
    | EmptySystem             // the system has no maps
    | MalformedMap(index: nat) // in a weighted system, map `index` does not have seven entries

  /** Generated colours are `floor(u * 0xFFFFFF)` for a draw `u` in [0, 1). */
  const ColorRange := 0xFFFFFF

  /** Every draw lies in [0, 1), the range of the random source. */
  predicate DrawsInRange(draws: seq<real>)
  {
    forall k :: 0 <= k < |draws| ==> 0.0 <= draws[k] < 1.0
  }

  /** The colour generated from one draw: a packed 24-bit RGB value. */
  function ColorFromDraw(u: real): (c: int)
    requires 0.0 <= u < 1.0
    ensures 0 <= c < ColorRange
  {
    (u * ColorRange as real).Floor
  }

  /** The colour list extended with generated colours, one per draw, until it
      has at least `n` entries. */
  function PadColors(colors: seq<int>, n: nat, draws: seq<real>): (r: seq<int>)
    requires DrawsInRange(draws) && n - |colors| <= |draws|
    ensures |r| == if |colors| < n then n else |colors|
    ensures r[..|colors|] == colors
    ensures forall k :: |colors| <= k < |r| ==> r[k] == ColorFromDraw(draws[k - |colors|])
    decreases n - |colors|
  {
    if n <= |colors| then colors
    else
      var r := PadColors(colors + [ColorFromDraw(draws[0])], n, draws[1..]);
      assert r[|colors|] == (colors + [ColorFromDraw(draws[0])])[|colors|];
      assert r[..|colors|] == r[..|colors| + 1][..|colors|];
      r
  }

  /** The unweighted selection: `floor(u * n)` for a draw `u` in [0, 1). */
  function UniformIndex(u: real, n: nat): (k: nat)
    requires 0.0 <= u < 1.0 && n > 0
    ensures k < n
    ensures k as real <= u * n as real < k as real + 1.0
  {
    assert u * n as real < n as real;
    (u * n as real).Floor
  }

  /** An IFS engine. `system`, `weighted`, `cumulativeSum` and `colors` are fixed at
      construction; `point` and `colorIndex` change with every iteration. */
  class Ifs {
    const system: seq<seq<real>>
    const weighted: bool
    /** The cumulative-weight table; empty when the system is unweighted. */
    const cumulativeSum: seq<real>
    const colors: seq<int>
    var point: Point
    /** The map chosen last; `None` before the first choice. */
    var colorIndex: Option<nat>

    ghost predicate Valid()
      reads this
    {
      |system| > 0 &&
      weighted == (|system[0]| == MapWidth) &&
      (weighted ==> AllWeighted(system) && cumulativeSum == CumulativeTable(system)) &&
      (!weighted ==> cumulativeSum == []) &&
      |colors| >= |system| &&
      (colorIndex.Some? ==> colorIndex.value < |system|)
    }

    /** A draw the selection can use: in a weighted system it is non-negative
        and some cumulative bound meets it, so the scan stops inside the table;
        in an unweighted one it lies in [0, 1). */
    predicate DrawInRange(draw: real)
    {
      if weighted then 0.0 <= draw && Admissible(cumulativeSum, draw)
      else 0.0 <= draw < 1.0
    }

    /** The map that the draw selects. */
    function Choice(draw: real): (k: nat)
      reads this
      requires Valid() && DrawInRange(draw)
      ensures k < |system|
      ensures weighted ==> IsFirstBucket(cumulativeSum, draw, k)
      ensures !weighted ==> k as real <= draw * |system| as real < k as real + 1.0
    {
      if weighted then FirstBucket(cumulativeSum, draw) else UniformIndex(draw, |system|)
    }

    /** Builds the engine from validated parts; `Create` is the public entry. */
    constructor (system: seq<seq<real>>, weighted: bool, cumulativeSum: seq<real>,
                 colors: seq<int>, colorDraws: seq<real>)
      requires |system| > 0
      requires weighted == (|system[0]| == MapWidth)
      requires weighted ==> AllWeighted(system) && cumulativeSum == CumulativeTable(system)
      requires !weighted ==> cumulativeSum == []
      requires DrawsInRange(colorDraws) && |system| - |colors| <= |colorDraws|
      ensures Valid()
      ensures this.system == system && this.weighted == weighted
      ensures this.cumulativeSum == cumulativeSum
      ensures this.colors == PadColors(colors, |system|, colorDraws)
      ensures point == Origin && colorIndex == None
    {
      this.system := system;
      this.weighted := weighted;
      this.cumulativeSum := cumulativeSum;
      point := Origin;
      colorIndex := None;
      var padded, k := colors, 0;
      while |padded| < |system|
        invariant k <= |colorDraws| && |system| - |padded| <= |colorDraws| - k
        invariant PadColors(padded, |system|, colorDraws[k..]) == PadColors(colors, |system|, colorDraws)
        decreases |system| - |padded|
      {
        assert colorDraws[k..][1..] == colorDraws[k + 1..];
        padded := padded + [ColorFromDraw(colorDraws[k])];
        k := k + 1;
      }
      this.colors := padded;
    }

    /** Validates `system` and builds an engine over it. An empty system is
        refused; when the first row has seven entries, so must every row, and
        the first one that does not is reported. When the first row does not
        have seven entries, no other row is checked. */
    static method Create(system: seq<seq<real>>, colors: seq<int>, colorDraws: seq<real>)
      returns (r: Result<Ifs, Error>)
      requires DrawsInRange(colorDraws) && |system| - |colors| <= |colorDraws|
      ensures |system| == 0 ==> r == Failure(EmptySystem)
      ensures r.Success? <==> |system| > 0 && (|system[0]| == MapWidth ==> AllWeighted(system))
      ensures r.Failure? && |system| > 0 ==>
        r.error.MalformedMap? && IsFirstMalformed(system, r.error.index)
      ensures r.Success? ==>
        var ifs := r.value;
        fresh(ifs) && ifs.Valid() && ifs.system == system &&
        ifs.weighted == (|system[0]| == MapWidth) &&
        (ifs.weighted ==> ifs.cumulativeSum == CumulativeTable(system)) &&
        ifs.colors == PadColors(colors, |system|, colorDraws) &&
        ifs.point == Origin && ifs.colorIndex == None
    {
      if |system| == 0 {
        return Failure(EmptySystem);
      }
      var weighted := |system[0]| == MapWidth;
      var table := [];
      if weighted {
        var sums := CumulativeSums(system);
        if sums.Failure? {
          return Failure(MalformedMap(sums.error));
        }
        table := sums.value;
      }
      var ifs := new Ifs(system, weighted, table, colors, colorDraws);
      return Success(ifs);
    }

    /** Selects a map with the draw, records its index and returns its row. */
    method ChooseFn(draw: real) returns (row: seq<real>)
      requires Valid() && DrawInRange(draw)
      modifies this`colorIndex
      ensures Valid()
      ensures colorIndex == Some(Choice(draw))
      ensures row == system[Choice(draw)]
      ensures point == old(point)
    {
      var randomIndex;
      if weighted {
        var index := 0;
        while cumulativeSum[index + 1] < draw
          invariant 0 <= index < |system|
          invariant forall j :: 1 <= j <= index ==> cumulativeSum[j] < draw
          decreases |system| - index
        {
          index := index + 1;
        }
        BucketUnique(cumulativeSum, draw, index, Choice(draw));
        randomIndex := index;
      } else {
        randomIndex := UniformIndex(draw, |system|);
      }
      colorIndex := Some(randomIndex);
      return system[randomIndex];
    }

    /** The colour of the map chosen last; `None` before any choice. */
    function GetColor(): (c: Option<int>)
      reads this
      requires Valid()
      ensures c.Some? <==> colorIndex.Some?
      ensures c.Some? ==> c.value == colors[colorIndex.value]
    {
      if colorIndex.Some? then Some(colors[colorIndex.value]) else None
    }

    /** One step of the chaos game: the current point is replaced by its image
        under the map the draw selects, and the new point is returned. */
    method Iterate(draw: real) returns (p: Point)
      requires Valid() && DrawInRange(draw)
      requires |system[Choice(draw)]| >= CoefficientCount
      modifies this`point, this`colorIndex
      ensures Valid()
      ensures colorIndex == Some(Choice(draw))
      ensures GetColor() == Some(colors[Choice(draw)])
      ensures p == point == old(point).Times(system[Choice(draw)])
    {
      var row := ChooseFn(draw);
      point := point.Times(row);
      p := point;
    }
  }

  /** In an unweighted engine map `k` is chosen exactly for the draws in
      `[k/n, (k+1)/n)`, so every map gets an interval of the same width. */
  lemma UniformIndexIsInterval(u: real, n: nat, k: nat)
    requires 0.0 <= u < 1.0 && n > 0 && k < n
    ensures UniformIndex(u, n) == k <==> k as real <= u * n as real < k as real + 1.0
  {
  }

  /** A one-map unweighted system whose map is the translation by `(1, 2)`:
      the first iteration moves the origin to `(1, 2)` and the colour reported
      is the caller's colour for that map. */
  method TranslationExample()
  {
    var r := Ifs.Create([[0.0, 0.0, 0.0, 0.0, 1.0, 2.0]], [0x00FF00], []);
    var ifs := r.value;
    assert ifs.GetColor() == None;
    var p := ifs.Iterate(0.5);
    assert p == Point(1.0, 2.0);
    assert ifs.GetColor() == Some(0x00FF00);
  }

  /** A weighted system with weights 0.25 and 0.75: the draw 0.5 exceeds the
      first bucket and selects the second map. */
  method WeightedExample()
  {
    var system := [[0.5, 0.0, 0.0, 0.5, 0.0, 0.0, 0.25], [0.5, 0.0, 0.0, 0.5, 1.0, 1.0, 0.75]];
    var r := Ifs.Create(system, [], [0.0, 0.5]);
    var ifs := r.value;
    assert ifs.cumulativeSum[2] == 1.0;
    var p := ifs.Iterate(0.5);
    assert p == Point(1.0, 1.0);
    assert ifs.colorIndex == Some(1);
  }
}
