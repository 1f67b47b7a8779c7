# IFS chaos-game engine, modelled in Dafny

This project models the iterated function system (IFS) engine of `fractal.js`.
An IFS is a finite list of contraction mappings. Each mapping is a row
`a b c d e f [p]`: six coefficients of the affine map
`(x, y) |-> (a*x + b*y + e, c*x + d*y + f)` and, optionally, a selection weight `p`.
The engine plays the "chaos game". It starts at the origin. On every iteration it
picks a map at random, either by weight or uniformly. It sends the current point
through that map and reports the colour of the chosen map.

Modules:

- `Wrappers` (`wrappers.dfy`): `Option` (standing for JavaScript's `undefined`) and `Result`.
- `Geometry` (`geometry.dfy`): the `Point` value, its `Times` map, and lemmas about it.
- `Weights` (`weights.dfy`): the cumulative-weight table, the one-pass loop that builds it
  and rejects the first row that does not have seven entries, and the first-bucket search used for weighted selection.
- `Fractal` (`fractal.dfy`): the `Ifs` class. Its fields are `system`, `weighted`, `cumulativeSum`,
  `colors`, and the mutable `point` and `colorIndex`. The module also holds construction
  (`Ifs.Create`), colour padding, selection (`ChooseFn`), `GetColor` and `Iterate`.

Every call to `Math.random()` becomes an explicit argument. `ChooseFn` and `Iterate` take one
`draw`. Construction takes a sequence `colorDraws`, one draw per generated colour. Numbers are
Dafny `real`s. Colours are `int`s.

Points where the code's behaviour is easy to misread:

- With all weights zero, the scan at fractal.js:83 runs past the table for every draw above 0.
  The model requires the draw to be admissible: some cumulative bound `table[1..N]` meets it,
  so the scan stops inside the table. `Weights.ZeroWeightsSelectFirst` shows that only the
  draw 0 is then admissible, and that it selects map 0.
- Weights are not validated, so they may be negative. With no negative weight a draw is
  admissible exactly when it does not exceed the total weight (`Weights.AdmissibleIffWithinTotal`).
  With a negative weight, a draw above the total can still stop inside the table.
- The uniform index at fractal.js:89 is not clamped. With exact reals, `floor(u*N) < N` holds
  anyway (`Fractal.UniformIndex`).
- Row lengths are checked only when the first row has 7 entries (fractal.js:51-58). A system
  whose first row has another length is accepted whatever its other rows hold.
- `get_color` before any choice reads `colors[undefined]`, which is `undefined` (fractal.js:98-99).
  The model returns `None`.
- A caller's colour list longer than the system is kept as it is (fractal.js:67-70), so `colors`
  has at least one entry per map.

## Model

| member | source | states |
|---|---|---|
| `Geometry.Point.Times` | fractal.js:113-118 | the image of (x, y) is (a*x + b*y + e, c*x + d*y + f), from the first six entries a b c d e f of the row |
| `Geometry.TimesOrigin` | fractal.js:107-118 | the image of the default point (0,0) is the translation part (e, f) of the row |
| `Geometry.TimesPreservesMix` | fractal.js:113-118 | `times` is an affine map: it sends the combination (1-t)p + tq to the same combination of the images |
| `Geometry.TimesIgnoresWeight` | fractal.js:113-118 | only the first six entries are destructured, so the weight entry of a 7-entry row has no effect on the image |
| `Geometry.TranslationSendsOriginToOffset` | fractal.js:113-118 | the map (0,0,0,0,1,2) sends (0,0) to (1,2) |
| `Weights.CumulativeTable` | fractal.js:53-62 | the table has N+1 entries, starts at 0, and each entry i+1 is entry i plus the weight of map i |
| `Weights.CumulativeSums` | fractal.js:51-62 | the loop succeeds exactly when every row has 7 entries, and then yields the cumulative table; otherwise it reports the first row that does not have 7 entries |
| `Weights.CumulativeTotal` | fractal.js:53-62 | the last table entry is the sum of all weights |
| `Weights.CumulativeMonotone` | fractal.js:53-62 | with no negative weight the table is non-decreasing |
| `Weights.CumulativeUnique` | fractal.js:53-62 | any table that starts at 0 and adds each weight in turn is the table built from the system, so building twice from the same rows gives the same table |
| `Weights.ZeroWeightsTable` | fractal.js:53-62 | with all weights zero every table entry is zero |
| `Weights.FirstBucket` | fractal.js:79-87 | for an admissible draw (some bound of table[1..N] meets it), the result is an index i < N with table[i+1] >= draw and table[j] < draw for every 1 <= j <= i |
| `Weights.AdmissibleIffBucket` | fractal.js:83-85 | the scan stops inside the table exactly when some cumulative bound meets the draw |
| `Weights.AdmissibleIffWithinTotal` | fractal.js:79-87 | with no negative weight, the scan stops inside the table exactly when the draw does not exceed the total weight |
| `Weights.BucketUnique` | fractal.js:83-87 | the first bucket meeting the draw is unique |
| `Weights.BucketIsInterval` | fractal.js:79-87 | with non-negative weights and a positive draw, map k is selected exactly when table[k] < draw <= table[k+1], an interval as wide as map k's weight |
| `Weights.ZeroWeightsSelectFirst` | fractal.js:79-87 | with all weights zero only the draw 0 is admissible, and it selects map 0; every positive draw runs the scan past the table |
| `Fractal.ColorFromDraw` | fractal.js:69 | a generated colour, the draw times 0xFFFFFF truncated to an integer, is a packed 24-bit value in [0, 0xFFFFFF) |
| `Fractal.PadColors` | fractal.js:67-70 | the padded list has max(len(colors), N) entries, keeps the caller's colours at their positions, and appends one generated colour per draw |
| `Fractal.UniformIndex` | fractal.js:88-90 | the uniform index floor(u*N) lies in [0, N) and is the integer k with k <= u*N < k+1 |
| `Fractal.UniformIndexIsInterval` | fractal.js:89 | map k is chosen uniformly exactly for draws with k <= u*N < k+1, an interval of width 1/N |
| `Fractal.Ifs.Choice` | fractal.js:76-90 | the selected index is below N; in a weighted engine it is the first bucket meeting the draw, in an unweighted one the integer k with k <= draw*N < k+1 |
| `Fractal.Ifs.constructor` | fractal.js:36-70 | a new engine is at `Origin`, the default point (0,0) of fractal.js:38 and 108-111, has made no choice yet, and has the padded colour list |
| `Fractal.Ifs.Create` | fractal.js:36-71 | an empty system is refused; when the first row has 7 entries, the first row without 7 entries is reported; otherwise the engine is built, weighted exactly when the first row has 7 entries, with the cumulative table and padded colours |
| `Fractal.Ifs.ChooseFn` | fractal.js:76-96 | the scan or the uniform index selects `Choice(draw)`, records it as the colour index, and returns that row; nothing else changes |
| `Fractal.Ifs.GetColor` | fractal.js:98-100 | `None` before any choice; otherwise the colour at the recorded index |
| `Fractal.Ifs.Iterate` | fractal.js:102-104 | the point becomes the image of the old point under the selected map and is returned; the colour reported afterwards is that map's colour; nothing else changes |

`Fractal.TranslationExample` and `Fractal.WeightedExample` are client methods. They show that
the contracts alone determine the first iteration of a one-map and of a two-map weighted engine.

## Left out

- `run.js` as a whole: reading the file, parsing numbers, drawing with node-gd, scaling points to pixels, and saving the PNG are I/O.
- `Math.random()` is not modelled as an entropy source. Draws are arguments, and the distribution of generated colours is not modelled, only their count and range.
- IEEE floating point: coordinates, weights and cumulative sums are exact reals, so rounding, NaN and infinities are not modelled.
- Fractal.Ifs.Iterate: it requires the selected row to have at least six entries. In the code, a shorter row in an unweighted system makes at least one coordinate NaN. The model does not follow that NaN.
- Fractal.Ifs.DrawInRange: a weighted draw that no bound of `table[1..N]` meets makes the scan at fractal.js:83 run past the table. The code then records `color_index = N`, `choose_fn` returns `undefined`, and destructuring it in `times` (fractal.js:113) throws a TypeError. The model excludes such draws by precondition and does not model that exception.
- Fractal.UniformIndex: `| 0` is `ToInt32` in JavaScript. The model uses floor, which agrees for every system with fewer than 2^31 maps.
- Fractal.Ifs.Create: the caller's colour array is padded in place in JavaScript, so the caller sees the generated colours. The model copies the list into the engine and does not model that aliasing.
- Fractal.Ifs.Create: the colour list has no default value; callers pass `[]` for the default `colors=[]` of fractal.js:36.
- Fractal.Ifs.Create: the runtime checks `!system` and `Array.isArray(system)` are not modelled. The argument's type is a sequence of rows.
- Dafny constructors cannot fail, so the refusing constructor of `fractal.js` is `Ifs.Create`, which returns a `Result`. The anonymous constructor only initialises an already validated engine.
- Statistical convergence of selection frequencies and attractor properties are not provable from the code. `BucketIsInterval` and `UniformIndexIsInterval` state the interval each map owns instead.
