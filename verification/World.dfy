/** The 2D world of agents that the shards divide up (src/dssd/sharding/world.py),
    over the reals. */
module World {

  type AgentId = string

  /** An agent's state as a value: what snapshots, hand-offs and registries carry. */
  datatype Agent = Agent(id: AgentId, x: real, y: real, vx: real, vy: real)

  /** A shard's registry, keyed by agent id. */
  type Agents = map<AgentId, Agent>

  datatype Grid = Grid(width: real, height: real, cols: nat, rows: nat)

  /** Stands for the text "row-col". */
  datatype ShardId = ShardId(row: nat, col: nat)

  predicate ValidGrid(grid: Grid) {
    grid.width > 0.0 && grid.height > 0.0 && grid.cols > 0 && grid.rows > 0
  }

  // ---------- regions ----------

  function Clamp(cell: int, cells: nat): (r: nat)
    requires cells > 0
    ensures r < cells
  {
    if cell < 0 then 0 else if cell > cells - 1 then cells - 1 else cell
  }

  /** The number of the cell that `pos` falls into, when `size` is cut into `cells`. */
  function Cell(pos: real, size: real, cells: nat): nat
    requires size > 0.0 && cells > 0
  {
    Clamp((pos / (size / cells as real)).Floor, cells)
  }

  function ShardIdFor(x: real, y: real, grid: Grid): ShardId
    requires ValidGrid(grid)
  {
    ShardId(Cell(y, grid.height, grid.rows), Cell(x, grid.width, grid.cols))
  }

  function AllShardIds(grid: Grid): seq<ShardId> {
    seq(grid.rows * grid.cols, k requires 0 <= k < grid.rows * grid.cols =>
      assert grid.cols > 0; assert k / grid.cols >= 0; ShardId(k / grid.cols, k % grid.cols))
  }

  /** Every point, inside the world or not, belongs to a shard that exists. */
  lemma ShardExists(x: real, y: real, grid: Grid)
    requires ValidGrid(grid)
    ensures ShardIdFor(x, y, grid) in AllShardIds(grid)
  {
    var id := ShardIdFor(x, y, grid);
    var k := id.row * grid.cols + id.col;
    GridPlace(id.row, id.col, grid.rows, grid.cols);
    assert AllShardIds(grid)[k] == id;
  }

  lemma GridPlace(row: nat, col: nat, rows: nat, cols: nat)
    requires row < rows && col < cols
    ensures row * cols + col < rows * cols
    ensures (row * cols + col) / cols == row && (row * cols + col) % cols == col
  {
    var k := row * cols + col;
    MulMono(row + 1, rows, cols);
    var q, r := k / cols, k % cols;
    assert k == q * cols + r && 0 <= r < cols;
    if q < row {
      MulMono(q + 1, row, cols);
    } else if q > row {
      MulMono(row + 1, q, cols);
    }
  }

  lemma MulMono(a: nat, b: nat, c: nat)
    requires a <= b
    ensures a * c <= b * c
  {}

  /** Shard ids are listed once each. */
  lemma ShardIdsDistinct(grid: Grid, j: nat, k: nat)
    requires j < |AllShardIds(grid)| && k < |AllShardIds(grid)|
    requires AllShardIds(grid)[j] == AllShardIds(grid)[k]
    ensures j == k
  {
    Recompose(j, grid.cols);
    Recompose(k, grid.cols);
    SameProduct(grid.cols, j / grid.cols, k / grid.cols);
  }

  lemma Recompose(k: nat, c: nat)
    requires c > 0
    ensures k == c * (k / c) + k % c
  {}

  lemma SameProduct(c: nat, a: int, b: int)
    requires a == b
    ensures c * a == c * b
  {}

  /** Inside the world the cell that is named contains the point; on the far
      edge it is the last cell, whose edge the point is on. */
  lemma CellContains(pos: real, size: real, cells: nat)
    requires size > 0.0 && cells > 0 && 0.0 <= pos <= size
    ensures var w, c := size / cells as real, Cell(pos, size, cells);
            && c as real * w <= pos
            && (pos < size ==> pos < (c + 1) as real * w)
            && (pos == size ==> c == cells - 1)
  {
    var w := size / cells as real;
    var q, f := pos / w, (pos / w).Floor;
    assert cells as real * w == size;
    assert q >= 0.0 && f as real <= q < f as real + 1.0;
    Scale(f as real, pos, w);
    Scale((f + 1) as real, pos, w);
    Scale(cells as real, pos, w);
  }

  lemma Scale(bound: real, pos: real, w: real)
    requires w > 0.0
    ensures bound <= pos / w <==> bound * w <= pos
    ensures pos / w == bound <==> pos == bound * w
  {
    MulDivide(pos, w);
    Difference(pos / w, bound, w);
  }

  lemma MulDivide(pos: real, w: real)
    requires w > 0.0
    ensures (pos / w) * w == pos
  {}

  /** Multiplying by a positive number keeps the order. */
  lemma Difference(a: real, b: real, w: real)
    requires w > 0.0
    ensures a * w - b * w == (a - b) * w
    ensures a < b <==> a * w < b * w
    ensures a == b <==> a * w == b * w
  {
    SignOfProduct(a - b, w);
  }

  lemma SignOfProduct(d: real, w: real)
    requires w > 0.0
    ensures d > 0.0 <==> d * w > 0.0
    ensures d < 0.0 <==> d * w < 0.0
  {}

  // ---------- motion ----------

  function Bounce(pos: real, vel: real, limit: real): (real, real) {
    if pos < 0.0 then (-pos, -vel)
    else if pos > limit then (2.0 * limit - pos, -vel)
    else (pos, vel)
  }

  /** One axis of one tick. */
  function MoveAxis(pos: real, vel: real, dt: real, limit: real): (real, real) {
    Bounce(pos + vel * dt, vel, limit)
  }

  function StepAgent(a: Agent, dt: real, grid: Grid): Agent {
    var (x, vx) := MoveAxis(a.x, a.vx, dt, grid.width);
    var (y, vy) := MoveAxis(a.y, a.vy, dt, grid.height);
    Agent(a.id, x, y, vx, vy)
  }

  function ShardOf(a: Agent, grid: Grid): ShardId
    requires ValidGrid(grid)
  {
    ShardIdFor(a.x, a.y, grid)
  }

  /** One bounce brings a position back inside exactly if it overshot by no more than the size. */
  lemma BounceInside(pos: real, vel: real, limit: real)
    requires limit >= 0.0
    ensures 0.0 <= Bounce(pos, vel, limit).0 <= limit <==> -limit <= pos <= 2.0 * limit
  {}

  /** Position and velocity after `n` ticks. */
  function MoveMany(pos: real, vel: real, dt: real, limit: real, n: nat): (real, real) {
    if n == 0 then (pos, vel)
    else var (p, v) := MoveMany(pos, vel, dt, limit, n - 1); MoveAxis(p, v, dt, limit)
  }

  /** The triangle wave of height `limit` and period twice that. */
  function Triangle(u: real, limit: real): real
    requires limit > 0.0
  {
    var r := u - 2.0 * limit * (u / (2.0 * limit)).Floor as real;
    if r <= limit then r else 2.0 * limit - r
  }

  /** Where the agent would be on a line without walls, told from where it is:
      after `k` full periods going the original way or the other. */
  predicate Unfolds(p: real, v: real, vel: real, u: real, limit: real, k: int) {
    (v == vel && u == p + 2.0 * limit * k as real) || (v == -vel && u == 2.0 * limit * k as real - p)
  }

  lemma {:induction false} MoveUnfolds(pos: real, vel: real, dt: real, limit: real, n: nat) returns (k: int)
    requires limit > 0.0 && 0.0 <= pos <= limit && -limit <= vel * dt <= limit
    ensures var (p, v) := MoveMany(pos, vel, dt, limit, n);
            0.0 <= p <= limit && Unfolds(p, v, vel, Unwalled(pos, vel, dt, n), limit, k)
  {
    if n == 0 {
      k := 0;
    } else {
      var k0 := MoveUnfolds(pos, vel, dt, limit, n - 1);
      var (p, v) := MoveMany(pos, vel, dt, limit, n - 1);
      k := UnfoldStep(p, v, vel, dt, Unwalled(pos, vel, dt, n - 1), limit, k0);
      OneMore(pos, vel, dt, n);
    }
  }

  /** The position after `n` ticks on a line without walls. */
  function Unwalled(pos: real, vel: real, dt: real, n: nat): real {
    pos + n as real * (vel * dt)
  }

  lemma OneMore(pos: real, vel: real, dt: real, n: nat)
    requires n > 0
    ensures Unwalled(pos, vel, dt, n) == Unwalled(pos, vel, dt, n - 1) + vel * dt
  {
    assert n as real == (n - 1) as real + 1.0;
    assert ((n - 1) as real + 1.0) * (vel * dt) == (n - 1) as real * (vel * dt) + vel * dt;
  }

  lemma UnfoldStep(p: real, v: real, vel: real, dt: real, u: real, limit: real, k: int) returns (k': int)
    requires limit > 0.0 && 0.0 <= p <= limit && -limit <= vel * dt <= limit
    requires Unfolds(p, v, vel, u, limit, k)
    ensures var (p', v') := MoveAxis(p, v, dt, limit);
            0.0 <= p' <= limit && Unfolds(p', v', vel, u + vel * dt, limit, k')
  {
    var d := vel * dt;
    if v == vel && u == p + 2.0 * limit * k as real {
      k' := if p + d > limit then k + 1 else k;
      assert 2.0 * limit * (k + 1) as real == 2.0 * limit * k as real + 2.0 * limit;
    } else {
      assert v * dt == -d;
      k' := if p - d > limit then k - 1 else k;
      assert 2.0 * limit * (k - 1) as real == 2.0 * limit * k as real - 2.0 * limit;
    }
  }

  lemma UnfoldedIsTriangle(p: real, v: real, vel: real, u: real, limit: real, k: int)
    requires limit > 0.0 && 0.0 <= p <= limit && Unfolds(p, v, vel, u, limit, k)
    ensures Triangle(u, limit) == p
  {
    var period := 2.0 * limit;
    if v == vel && u == p + period * k as real {
      PeriodsIn(u, period, k, p);
    } else if p == 0.0 {
      PeriodsIn(u, period, k, 0.0);
    } else {
      assert period * k as real == period * (k - 1) as real + period;
      PeriodsIn(u, period, k - 1, period - p);
    }
  }

  lemma PeriodsIn(u: real, period: real, k: int, r: real)
    requires period > 0.0 && 0.0 <= r < period && u == r + period * k as real
    ensures (u / period).Floor == k
  {
    assert u / period == r / period + k as real by {
      assert (r / period + k as real) * period == r + k as real * period;
    }
    DivisionBelowOne(r, period);
  }

  lemma DivisionBelowOne(r: real, period: real)
    requires 0.0 <= r < period
    ensures 0.0 <= r / period < 1.0
  {
    var q := r / period;
    assert q * period == r;
    Difference(q, 1.0, period);
  }

  /** Bouncing in closed form: with no step longer than the world, `n` ticks keep
      the agent inside, keep its speed, and put it where a triangle wave is. */
  lemma MotionClosedForm(pos: real, vel: real, dt: real, limit: real, n: nat)
    requires limit > 0.0 && 0.0 <= pos <= limit && -limit <= vel * dt <= limit
    ensures var (p, v) := MoveMany(pos, vel, dt, limit, n);
            && 0.0 <= p <= limit
            && (v == vel || v == -vel)
            && p == Triangle(Unwalled(pos, vel, dt, n), limit)
  {
    var k := MoveUnfolds(pos, vel, dt, limit, n);
    var (p, v) := MoveMany(pos, vel, dt, limit, n);
    UnfoldedIsTriangle(p, v, vel, Unwalled(pos, vel, dt, n), limit, k);
  }

  /** An agent object, whose `Step` assigns its fields in place. */
  class AgentState {
    const id: AgentId
    var x: real
    var y: real
    var vx: real
    var vy: real

    constructor (a: Agent)
      ensures Value() == a
    {
      id, x, y, vx, vy := a.id, a.x, a.y, a.vx, a.vy;
    }

    function Value(): Agent
      reads this
    {
      Agent(id, x, y, vx, vy)
    }

    method Step(dt: real, grid: Grid)
      modifies this
      ensures Value() == StepAgent(old(Value()), dt, grid)
    {
      var onX := Bounce(x + vx * dt, vx, grid.width);
      x, vx := onX.0, onX.1;
      var onY := Bounce(y + vy * dt, vy, grid.height);
      y, vy := onY.0, onY.1;
    }
  }
}
