/**
 The formation of monsters: placed in centred rows, it sweeps right, steps down at the wall,
 sweeps left, and so on. Coordinates are reals.
 */
module MonsterFormation {

  datatype Direction = Left | Right | Down
  datatype Monster = Monster(x: real, y: real, alive: bool)

  /** The edges of the formation and the direction of its next move. */
  datatype Sweep = Sweep(leftEdge: real, rightEdge: real, dir: Direction)

  // ---------------------------------------------------------------- the sweep between the walls

  function Advance(s: Sweep, velocity: real, window: real): Sweep {
    match s.dir
    case Right =>
      Sweep(s.leftEdge + velocity, s.rightEdge + velocity, if s.rightEdge + velocity >= window then Down else Right)
    case Left =>
      Sweep(s.leftEdge - velocity, s.rightEdge - velocity, if s.leftEdge - velocity <= 0.0 then Down else Left)
    case Down =>
      s.(dir := if s.leftEdge <= 0.0 then Right else if s.rightEdge >= window then Left else Down)
  }

  function AdvanceAll(s: Sweep, velocities: seq<real>, window: real): Sweep {
    if velocities == [] then s
    else Advance(AdvanceAll(s, velocities[..|velocities| - 1], window), velocities[|velocities| - 1], window)
  }

  predicate Velocities(velocities: seq<real>, limit: real) {
    forall i :: 0 <= i < |velocities| ==> 0.0 < velocities[i] <= limit
  }

  /** The formation fits the window, overshoots a wall by less than one move, and stops only at a wall. */
  predicate InWindow(s: Sweep, window: real, limit: real) {
    && s.rightEdge - s.leftEdge < window && s.leftEdge <= s.rightEdge
    && -limit < s.leftEdge && s.rightEdge < window + limit
    && match s.dir
       case Right => s.rightEdge < window
       case Left => s.leftEdge > 0.0
       case Down => (s.leftEdge <= 0.0) != (s.rightEdge >= window)
  }

  predicate StartsInside(s: Sweep, window: real) {
    0.0 < s.leftEdge <= s.rightEdge < window && s.dir == Right
  }

  lemma {:induction false} SweepStaysInWindow(s: Sweep, velocities: seq<real>, window: real, limit: real)
    requires StartsInside(s, window) && Velocities(velocities, limit) && 0.0 < limit
    ensures InWindow(AdvanceAll(s, velocities, window), window, limit)
    ensures var r := AdvanceAll(s, velocities, window); r.rightEdge - r.leftEdge == s.rightEdge - s.leftEdge
    decreases |velocities|
  {
    if velocities != [] {
      SweepStaysInWindow(s, velocities[..|velocities| - 1], window, limit);
    }
  }

  /** A move down is followed by a sweep away from the wall, opposite to the one before it. */
  lemma DirectionReverses(s: Sweep, velocities: seq<real>, v: real, v': real, window: real, limit: real)
    requires StartsInside(s, window) && Velocities(velocities, limit) && 0.0 < v <= limit && 0.0 < v' <= limit
    ensures var r := AdvanceAll(s, velocities, window);
            var t := Advance(r, v, window);
            r.dir != Down && t.dir == Down ==>
              Advance(t, v', window) == t.(dir := if r.dir == Right then Left else Right)
  {
    SweepStaysInWindow(s, velocities, window, limit);
  }

  function Total(velocities: seq<real>): real {
    if velocities == [] then 0.0 else Total(velocities[..|velocities| - 1]) + velocities[|velocities| - 1]
  }

  predicate NeverTurns(s: Sweep, velocities: seq<real>, window: real) {
    forall k :: 0 <= k <= |velocities| ==> AdvanceAll(s, velocities[..k], window).dir == s.dir
  }

  lemma {:induction false} SweepDistance(s: Sweep, velocities: seq<real>, window: real)
    requires NeverTurns(s, velocities, window) && s.dir != Down
    ensures var r := AdvanceAll(s, velocities, window);
            && r == Sweep(if s.dir == Right then s.leftEdge + Total(velocities) else s.leftEdge - Total(velocities),
                          if s.dir == Right then s.rightEdge + Total(velocities) else s.rightEdge - Total(velocities), s.dir)
    decreases |velocities|
  {
    if velocities != [] {
      var shorter := velocities[..|velocities| - 1];
      assert forall k :: 0 <= k <= |shorter| ==> velocities[..k] == shorter[..k];
      SweepDistance(s, shorter, window);
      assert velocities[..|velocities|] == velocities;
    }
  }

  /** So a sweep turns before the moves add up to the distance to the wall. */
  lemma SweepEnds(s: Sweep, velocities: seq<real>, window: real, limit: real)
    requires InWindow(s, window, limit) && s.dir != Down
    requires Total(velocities) >= if s.dir == Right then window - s.rightEdge else s.leftEdge
    ensures !NeverTurns(s, velocities, window)
  {
    assert velocities[..|velocities|] == velocities;
    if NeverTurns(s, velocities, window) {
      SweepDistance(s, velocities, window);
    }
  }

  // ---------------------------------------------------------------- placing the rows

  /** The width of a row of `n` monsters with gaps as wide as a monster between them. */
  function RowLength(width: real, n: nat): real {
    n as real * width + width * (n as real - 1.0)
  }

  function Longest(rows: seq<seq<Monster>>): nat {
    if rows == [] then 0
    else
      var rest := Longest(rows[..|rows| - 1]);
      if |rows[|rows| - 1]| > rest then |rows[|rows| - 1]| else rest
  }

  lemma {:induction false} LongestIsThere(rows: seq<seq<Monster>>)
    ensures if rows == [] then Longest(rows) == 0 else exists r :: 0 <= r < |rows| && |rows[r]| == Longest(rows)
    decreases |rows|
  {
    if rows != [] {
      var front := rows[..|rows| - 1];
      LongestIsThere(front);
      if front != [] {
        var r :| 0 <= r < |front| && |front[r]| == Longest(front);
        assert rows[r] == front[r];
      }
      assert |rows[|rows| - 1]| == |rows[|rows| - 1]|;
    }
  }

  lemma {:induction false} LongestIsLongest(rows: seq<seq<Monster>>, r: nat)
    requires r < |rows|
    ensures |rows[r]| <= Longest(rows)
    decreases |rows|
  {
    if r < |rows| - 1 {
      LongestIsLongest(rows[..|rows| - 1], r);
    }
  }

  lemma ScaleIsMonotone(a: real, b: real, width: real)
    requires a <= b && 0.0 < width
    ensures a * width <= b * width
  {
    assert (b - a) * width >= 0.0;
  }

  lemma RowLengthIsMonotone(width: real, m: nat, n: nat)
    requires m <= n && 0.0 < width
    ensures RowLength(width, m) <= RowLength(width, n)
  {
    ScaleIsMonotone(m as real, n as real, width);
    assert width * (m as real - 1.0) == m as real * width - width;
    assert width * (n as real - 1.0) == n as real * width - width;
  }

  /** Where monster `i` of a row of `n` centred at `x` goes. */
  function PlaceX(width: real, x: real, n: nat, i: nat): real {
    x + (width + width) * i as real - RowLength(width, n) / 2.0
  }

  /** A row is symmetric about its centre: its last monster ends as far right as its first begins left. */
  lemma PlaceStaysInRow(width: real, x: real, n: nat, i: nat)
    requires i < n && 0.0 < width
    ensures x - RowLength(width, n) / 2.0 <= PlaceX(width, x, n, i)
    ensures PlaceX(width, x, n, i) + width <= x + RowLength(width, n) / 2.0
    ensures i == n - 1 ==> PlaceX(width, x, n, i) + width == x + RowLength(width, n) / 2.0
  {
    ScaleIsMonotone(0.0, i as real, width);
    ScaleIsMonotone(i as real, n as real - 1.0, width);
    assert (width + width) * i as real == i as real * width + i as real * width;
    assert width * (n as real - 1.0) == (n as real - 1.0) * width;
    assert n as real * width == (n as real - 1.0) * width + width;
  }

  predicate Inside(m: Monster, leftEdge: real, rightEdge: real, width: real) {
    leftEdge <= m.x && m.x + width <= rightEdge
  }

  predicate AllInside(rows: seq<seq<Monster>>, leftEdge: real, rightEdge: real, width: real) {
    forall r, i :: 0 <= r < |rows| && 0 <= i < |rows[r]| ==> Inside(rows[r][i], leftEdge, rightEdge, width)
  }

  /** The same monsters, each moved by the same amount. */
  predicate Shifted(before: seq<seq<Monster>>, after: seq<seq<Monster>>, dx: real, dy: real) {
    && |after| == |before|
    && forall r :: 0 <= r < |before| ==> RowShifted(before[r], after[r], dx, dy)
  }

  predicate RowShifted(before: seq<Monster>, after: seq<Monster>, dx: real, dy: real) {
    && |after| == |before|
    && forall i :: 0 <= i < |before| ==> after[i] == before[i].(x := before[i].x + dx, y := before[i].y + dy)
  }

  lemma ShiftKeepsInside(before: seq<seq<Monster>>, after: seq<seq<Monster>>, dx: real, dy: real, leftEdge: real, rightEdge: real, width: real)
    requires AllInside(before, leftEdge, rightEdge, width) && Shifted(before, after, dx, dy)
    ensures AllInside(after, leftEdge + dx, rightEdge + dx, width)
  {
    forall r, i | 0 <= r < |after| && 0 <= i < |after[r]|
      ensures Inside(after[r][i], leftEdge + dx, rightEdge + dx, width)
    {
      assert RowShifted(before[r], after[r], dx, dy);
      assert Inside(before[r][i], leftEdge, rightEdge, width);
    }
  }

  // ---------------------------------------------------------------- whole runs

  /** The monsters and the edges around them. */
  datatype Formation = Formation(rows: seq<seq<Monster>>, sweep: Sweep)

  /** How far one move takes every monster down. */
  function StepDown(s: Sweep, velocity: real): real {
    if s.dir == Down then velocity * 4.0 else 0.0
  }

  /** `g` is `f` after one move: every monster goes with the edges. */
  predicate Moves(f: Formation, velocity: real, window: real, g: Formation) {
    && g.sweep == Advance(f.sweep, velocity, window)
    && Shifted(f.rows, g.rows, g.sweep.leftEdge - f.sweep.leftEdge, StepDown(f.sweep, velocity))
  }

  predicate IsRun(fs: seq<Formation>, velocities: seq<real>, window: real) {
    && |fs| == |velocities| + 1
    && forall k :: 0 <= k < |velocities| ==> Moves(fs[k], velocities[k], window, fs[k + 1])
  }

  /** How far a run has come down. */
  function Descent(s: Sweep, velocities: seq<real>, window: real): real {
    if velocities == [] then 0.0
    else
      var front := velocities[..|velocities| - 1];
      Descent(s, front, window) + StepDown(AdvanceAll(s, front, window), velocities[|velocities| - 1])
  }

  lemma ShiftsAdd(a: seq<seq<Monster>>, b: seq<seq<Monster>>, c: seq<seq<Monster>>, dx: real, dy: real, ex: real, ey: real)
    requires Shifted(a, b, dx, dy) && Shifted(b, c, ex, ey)
    ensures Shifted(a, c, dx + ex, dy + ey)
  {
    forall r | 0 <= r < |a|
      ensures RowShifted(a[r], c[r], dx + ex, dy + ey)
    {
      assert RowShifted(a[r], b[r], dx, dy) && RowShifted(b[r], c[r], ex, ey);
    }
  }

  lemma NoShift(a: seq<seq<Monster>>)
    ensures Shifted(a, a, 0.0, 0.0)
  {
  }

  /** Along every run the formation is rigid: it is the first one, moved with its left edge and down. */
  lemma {:induction false} RunIsRigid(fs: seq<Formation>, velocities: seq<real>, window: real)
    requires IsRun(fs, velocities, window)
    ensures var last := fs[|velocities|];
            && last.sweep == AdvanceAll(fs[0].sweep, velocities, window)
            && Shifted(fs[0].rows, last.rows, last.sweep.leftEdge - fs[0].sweep.leftEdge, Descent(fs[0].sweep, velocities, window))
    decreases |velocities|
  {
    if velocities == [] {
      NoShift(fs[0].rows);
    } else {
      var n := |velocities| - 1;
      var front, vs := fs[..n + 1], velocities[..n];
      assert forall k :: 0 <= k < |front| ==> front[k] == fs[k];
      RunIsRigid(front, vs, window);
      assert Moves(fs[n], velocities[n], window, fs[n + 1]);
      ShiftsAdd(fs[0].rows, fs[n].rows, fs[n + 1].rows,
                fs[n].sweep.leftEdge - fs[0].sweep.leftEdge, Descent(fs[0].sweep, vs, window),
                fs[n + 1].sweep.leftEdge - fs[n].sweep.leftEdge, StepDown(fs[n].sweep, velocities[n]));
    }
  }

  /** So in every run all monsters stay between the edges, and leave the window by less than one move. */
  lemma MonstersStayInWindow(fs: seq<Formation>, velocities: seq<real>, window: real, limit: real, width: real)
    requires IsRun(fs, velocities, window) && Velocities(velocities, limit) && 0.0 < limit
    requires StartsInside(fs[0].sweep, window) && AllInside(fs[0].rows, fs[0].sweep.leftEdge, fs[0].sweep.rightEdge, width)
    ensures var last := fs[|velocities|];
            && InWindow(last.sweep, window, limit)
            && AllInside(last.rows, last.sweep.leftEdge, last.sweep.rightEdge, width)
            && forall r, i :: 0 <= r < |last.rows| && 0 <= i < |last.rows[r]| ==>
                 -limit < last.rows[r][i].x && last.rows[r][i].x + width < window + limit
  {
    RunIsRigid(fs, velocities, window);
    var first, last := fs[0], fs[|velocities|];
    SweepStaysInWindow(first.sweep, velocities, window, limit);
    ShiftKeepsInside(first.rows, last.rows, last.sweep.leftEdge - first.sweep.leftEdge, Descent(first.sweep, velocities, window),
                     first.sweep.leftEdge, first.sweep.rightEdge, width);
    forall r, i | 0 <= r < |last.rows| && 0 <= i < |last.rows[r]|
      ensures -limit < last.rows[r][i].x && last.rows[r][i].x + width < window + limit
    {
      assert Inside(last.rows[r][i], last.sweep.leftEdge, last.sweep.rightEdge, width);
    }
  }

  /** One move as it is seen: sideways by the velocity, or down by four times as much, and never up. */
  predicate SeenToMove(before: Monster, after: Monster, dir: Direction, velocity: real) {
    && after.alive == before.alive
    && match dir
       case Right => after.x == before.x + velocity && after.y == before.y
       case Left => after.x == before.x - velocity && after.y == before.y
       case Down => after.x == before.x && after.y == before.y + 4.0 * velocity
  }

  lemma EveryMoveIsSeen(f: Formation, velocity: real, window: real, g: Formation, r: nat, i: nat)
    requires Moves(f, velocity, window, g) && r < |f.rows| && i < |f.rows[r]|
    ensures |g.rows| == |f.rows| && |g.rows[r]| == |f.rows[r]|
    ensures SeenToMove(f.rows[r][i], g.rows[r][i], f.sweep.dir, velocity)
  {
    assert RowShifted(f.rows[r], g.rows[r], g.sweep.leftEdge - f.sweep.leftEdge, StepDown(f.sweep, velocity));
  }

  /** The velocities of the moves made in state down, added up. */
  function DownTotal(s: Sweep, velocities: seq<real>, window: real): real {
    if velocities == [] then 0.0
    else
      var front := velocities[..|velocities| - 1];
      DownTotal(s, front, window) + if AdvanceAll(s, front, window).dir == Down then velocities[|velocities| - 1] else 0.0
  }

  /** A run comes down by four times the velocities of its turns, however long the sweeps between them. */
  lemma {:induction false} DescentIsFourfold(s: Sweep, velocities: seq<real>, window: real)
    ensures Descent(s, velocities, window) == 4.0 * DownTotal(s, velocities, window)
    decreases |velocities|
  {
    if velocities != [] {
      DescentIsFourfold(s, velocities[..|velocities| - 1], window);
    }
  }

  // ---------------------------------------------------------------- the cluster object

  class MonsterCluster {
    const width: real
    const height: real
    var rows: seq<seq<Monster>>
    var x: real
    var y: real
    var leftEdge: real
    var rightEdge: real
    var nextDir: Direction
    var totalCount: nat
    var cooldown: nat

    ghost function State(): Sweep
      reads this
    {
      Sweep(leftEdge, rightEdge, nextDir)
    }

    /** The edges enclose every monster. */
    ghost predicate Valid()
      reads this
    {
      0.0 < width && 0.0 < height && cooldown <= 50 && AllInside(rows, leftEdge, rightEdge, width)
    }

    constructor (width: real, height: real)
      requires 0.0 < width && 0.0 < height
      ensures Valid() && rows == [] && State() == Sweep(0.0, 0.0, Right)
    {
      this.width, this.height := width, height;
      rows, x, y, leftEdge, rightEdge := [], 0.0, 0.0, 0.0, 0.0;
      nextDir, totalCount, cooldown := Right, 0, 0;
    }

    method AddRow(numberOfMonsters: nat)
      requires Valid()
      modifies this
      ensures Valid() && nextDir == old(nextDir)
      ensures |rows| == |old(rows)| + 1 && |rows[|rows| - 1]| == numberOfMonsters
      ensures forall r :: 0 <= r < |old(rows)| ==> |rows[r]| == |old(rows)[r]|
      ensures totalCount == old(totalCount) + numberOfMonsters
    {
      var row := [];
      for i := 0 to numberOfMonsters
        invariant |row| == i && rows == old(rows) && totalCount == old(totalCount) + i
        invariant 0.0 < width && 0.0 < height && cooldown <= 50 && nextDir == old(nextDir)
      {
        totalCount := totalCount + 1;
        row := row + [Monster(0.0, 0.0, true)];
      }
      rows := rows + [row];
      SetPosition(x, y);
    }

    /** Rows are centred at `xPos`; the edges are those of the longest one. */
    method SetPosition(xPos: real, yPos: real)
      requires 0.0 < width && 0.0 < height && cooldown <= 50
      modifies this
      ensures Valid() && nextDir == old(nextDir) && totalCount == old(totalCount) && cooldown == old(cooldown)
      ensures |rows| == |old(rows)| && forall r :: 0 <= r < |rows| ==> |rows[r]| == |old(rows)[r]|
      ensures Longest(old(rows)) > 0 ==>
                && leftEdge == xPos - RowLength(width, Longest(old(rows))) / 2.0
                && rightEdge == xPos + RowLength(width, Longest(old(rows))) / 2.0
      ensures forall r, i :: 0 <= r < |rows| && 0 <= i < |rows[r]| ==>
                rows[r][i] == Monster(PlaceX(width, xPos, |rows[r]|, i), yPos + (height + height) * r as real, old(rows)[r][i].alive)
    {
      x, y := xPos, yPos;
      var longest := 0;
      for r := 0 to |rows|
        invariant |rows| == |old(rows)| && rows[r..] == old(rows)[r..]
        invariant nextDir == old(nextDir) && totalCount == old(totalCount) && cooldown == old(cooldown)
        invariant longest == Longest(old(rows)[..r])
        invariant longest > 0 ==>
                    && leftEdge == xPos - RowLength(width, longest) / 2.0
                    && rightEdge == xPos + RowLength(width, longest) / 2.0
        invariant forall q :: 0 <= q < r ==> |rows[q]| == |old(rows)[q]| && Placed(old(rows)[q], rows[q], q, xPos, yPos)
      {
        var n := |rows[r]|;
        assert old(rows)[..r + 1][..r] == old(rows)[..r];
        assert rows[r] == rows[r..][0] == old(rows)[r..][0] == old(rows)[r];
        if n > longest {
          longest := n;
          leftEdge := xPos - RowLength(width, n) / 2.0;
          rightEdge := xPos + RowLength(width, n) / 2.0;
        }
        var row := PlaceRow(rows[r], r, xPos, yPos);
        assert rows[r := row][r + 1..] == rows[r..][1..];
        rows := rows[r := row];
      }
      assert old(rows)[..|rows|] == old(rows);
      PlacedInside(old(rows), rows, xPos, yPos);
    }

    predicate Placed(before: seq<Monster>, row: seq<Monster>, r: nat, xPos: real, yPos: real) {
      && |row| == |before|
      && forall i :: 0 <= i < |row| ==>
           row[i] == Monster(PlaceX(width, xPos, |row|, i), yPos + (height + height) * r as real, before[i].alive)
    }

    method PlaceRow(before: seq<Monster>, r: nat, xPos: real, yPos: real) returns (row: seq<Monster>)
      ensures Placed(before, row, r, xPos, yPos)
    {
      row := before;
      for i := 0 to |row|
        invariant |row| == |before|
        invariant forall k :: 0 <= k < i ==>
                    row[k] == Monster(PlaceX(width, xPos, |row|, k), yPos + (height + height) * r as real, before[k].alive)
        invariant forall k :: i <= k < |row| ==> row[k] == before[k]
      {
        row := row[i := row[i].(x := PlaceX(width, xPos, |row|, i), y := yPos + (height + height) * r as real)];
      }
    }

    lemma PlacedInside(before: seq<seq<Monster>>, after: seq<seq<Monster>>, xPos: real, yPos: real)
      requires 0.0 < width && |before| == |after|
      requires forall q :: 0 <= q < |after| ==> Placed(before[q], after[q], q, xPos, yPos)
      ensures AllInside(after, xPos - RowLength(width, Longest(before)) / 2.0, xPos + RowLength(width, Longest(before)) / 2.0, width)
      ensures Longest(before) == 0 ==> forall l, r :: AllInside(after, l, r, width)
    {
      forall r, i | 0 <= r < |after| && 0 <= i < |after[r]|
        ensures Longest(before) > 0
        ensures Inside(after[r][i], xPos - RowLength(width, Longest(before)) / 2.0, xPos + RowLength(width, Longest(before)) / 2.0, width)
      {
        assert Placed(before[r], after[r], r, xPos, yPos);
        LongestIsLongest(before, r);
        RowLengthIsMonotone(width, |after[r]|, Longest(before));
        PlaceStaysInRow(width, xPos, |after[r]|, i);
      }
    }

    /** Every monster makes the move that the edges make; `shoots` says whether a bullet is fired. */
    method Move(velocity: real, windowWidth: nat) returns (shoots: bool)
      requires Valid()
      modifies this
      ensures Valid()
      ensures Moves(Formation(old(rows), old(State())), velocity, windowWidth as real, Formation(rows, State()))
      ensures shoots == (old(cooldown) == 50) && cooldown == if shoots then 0 else old(cooldown) + 1
      ensures totalCount == old(totalCount) && x == old(x) && y == old(y)
    {
      var dx := if nextDir == Right then velocity else if nextDir == Left then -velocity else 0.0;
      var dy := if nextDir == Down then velocity * 4.0 else 0.0;
      var moved := MoveMonsters(rows, dx, dy);
      ShiftKeepsInside(rows, moved, dx, dy, leftEdge, rightEdge, width);
      rows := moved;
      shoots := cooldown == 50;
      cooldown := if shoots then 0 else cooldown + 1;
      MoveEdges(velocity, windowWidth);
    }

    method MoveEdges(velocity: real, windowWidth: nat)
      modifies this`leftEdge, this`rightEdge, this`nextDir
      ensures State() == Advance(old(State()), velocity, windowWidth as real)
    {
      if nextDir == Right {
        leftEdge := leftEdge + velocity;
        rightEdge := rightEdge + velocity;
        if rightEdge >= windowWidth as real {
          nextDir := Down;
        }
        return;
      }
      if nextDir == Left {
        leftEdge := leftEdge - velocity;
        rightEdge := rightEdge - velocity;
        if leftEdge <= 0.0 {
          nextDir := Down;
        }
        return;
      }
      if leftEdge <= 0.0 {
        nextDir := Right;
      } else if rightEdge >= windowWidth as real {
        nextDir := Left;
      }
    }

    method MoveMonsters(before: seq<seq<Monster>>, dx: real, dy: real) returns (after: seq<seq<Monster>>)
      ensures Shifted(before, after, dx, dy)
    {
      after := before;
      for r := 0 to |before|
        invariant |after| == |before|
        invariant forall q :: 0 <= q < r ==> RowShifted(before[q], after[q], dx, dy)
        invariant forall q :: r <= q < |before| ==> after[q] == before[q]
      {
        var row := after[r];
        for i := 0 to |row|
          invariant |row| == |before[r]|
          invariant forall k :: 0 <= k < i ==> row[k] == before[r][k].(x := before[r][k].x + dx, y := before[r][k].y + dy)
          invariant forall k :: i <= k < |row| ==> row[k] == before[r][k]
        {
          row := row[i := row[i].(x := row[i].x + dx, y := row[i].y + dy)];
        }
        after := after[r := row];
      }
    }
  }
}
