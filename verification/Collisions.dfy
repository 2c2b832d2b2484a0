/**
 What bullets hit: each call removes at most one monster and the bullet that hit it, or else at
 most one of the player's lives. Which boxes overlap is a parameter of every call.
 */
module Collisions {

  /** The overlaps at the moment of one call: player bullet against monster, monster bullet against player. */
  datatype Overlaps = Overlaps(hit: (nat, nat, nat) -> bool, hitPlayer: nat -> bool)

  /**
   True marks an entity that is alive. The last two fields are histories: the number of calls so
   far, and the calls that took a life.
   */
  datatype World = World(
    bullets: seq<bool>,
    monsters: seq<seq<bool>>,
    monsterBullets: seq<bool>,
    playerAlive: bool,
    playerAt: (real, real),
    spawnAt: (real, real),
    lives: int,
    deathCooldown: int,
    score: int,
    enemiesKilled: int,
    destroyedCount: int,
    calls: nat,
    losses: seq<nat>)

  const POINTS := 100
  const COOLDOWN := 50

  // ---------------------------------------------------------------- one call

  predicate HitsAt(w: World, o: Overlaps, b: nat, r: nat, c: nat) {
    && b < |w.bullets| && r < |w.monsters| && c < |w.monsters[r]|
    && w.bullets[b] && w.monsters[r][c] && o.hit(b, r, c)
  }

  predicate Earlier(b: nat, r: nat, c: nat, b': nat, r': nat, c': nat) {
    b < b' || (b == b' && (r < r' || (r == r' && c < c')))
  }

  ghost predicate NoHitBefore(w: World, o: Overlaps, b: nat, r: nat, c: nat) {
    forall b': nat, r': nat, c': nat :: Earlier(b', r', c', b, r, c) ==> !HitsAt(w, o, b', r', c')
  }

  function Killed(w: World, b: nat, r: nat, c: nat): World
    requires b < |w.bullets| && r < |w.monsters| && c < |w.monsters[r]|
  {
    w.(bullets := w.bullets[b := false],
       monsters := w.monsters[r := w.monsters[r][c := false]],
       score := w.score + POINTS,
       enemiesKilled := w.enemiesKilled + 1,
       destroyedCount := w.destroyedCount + 1,
       calls := w.calls + 1)
  }

  /** Bullet `i` hits the player, who starts again where the game began. Without lives there is nothing to lose, but the pause begins all the same. */
  function PlayerHit(w: World, i: nat): World
    requires i < |w.monsterBullets|
  {
    var hidden := w.(monsterBullets := w.monsterBullets[i := false], deathCooldown := w.deathCooldown + 1, calls := w.calls + 1);
    if w.lives > 0 then hidden.(lives := w.lives - 1, playerAlive := false, playerAt := w.spawnAt, losses := w.losses + [w.calls]) else hidden
  }

  /** The pause after a hit. */
  function Recovering(w: World): World {
    if w.deathCooldown < COOLDOWN then w.(deathCooldown := w.deathCooldown + 1, calls := w.calls + 1)
    else w.(deathCooldown := 0, playerAlive := true, calls := w.calls + 1)
  }

  /** `t` is what one call makes of `w`. */
  ghost predicate Checked(w: World, o: Overlaps, t: World) {
    || (exists b: nat, r: nat, c: nat :: HitsAt(w, o, b, r, c) && NoHitBefore(w, o, b, r, c) && t == Killed(w, b, r, c))
    || (&& (forall b: nat, r: nat, c: nat :: !HitsAt(w, o, b, r, c))
        && if w.playerAlive && w.deathCooldown == 0 then
             || (exists i: nat :: i < |w.monsterBullets| && o.hitPlayer(i) && (forall j: nat :: j < i ==> !o.hitPlayer(j)) && t == PlayerHit(w, i))
             || ((forall i: nat :: i < |w.monsterBullets| ==> !o.hitPlayer(i)) && t == w.(calls := w.calls + 1))
           else t == Recovering(w))
  }

  // ---------------------------------------------------------------- conservation

  function NumDead(xs: seq<bool>): nat {
    if xs == [] then 0 else NumDead(xs[..|xs| - 1]) + if xs[|xs| - 1] then 0 else 1
  }

  function NumDeadIn(rows: seq<seq<bool>>): nat {
    if rows == [] then 0 else NumDeadIn(rows[..|rows| - 1]) + NumDead(rows[|rows| - 1])
  }

  lemma {:induction false} OneMoreDead(xs: seq<bool>, i: nat)
    requires i < |xs| && xs[i]
    ensures NumDead(xs[i := false]) == NumDead(xs) + 1
    decreases |xs|
  {
    var n := |xs| - 1;
    if i < n {
      OneMoreDead(xs[..n], i);
      assert xs[i := false][..n] == xs[..n][i := false];
    } else {
      assert xs[i := false][..n] == xs[..n];
    }
  }

  lemma {:induction false} OneMoreDeadIn(rows: seq<seq<bool>>, r: nat, c: nat)
    requires r < |rows| && c < |rows[r]| && rows[r][c]
    ensures NumDeadIn(rows[r := rows[r][c := false]]) == NumDeadIn(rows) + 1
    decreases |rows|
  {
    var n := |rows| - 1;
    var after := rows[r := rows[r][c := false]];
    if r < n {
      OneMoreDeadIn(rows[..n], r, c);
      assert after[..n] == rows[..n][r := rows[r][c := false]];
    } else {
      assert after[..n] == rows[..n];
      OneMoreDead(rows[r], c);
    }
  }

  lemma {:induction false} NewBulletsAreAlive(xs: seq<bool>, n: nat)
    ensures NumDead(xs + seq(n, _ => true)) == NumDead(xs)
    decreases n
  {
    var ys := xs + seq(n, _ => true);
    if n == 0 {
      assert ys == xs;
    } else {
      NewBulletsAreAlive(xs, n - 1);
      assert ys[..|ys| - 1] == xs + seq(n - 1, _ => true);
    }
  }

  /** Points, kills, dead monsters and spent bullets are four names for one number. */
  predicate Conserved(w: World) {
    && w.score == POINTS * w.enemiesKilled
    && w.enemiesKilled == w.destroyedCount == NumDeadIn(w.monsters) == NumDead(w.bullets)
  }

  // ---------------------------------------------------------------- lives

  predicate Spaced(losses: seq<nat>) {
    forall i, j :: 0 <= i < j < |losses| ==> losses[i] + COOLDOWN + 1 <= losses[j]
  }

  /** No life is lost during the pause, and the pause is as long as its counter says. */
  predicate LivesHold(w: World) {
    && 0 <= w.lives && w.lives + |w.losses| == 3
    && 0 <= w.deathCooldown <= COOLDOWN
    && Spaced(w.losses)
    && (w.losses != [] ==>
          var since := w.calls - w.losses[|w.losses| - 1];
          if w.deathCooldown == 0 then since > COOLDOWN else since >= w.deathCooldown)
  }

  // ---------------------------------------------------------------- runs

  /** Between two calls both sides may fire and the player may move. */
  datatype Step =
    | Fire(playerShots: nat, monsterShots: nat)
    | Walk(to: (real, real))
    | Call(overlaps: Overlaps)

  ghost predicate Steps(w: World, step: Step, t: World) {
    match step
    case Fire(p, m) =>
      t == w.(bullets := w.bullets + seq(p, _ => true), monsterBullets := w.monsterBullets + seq(m, _ => true))
    case Walk(to) => t == w.(playerAt := to)
    case Call(o) => Checked(w, o, t)
  }

  ghost predicate IsRun(ws: seq<World>, steps: seq<Step>) {
    && |ws| == |steps| + 1
    && forall i :: 0 <= i < |steps| ==> Steps(ws[i], steps[i], ws[i + 1])
  }

  /** The state of the player is not set at the beginning; everything else is. */
  predicate Starts(w: World) {
    && w.bullets == [] && w.monsterBullets == [] && NumDeadIn(w.monsters) == 0
    && w.lives == 3 && w.deathCooldown == 0 && w.score == 0 && w.enemiesKilled == 0 && w.destroyedCount == 0
    && w.calls == 0 && w.losses == []
  }

  lemma StepConserves(w: World, step: Step, t: World)
    requires Conserved(w) && Steps(w, step, t)
    ensures Conserved(t)
  {
    match step
    case Fire(p, m) => NewBulletsAreAlive(w.bullets, p);
    case Walk(_) =>
    case Call(o) =>
      if b: nat, r: nat, c: nat :| HitsAt(w, o, b, r, c) && NoHitBefore(w, o, b, r, c) && t == Killed(w, b, r, c) {
        OneMoreDead(w.bullets, b);
        OneMoreDeadIn(w.monsters, r, c);
      }
  }

  lemma LossIsSpaced(w: World)
    requires LivesHold(w) && w.deathCooldown == 0
    ensures Spaced(w.losses + [w.calls])
  {
    if w.losses != [] {
      var last := |w.losses| - 1;
      forall i | 0 <= i < |w.losses|
        ensures w.losses[i] + COOLDOWN + 1 <= w.calls
      {
        assert i < last ==> w.losses[i] + COOLDOWN + 1 <= w.losses[last];
      }
    }
  }

  lemma StepKeepsLives(w: World, step: Step, t: World)
    requires LivesHold(w) && Steps(w, step, t)
    ensures LivesHold(t)
  {
    if w.deathCooldown == 0 {
      LossIsSpaced(w);
    }
  }

  lemma {:induction false} RunHolds(ws: seq<World>, steps: seq<Step>)
    requires IsRun(ws, steps) && Starts(ws[0])
    ensures forall i :: 0 <= i < |ws| ==> Conserved(ws[i]) && LivesHold(ws[i])
    decreases |steps|
  {
    if steps != [] {
      var n := |steps| - 1;
      var front := ws[..n + 1];
      assert forall i :: 0 <= i < |front| ==> front[i] == ws[i];
      RunHolds(front, steps[..n]);
      assert Steps(ws[n], steps[n], ws[n + 1]);
      StepConserves(ws[n], steps[n], ws[n + 1]);
      StepKeepsLives(ws[n], steps[n], ws[n + 1]);
      forall i | 0 <= i < |ws|
        ensures Conserved(ws[i]) && LivesHold(ws[i])
      {
        assert i < n + 1 ==> ws[i] == front[i];
      }
    }
  }

  /** In every game the score is a hundred times each of the four counts. */
  lemma ScoreIsConserved(ws: seq<World>, steps: seq<Step>, k: nat)
    requires IsRun(ws, steps) && Starts(ws[0]) && k < |ws|
    ensures ws[k].score == 100 * ws[k].enemiesKilled
    ensures ws[k].enemiesKilled == ws[k].destroyedCount == NumDeadIn(ws[k].monsters) == NumDead(ws[k].bullets)
  {
    RunHolds(ws, steps);
  }

  /** And lives stay between 0 and 3, with at least 51 calls between two losses. */
  lemma LivesAreSpaced(ws: seq<World>, steps: seq<Step>, k: nat)
    requires IsRun(ws, steps) && Starts(ws[0]) && k < |ws|
    ensures 0 <= ws[k].lives <= 3 && |ws[k].losses| == 3 - ws[k].lives
    ensures forall i, j :: 0 <= i < j < |ws[k].losses| ==> ws[k].losses[i] + 51 <= ws[k].losses[j]
  {
    RunHolds(ws, steps);
  }

  // ---------------------------------------------------------------- what one call does, and the pause

  /** A call kills exactly if some live bullet overlaps a live monster; then it leaves the player alone. */
  lemma KillIffOverlap(w: World, o: Overlaps, t: World)
    requires Checked(w, o, t)
    ensures t.enemiesKilled != w.enemiesKilled <==> exists b: nat, r: nat, c: nat :: HitsAt(w, o, b, r, c)
    ensures t.enemiesKilled != w.enemiesKilled ==>
              && t.enemiesKilled == w.enemiesKilled + 1
              && t.lives == w.lives && t.playerAlive == w.playerAlive && t.playerAt == w.playerAt
              && t.deathCooldown == w.deathCooldown && t.monsterBullets == w.monsterBullets && t.losses == w.losses
              && exists b: nat, r: nat, c: nat :: HitsAt(w, o, b, r, c) && NoHitBefore(w, o, b, r, c)
                   && t.bullets == w.bullets[b := false] && t.monsters == w.monsters[r := w.monsters[r][c := false]]
    ensures t.enemiesKilled == w.enemiesKilled ==> t.bullets == w.bullets && t.monsters == w.monsters && t.score == w.score
    ensures t.calls == w.calls + 1
  {
  }

  /**
   Read off the overlaps alone: a live bullet that overlaps a live monster means a kill, and the kill
   is the first such pair, by bullet, then by row, then by place in the row.
   */
  lemma KillReadsOverlaps(w: World, o: Overlaps, t: World)
    requires Checked(w, o, t)
    ensures forall b: nat, r: nat, c: nat ::
              b < |w.bullets| && r < |w.monsters| && c < |w.monsters[r]| && w.bullets[b] && w.monsters[r][c] && o.hit(b, r, c) ==>
                t.enemiesKilled == w.enemiesKilled + 1
    ensures t.enemiesKilled != w.enemiesKilled ==>
              exists b: nat, r: nat, c: nat ::
                && b < |w.bullets| && r < |w.monsters| && c < |w.monsters[r]| && w.bullets[b] && w.monsters[r][c] && o.hit(b, r, c)
                && t.bullets == w.bullets[b := false] && t.monsters == w.monsters[r := w.monsters[r][c := false]]
                && (forall b': nat, r': nat, c': nat ::
                      b' < b && r' < |w.monsters| && c' < |w.monsters[r']| && w.bullets[b'] && w.monsters[r'][c'] ==> !o.hit(b', r', c'))
                && (forall r': nat, c': nat :: r' < r && c' < |w.monsters[r']| && w.monsters[r'][c'] ==> !o.hit(b, r', c'))
                && (forall c': nat :: c' < c && w.monsters[r][c'] ==> !o.hit(b, r, c'))
  {
    forall b: nat, r: nat, c: nat | b < |w.bullets| && r < |w.monsters| && c < |w.monsters[r]| && w.bullets[b] && w.monsters[r][c] && o.hit(b, r, c)
      ensures t.enemiesKilled == w.enemiesKilled + 1
    {
      assert HitsAt(w, o, b, r, c);
    }
    if t.enemiesKilled != w.enemiesKilled {
      var b: nat, r: nat, c: nat :| HitsAt(w, o, b, r, c) && NoHitBefore(w, o, b, r, c) && t == Killed(w, b, r, c);
      FirstPair(w, o, b, r, c);
    }
  }

  lemma FirstPair(w: World, o: Overlaps, b: nat, r: nat, c: nat)
    requires HitsAt(w, o, b, r, c) && NoHitBefore(w, o, b, r, c)
    ensures forall b': nat, r': nat, c': nat ::
              b' < b && r' < |w.monsters| && c' < |w.monsters[r']| && w.bullets[b'] && w.monsters[r'][c'] ==> !o.hit(b', r', c')
    ensures forall r': nat, c': nat :: r' < r && c' < |w.monsters[r']| && w.monsters[r'][c'] ==> !o.hit(b, r', c')
    ensures forall c': nat :: c' < c && w.monsters[r][c'] ==> !o.hit(b, r, c')
  {
    forall b': nat, r': nat, c': nat | r' < |w.monsters| && c' < |w.monsters[r']| && Earlier(b', r', c', b, r, c)
      ensures w.bullets[b'] && w.monsters[r'][c'] ==> !o.hit(b', r', c')
    {
      assert !HitsAt(w, o, b', r', c');
    }
    assert forall b': nat, r': nat, c': nat :: b' < b ==> Earlier(b', r', c', b, r, c);
    assert forall r': nat, c': nat :: r' < r ==> Earlier(b, r', c', b, r, c);
    assert forall c': nat :: c' < c ==> Earlier(b, r, c', b, r, c);
  }

  /** Some pair is the first to overlap if any pair overlaps. */
  lemma {:induction false} FirstHitExists(w: World, o: Overlaps, b: nat, r: nat, c: nat)
    requires HitsAt(w, o, b, r, c)
    ensures exists b': nat, r': nat, c': nat :: HitsAt(w, o, b', r', c') && NoHitBefore(w, o, b', r', c')
    decreases b, r, c
  {
    if !NoHitBefore(w, o, b, r, c) {
      var b': nat, r': nat, c': nat :| Earlier(b', r', c', b, r, c) && HitsAt(w, o, b', r', c');
      FirstHitExists(w, o, b', r', c');
    }
  }

  lemma {:induction false} FirstShotExists(w: World, o: Overlaps, i: nat)
    requires i < |w.monsterBullets| && o.hitPlayer(i)
    ensures exists k: nat :: FirstToHit(w, o, k)
    decreases i
  {
    if j: nat :| j < i && o.hitPlayer(j) {
      FirstShotExists(w, o, j);
    } else {
      assert FirstToHit(w, o, i);
    }
  }

  lemma HitsAreOrdered(w: World, o: Overlaps, b: nat, r: nat, c: nat, b': nat, r': nat, c': nat)
    requires HitsAt(w, o, b, r, c) && NoHitBefore(w, o, b, r, c) && HitsAt(w, o, b', r', c') && NoHitBefore(w, o, b', r', c')
    ensures b == b' && r == r' && c == c'
  {
    assert Earlier(b, r, c, b', r', c') || Earlier(b', r', c', b, r, c) || (b == b' && r == r' && c == c');
  }

  /** Every call has an outcome, and only one. */
  lemma CallHasOneOutcome(w: World, o: Overlaps)
    ensures exists t :: Checked(w, o, t)
    ensures forall t, u :: Checked(w, o, t) && Checked(w, o, u) ==> t == u
  {
    if b: nat, r: nat, c: nat :| HitsAt(w, o, b, r, c) {
      FirstHitExists(w, o, b, r, c);
      var b': nat, r': nat, c': nat :| HitsAt(w, o, b', r', c') && NoHitBefore(w, o, b', r', c');
      assert Checked(w, o, Killed(w, b', r', c'));
    } else {
      QuietCallHasOutcome(w, o);
    }
    forall t, u | Checked(w, o, t) && Checked(w, o, u)
      ensures t == u
    {
      OutcomesAgree(w, o, t, u);
    }
  }

  lemma QuietCallHasOutcome(w: World, o: Overlaps)
    requires forall b: nat, r: nat, c: nat :: !HitsAt(w, o, b, r, c)
    ensures exists t :: Checked(w, o, t)
  {
    if !(w.playerAlive && w.deathCooldown == 0) {
      assert Checked(w, o, Recovering(w));
    } else if i: nat :| i < |w.monsterBullets| && o.hitPlayer(i) {
      FirstShotExists(w, o, i);
      var k: nat :| FirstToHit(w, o, k);
      assert Checked(w, o, PlayerHit(w, k));
    } else {
      assert Checked(w, o, w.(calls := w.calls + 1));
    }
  }

  lemma OutcomesAgree(w: World, o: Overlaps, t: World, u: World)
    requires Checked(w, o, t) && Checked(w, o, u)
    ensures t == u
  {
    if exists b: nat, r: nat, c: nat :: HitsAt(w, o, b, r, c) {
      var b: nat, r: nat, c: nat :| HitsAt(w, o, b, r, c) && NoHitBefore(w, o, b, r, c) && t == Killed(w, b, r, c);
      var b': nat, r': nat, c': nat :| HitsAt(w, o, b', r', c') && NoHitBefore(w, o, b', r', c') && u == Killed(w, b', r', c');
      HitsAreOrdered(w, o, b, r, c, b', r', c');
    }
  }

  /** The first of the monsters' bullets to overlap the player. */
  predicate FirstToHit(w: World, o: Overlaps, i: nat) {
    i < |w.monsterBullets| && o.hitPlayer(i) && forall j: nat :: j < i ==> !o.hitPlayer(j)
  }

  /**
   A player who may be hit is hit by a call without a kill exactly if some bullet overlaps him. The
   first such bullet is spent, he loses a life if he has one, and the pause begins in any case.
   */
  lemma HitIffOverlap(w: World, o: Overlaps, t: World)
    requires Checked(w, o, t) && t.enemiesKilled == w.enemiesKilled && w.playerAlive && w.deathCooldown == 0
    ensures t.deathCooldown == (if exists i: nat :: FirstToHit(w, o, i) then 1 else 0)
    ensures forall i: nat :: FirstToHit(w, o, i) ==>
              && t.monsterBullets == w.monsterBullets[i := false]
              && (if w.lives > 0 then t.lives == w.lives - 1 && !t.playerAlive && t.playerAt == w.spawnAt && t.losses == w.losses + [w.calls]
                  else t.lives == w.lives && t.playerAlive && t.playerAt == w.playerAt && t.losses == w.losses)
    ensures !(exists i: nat :: FirstToHit(w, o, i)) ==>
              t.monsterBullets == w.monsterBullets && t.lives == w.lives && t.playerAlive && t.playerAt == w.playerAt && t.losses == w.losses
  {
    KillIffOverlap(w, o, t);
    if i: nat :| i < |w.monsterBullets| && o.hitPlayer(i) && (forall j: nat :: j < i ==> !o.hitPlayer(j)) && t == PlayerHit(w, i) {
      assert FirstToHit(w, o, i);
      assert forall k: nat :: FirstToHit(w, o, k) ==> k == i;
    }
  }

  /** The calls of a run that kill nothing. */
  function QuietCalls(ws: seq<World>, steps: seq<Step>): nat
    requires |ws| == |steps| + 1
  {
    if steps == [] then 0
    else
      var n := |steps| - 1;
      QuietCalls(ws[..n + 1], steps[..n]) + if steps[n].Call? && ws[n + 1].enemiesKilled == ws[n].enemiesKilled then 1 else 0
  }

  /** What the pause has come to after `quiet` calls without a kill. */
  predicate PauseAfter(first: World, last: World, quiet: nat) {
    && last.lives == first.lives && last.losses == first.losses
    && if first.deathCooldown + quiet <= COOLDOWN then
         last.deathCooldown == first.deathCooldown + quiet && last.playerAlive == first.playerAlive
       else
         last.deathCooldown == 0 && last.playerAlive
  }

  lemma PauseStep(first: World, w: World, step: Step, t: World, quiet: nat)
    requires PauseAfter(first, w, quiet) && 0 < first.deathCooldown <= COOLDOWN && Steps(w, step, t)
    ensures var more := if step.Call? && t.enemiesKilled == w.enemiesKilled then 1 else 0;
            first.deathCooldown + quiet + more <= COOLDOWN + 1 ==> PauseAfter(first, t, quiet + more)
  {
    if step.Call? {
      KillIffOverlap(w, step.overlaps, t);
    }
  }

  /**
   However often both sides fire and monsters are killed in between: the player stays as he is until
   51 calls without a kill have been made since the hit, the hit included, and then he is alive
   again and no life has been lost meanwhile.
   */
  lemma {:induction false} PauseEnds(ws: seq<World>, steps: seq<Step>)
    requires IsRun(ws, steps) && 0 < ws[0].deathCooldown <= COOLDOWN
    requires ws[0].deathCooldown + QuietCalls(ws, steps) <= COOLDOWN + 1
    ensures PauseAfter(ws[0], ws[|steps|], QuietCalls(ws, steps))
    decreases |steps|
  {
    if steps != [] {
      var n := |steps| - 1;
      var front := ws[..n + 1];
      assert forall i :: 0 <= i < |front| ==> front[i] == ws[i];
      PauseEnds(front, steps[..n]);
      assert Steps(ws[n], steps[n], ws[n + 1]);
      PauseStep(ws[0], ws[n], steps[n], ws[n + 1], QuietCalls(front, steps[..n]));
    }
  }

  /** Entities that were there before are still there, and the dead among them are dead. */
  predicate StillDead(before: seq<bool>, after: seq<bool>) {
    |before| <= |after| && forall i :: 0 <= i < |before| && !before[i] ==> !after[i]
  }

  ghost predicate NothingRevives(w: World, t: World) {
    && StillDead(w.bullets, t.bullets) && StillDead(w.monsterBullets, t.monsterBullets)
    && |w.monsters| == |t.monsters|
    && forall r :: 0 <= r < |w.monsters| ==> |w.monsters[r]| == |t.monsters[r]| && StillDead(w.monsters[r], t.monsters[r])
  }

  /** Spent bullets stay spent and killed monsters dead, in every run. */
  lemma {:induction false} DeadStayDead(ws: seq<World>, steps: seq<Step>)
    requires IsRun(ws, steps)
    ensures NothingRevives(ws[0], ws[|steps|])
    decreases |steps|
  {
    if steps != [] {
      var n := |steps| - 1;
      var front := ws[..n + 1];
      assert forall i :: 0 <= i < |front| ==> front[i] == ws[i];
      DeadStayDead(front, steps[..n]);
      assert Steps(ws[n], steps[n], ws[n + 1]);
    }
  }
}
