/** The collision check, performed in place on the player, the monsters and the score. */
module CollisionObjects {
  import opened Collisions

  class CollisionChecker {
    var bullets: seq<bool>
    var monsters: seq<seq<bool>>
    var monsterBullets: seq<bool>
    var playerAlive: bool
    var playerAt: (real, real)
    var spawnAt: (real, real)
    var lives: int
    var deathCooldown: int
    var score: int
    var enemiesKilled: int
    var destroyedCount: int
    ghost var calls: nat
    ghost var losses: seq<nat>

    ghost function State(): World
      reads this
    {
      World(bullets, monsters, monsterBullets, playerAlive, playerAt, spawnAt, lives, deathCooldown, score, enemiesKilled, destroyedCount, calls, losses)
    }

    /** The player's state is whatever it happens to be. */
    constructor (monsters: seq<seq<bool>>, playerAlive: bool, spawnAt: (real, real))
      ensures State() == World([], monsters, [], playerAlive, spawnAt, spawnAt, 3, 0, 0, 0, 0, 0, [])
    {
      this.monsters, this.playerAlive, this.playerAt, this.spawnAt := monsters, playerAlive, spawnAt, spawnAt;
      bullets, monsterBullets, lives, deathCooldown := [], [], 3, 0;
      score, enemiesKilled, destroyedCount, calls, losses := 0, 0, 0, 0, [];
    }

    method Die()
      modifies this`lives, this`playerAlive, this`playerAt, this`losses
      ensures if old(lives) > 0 then lives == old(lives) - 1 && !playerAlive && playerAt == spawnAt && losses == old(losses) + [calls]
              else lives == old(lives) && playerAlive == old(playerAlive) && playerAt == old(playerAt) && losses == old(losses)
    {
      if lives > 0 {
        playerAt := spawnAt;
        lives := lives - 1;
        playerAlive := false;
        losses := losses + [calls];
      }
    }

    /** The first live monster that the bullet hits, in the order of the rows. */
    method FindMonster(o: Overlaps, b: nat) returns (found: bool, r: nat, c: nat)
      requires b < |bullets| && bullets[b]
      ensures found ==> HitsAt(State(), o, b, r, c)
      ensures found ==> forall r': nat, c': nat :: Earlier(b, r', c', b, r, c) ==> !HitsAt(State(), o, b, r', c')
      ensures !found ==> forall r': nat, c': nat :: !HitsAt(State(), o, b, r', c')
    {
      r := 0;
      while r < |monsters|
        invariant r <= |monsters|
        invariant forall r': nat, c': nat :: r' < r ==> !HitsAt(State(), o, b, r', c')
      {
        c := 0;
        while c < |monsters[r]|
          invariant c <= |monsters[r]|
          invariant forall c': nat :: c' < c ==> !HitsAt(State(), o, b, r, c')
        {
          if monsters[r][c] && o.hit(b, r, c) {
            return true, r, c;
          }
          c := c + 1;
        }
        r := r + 1;
      }
      found, c := false, 0;
    }

    method FindKill(o: Overlaps) returns (found: bool, b: nat, r: nat, c: nat)
      ensures found ==> HitsAt(State(), o, b, r, c) && NoHitBefore(State(), o, b, r, c)
      ensures !found ==> forall b': nat, r': nat, c': nat :: !HitsAt(State(), o, b', r', c')
    {
      b, r, c := 0, 0, 0;
      while b < |bullets|
        invariant b <= |bullets|
        invariant forall b': nat, r': nat, c': nat :: b' < b ==> !HitsAt(State(), o, b', r', c')
      {
        if bullets[b] {
          found, r, c := FindMonster(o, b);
          if found {
            return;
          }
        }
        b := b + 1;
      }
      found := false;
    }

    method FindShot(o: Overlaps) returns (found: bool, i: nat)
      ensures found ==> i < |monsterBullets| && o.hitPlayer(i) && forall j: nat :: j < i ==> !o.hitPlayer(j)
      ensures !found ==> forall j: nat :: j < |monsterBullets| ==> !o.hitPlayer(j)
    {
      i := 0;
      while i < |monsterBullets|
        invariant i <= |monsterBullets|
        invariant forall j: nat :: j < i ==> !o.hitPlayer(j)
      {
        if o.hitPlayer(i) {
          return true, i;
        }
        i := i + 1;
      }
      found := false;
    }

    method CheckCollisions(o: Overlaps)
      modifies this
      ensures Checked(old(State()), o, State())
    {
      var found, b, r, c := FindKill(o);
      if found {
        monsters := monsters[r := monsters[r][c := false]];
        enemiesKilled := enemiesKilled + 1;
        score := score + POINTS;
        bullets := bullets[b := false];
        destroyedCount := destroyedCount + 1;
        calls := calls + 1;
        return;
      }
      CheckPlayer(o);
    }

    method CheckPlayer(o: Overlaps)
      requires forall b: nat, r: nat, c: nat :: !HitsAt(State(), o, b, r, c)
      modifies this
      ensures Checked(old(State()), o, State())
    {
      if playerAlive && deathCooldown == 0 {
        var found, i := FindShot(o);
        if found {
          Die();
          monsterBullets := monsterBullets[i := false];
          deathCooldown := deathCooldown + 1;
        }
      } else if deathCooldown < COOLDOWN {
        deathCooldown := deathCooldown + 1;
      } else {
        deathCooldown := 0;
        playerAlive := true;
      }
      calls := calls + 1;
    }
  }
}
