/** Zombie and boss movement, contact damage and the boss's summoning attack
    (game.js updateZombies, updateBosses). */
module Steering {
  import opened Host
  import opened Geometry
  import opened Entities
  import Sequences

  /** Pillar `q` is within detection range (its radius plus `margin`) of (x, y). */
  predicate Near(q: Pillar, x: real, y: real, margin: real) {
    Within(x - q.x, y - q.y, q.radius + margin)
  }

  /** The pillar the `for ... break` scan stops at: the first one from `from` on
      within detection range, or -1 when there is none. */
  function FirstNear(ps: seq<Pillar>, x: real, y: real, margin: real, from: int): (r: int)
    requires 0 <= from <= |ps|
    ensures r == -1 || from <= r < |ps|
    ensures r >= 0 ==> Near(ps[r], x, y, margin)
    ensures forall k :: from <= k < |ps| && (r == -1 || k < r) ==> !Near(ps[k], x, y, margin)
    decreases |ps| - from
  {
    if from == |ps| then -1
    else if Near(ps[from], x, y, margin) then from
    else FirstNear(ps, x, y, margin, from + 1)
  }

  /** The direction a creature at (x, y) takes towards the player at (px, py): the
      first pillar in detection range forces the normalised perpendicular
      `(-(q.y - y), q.x - x)`; otherwise it heads for the player. Its geometry is
      stated by `HeadingAroundPillar` and `HeadingToPlayer`. */
  function Heading(ps: seq<Pillar>, x: real, y: real, px: real, py: real, margin: real, m: MathLib): (real, real) {
    var k := FirstNear(ps, x, y, margin, 0);
    if k >= 0 then Unit(m, -(ps[k].y - y), ps[k].x - x) else Unit(m, px - x, py - y)
  }

  /** Blocked by the first pillar in range, the creature moves at right angles to
      the line towards that pillar. */
  lemma HeadingAroundPillar(ps: seq<Pillar>, x: real, y: real, px: real, py: real, margin: real, m: MathLib)
    requires FirstNear(ps, x, y, margin, 0) >= 0
    ensures var q := ps[FirstNear(ps, x, y, margin, 0)];
            var u := Heading(ps, x, y, px, py, margin, m);
            u.0 * (q.x - x) + u.1 * (q.y - y) == 0.0
  {
    var q := ps[FirstNear(ps, x, y, margin, 0)];
    var pdx, pdy := q.x - x, q.y - y;
    var u := Unit(m, -pdy, pdx);
    var h := Heading(ps, x, y, px, py, margin, m);
    assert h.0 == u.0 && h.1 == u.1;
    UnitKeepsDirection(m, -pdy, pdx);
    Perpendicular(u.0, u.1, pdx, pdy);
  }

  /** With no pillar in range the creature moves along the line to the player,
      towards the player. */
  lemma HeadingToPlayer(ps: seq<Pillar>, x: real, y: real, px: real, py: real, margin: real, m: MathLib)
    requires FirstNear(ps, x, y, margin, 0) == -1
    ensures var u := Heading(ps, x, y, px, py, margin, m);
            && u.0 * (py - y) == u.1 * (px - x)
            && ((px - x) * (px - x) + (py - y) * (py - y) > 0.0 ==> u.0 * (px - x) + u.1 * (py - y) > 0.0)
  {
    assert Heading(ps, x, y, px, py, margin, m) == Unit(m, px - x, py - y);
    UnitKeepsDirection(m, px - x, py - y);
  }

  /** A vector proportional to (-pdy, pdx) is perpendicular to (pdx, pdy). */
  lemma Perpendicular(ux: real, uy: real, pdx: real, pdy: real)
    requires ux * pdx == uy * -pdy
    ensures ux * pdx + uy * pdy == 0.0
  {
    assert uy * -pdy == -(uy * pdy);
  }

  /** `Math.hypot(dx, dy) > 0`: the creature is not standing on the player. */
  predicate Apart(c: Creature, px: real, py: real) {
    (px - c.x) * (px - c.x) + (py - c.y) * (py - c.y) > 0.0
  }

  /** The creature after moving: nothing moves when it already stands on the
      player; otherwise it advances by its speed along its heading. Only its
      position changes. */
  function Steer(ps: seq<Pillar>, c: Creature, px: real, py: real, margin: real, m: MathLib): (s: Creature)
    ensures s == c.(x := s.x, y := s.y)
    ensures !Apart(c, px, py) ==> s == c
    ensures Apart(c, px, py) ==>
              var u := Heading(ps, c.x, c.y, px, py, margin, m);
              s == Stride(c, u.0, u.1)
  {
    if Apart(c, px, py) then
      var u := Heading(ps, c.x, c.y, px, py, margin, m);
      Stride(c, u.0, u.1)
    else c
  }

  /** `x += dx * speed; y += dy * speed`. */
  function Stride(c: Creature, dx: real, dy: real): Creature {
    c.(x := c.x + dx * c.speed, y := c.y + dy * c.speed)
  }

  /** The creature touches the player: the test uses its position before it moves. */
  predicate Contact(c: Creature, p: Player) {
    Within(p.x - c.x, p.y - c.y, c.size + 15.0)
  }

  /** Contact depends on where the player stands, not on its health. */
  lemma ContactIgnoresHealth(c: Creature, p: Player, q: Player)
    requires q == p.(health := q.health)
    ensures Contact(c, q) == Contact(c, p)
  {
  }

  /** One zombie's turn in updateZombies: it steers (detection margin 30) and, if it
      touched the player before moving, the player loses 0.5 health. */
  function ZombieTurn(a: Arena, m: MathLib, w: World, k: int): (r: World)
    requires 0 <= k < |w.zombies|
    ensures r == w.(zombies := r.zombies, player := r.player)
    ensures r.zombies == w.zombies[k := Steer(a.pillars, w.zombies[k], w.player.x, w.player.y, 30.0, m)]
    ensures r.player == w.player.(health := w.player.health - (if Contact(w.zombies[k], w.player) then 0.5 else 0.0))
  {
    var z := w.zombies[k];
    var p := w.player;
    var moved := Steer(a.pillars, z, p.x, p.y, 30.0, m);
    var hurt := if Contact(z, p) then p.(health := p.health - 0.5) else p;
    w.(zombies := w.zombies[k := moved], player := hurt)
  }

  /** The first `n` turns of updateZombies' forEach. */
  function ZombieRounds(a: Arena, m: MathLib, w: World, n: int): (r: World)
    requires 0 <= n <= |w.zombies|
    ensures |r.zombies| == |w.zombies|
  {
    if n == 0 then w else ZombieTurn(a, m, ZombieRounds(a, m, w, n - 1), n - 1)
  }

  function UpdateZombies(a: Arena, m: MathLib, w: World): (r: World)
    ensures |r.zombies| == |w.zombies|
  {
    ZombieRounds(a, m, w, |w.zombies|)
  }

  /** How many of `zs` touch the player. */
  function Contacts(zs: seq<Creature>, p: Player): (n: nat)
    ensures n <= |zs|
  {
    if zs == [] then 0 else Contacts(zs[..|zs| - 1], p) + (if Contact(zs[|zs| - 1], p) then 1 else 0)
  }

  /** After `n` turns the first `n` zombies have moved, the rest have not, and
      only the player's health has changed besides. */
  lemma {:induction false} ZombieRoundsEffect(a: Arena, m: MathLib, w: World, n: int)
    requires 0 <= n <= |w.zombies|
    ensures var r := ZombieRounds(a, m, w, n);
            && r == w.(zombies := r.zombies, player := r.player)
            && r.player == w.player.(health := r.player.health)
            && (forall k :: 0 <= k < n ==> r.zombies[k] == Steer(a.pillars, w.zombies[k], w.player.x, w.player.y, 30.0, m))
            && r.zombies[n..] == w.zombies[n..]
  {
    if n > 0 {
      ZombieRoundsEffect(a, m, w, n - 1);
      var before := ZombieRounds(a, m, w, n - 1);
      assert before.zombies[n - 1] == before.zombies[n - 1..][0] == w.zombies[n - 1];
      var r := ZombieTurn(a, m, before, n - 1);
      forall k | 0 <= k < n ensures r.zombies[k] == Steer(a.pillars, w.zombies[k], w.player.x, w.player.y, 30.0, m) {
        if k < n - 1 {
          assert r.zombies[k] == before.zombies[k];
        }
      }
    }
  }

  /** After `n` turns the player has lost 0.5 health per zombie among the first `n`
      that touched it before moving. */
  lemma {:induction false} ZombieRoundsBites(a: Arena, m: MathLib, w: World, n: int)
    requires 0 <= n <= |w.zombies|
    ensures ZombieRounds(a, m, w, n).player.health == w.player.health - 0.5 * (Contacts(w.zombies[..n], w.player) as real)
  {
    if n > 0 {
      ZombieRoundsBites(a, m, w, n - 1);
      ZombieRoundsEffect(a, m, w, n - 1);
      var before := ZombieRounds(a, m, w, n - 1);
      var z := w.zombies[n - 1];
      assert before.zombies[n - 1] == before.zombies[n - 1..][0] == z;
      assert w.zombies[..n][..n - 1] == w.zombies[..n - 1];
      var c := Contacts(w.zombies[..n - 1], w.player);
      var bite := if Contact(z, w.player) then 1 else 0;
      assert Contacts(w.zombies[..n], w.player) == c + bite;
      assert ((c + bite) as real) == (c as real) + (bite as real);
      ContactIgnoresHealth(z, w.player, before.player);
      var r := ZombieTurn(a, m, before, n - 1);
      assert r.player.health == before.player.health - 0.5 * (bite as real);
    }
  }

  /** updateZombies: every zombie moves once and keeps its kind and health, and the
      player's health only falls, by 0.5 per zombie touching it. */
  lemma UpdateZombiesFacts(a: Arena, m: MathLib, w: World)
    ensures var r := UpdateZombies(a, m, w);
            && r == w.(zombies := r.zombies, player := r.player)
            && r.player == w.player.(health := r.player.health)
            && r.player.health == w.player.health - 0.5 * (Contacts(w.zombies, w.player) as real)
            && r.player.health <= w.player.health
            && |r.zombies| == |w.zombies|
            && (forall k :: 0 <= k < |w.zombies| ==> r.zombies[k] == Steer(a.pillars, w.zombies[k], w.player.x, w.player.y, 30.0, m))
            && forall k :: 0 <= k < |w.zombies| ==> r.zombies[k] == w.zombies[k].(x := r.zombies[k].x, y := r.zombies[k].y)
  {
    ZombieRoundsEffect(a, m, w, |w.zombies|);
    ZombieRoundsBites(a, m, w, |w.zombies|);
    assert w.zombies[..|w.zombies|] == w.zombies;
  }

  /** The direction of the `i`-th mini: a third of a turn apart. */
  function MiniAngle(m: MathLib, i: int): real {
    (m.pi * 2.0 / 3.0) * (i as real)
  }

  /** The mini summoned at angle `(2 * PI / 3) * i`, 40 away from (x, y). */
  function MiniAt(x: real, y: real, i: int, m: MathLib): (z: Creature)
    ensures z.kind == Mini && z.health == 30.0
  {
    var angle := MiniAngle(m, i);
    NewMini(x + m.cos(angle) * 40.0, y + m.sin(angle) * 40.0)
  }

  /** The three minis a boss at (x, y) summons. */
  function Minis(x: real, y: real, m: MathLib): (zs: seq<Creature>)
    ensures |zs| == 3 && forall z <- zs :: z.kind == Mini && z.health == 30.0
  {
    [MiniAt(x, y, 0, m), MiniAt(x, y, 1, m), MiniAt(x, y, 2, m)]
  }

  /** The boss attack is ready: more than 2000 ms since its last one and the player
      (before the boss moves) closer than 200. */
  predicate Attacks(b: Creature, p: Player, now: int)
    requires b.kind.Boss?
  {
    now - b.kind.lastAttack > 2000 && Within(p.x - b.x, p.y - b.y, 200.0)
  }

  /** A boss after its own turn: it has steered toward the player with margin 40,
      and its attack time is `now` when its attack was ready. */
  function BossMoved(a: Arena, m: MathLib, b: Creature, p: Player, now: int): (s: Creature)
    ensures s == b.(x := s.x, y := s.y, kind := s.kind)
  {
    Steer(a.pillars, b, p.x, p.y, 40.0, m).(kind := if b.kind.Boss? && Attacks(b, p, now) then Boss(now) else b.kind)
  }

  /** A boss's turn depends on where the player stands, not on its health. */
  lemma BossMovedIgnoresHealth(a: Arena, m: MathLib, b: Creature, p: Player, q: Player, now: int)
    requires q == p.(health := q.health) && b.kind.Boss?
    ensures Contact(b, q) == Contact(b, p)
    ensures Attacks(b, q, now) == Attacks(b, p, now)
    ensures BossMoved(a, m, b, q, now) == BossMoved(a, m, b, p, now)
  {
  }

  /** One boss's turn in updateBosses: it steers (margin 40), costs the player 1
      health on contact, and when its attack is ready summons three minis around
      its new position and stamps the attack time. */
  function BossTurn(a: Arena, m: MathLib, w: World, j: int, now: int): (r: World)
    requires 0 <= j < |w.bosses| && w.bosses[j].kind.Boss?
    ensures r == w.(bosses := r.bosses, zombies := r.zombies, player := r.player)
    ensures |r.bosses| == |w.bosses| && r.bosses[j].kind.Boss?
    ensures forall k :: 0 <= k < |w.bosses| && k != j ==> r.bosses[k] == w.bosses[k]
    ensures r.bosses[j] == w.bosses[j].(x := r.bosses[j].x, y := r.bosses[j].y, kind := r.bosses[j].kind)
    ensures r.player == w.player.(health := w.player.health - (if Contact(w.bosses[j], w.player) then 1.0 else 0.0))
    ensures Attacks(w.bosses[j], w.player, now) ==>
              r.zombies == w.zombies + Minis(r.bosses[j].x, r.bosses[j].y, m) && r.bosses[j].kind == Boss(now)
    ensures !Attacks(w.bosses[j], w.player, now) ==> r.zombies == w.zombies && r.bosses[j].kind == w.bosses[j].kind
    ensures r.bosses[j] == BossMoved(a, m, w.bosses[j], w.player, now)
  {
    var b := w.bosses[j];
    var p := w.player;
    var moved := Steer(a.pillars, b, p.x, p.y, 40.0, m);
    var hurt := if Contact(b, p) then p.(health := p.health - 1.0) else p;
    if Attacks(b, p, now) then
      w.(bosses := w.bosses[j := moved.(kind := Boss(now))], zombies := w.zombies + Minis(moved.x, moved.y, m), player := hurt)
    else
      w.(bosses := w.bosses[j := moved], player := hurt)
  }

  predicate AllBosses(bs: seq<Creature>) {
    forall b <- bs :: b.kind.Boss?
  }

  /** The first `n` turns of updateBosses' forEach. */
  function BossRounds(a: Arena, m: MathLib, w: World, n: int, now: int): (r: World)
    requires 0 <= n <= |w.bosses| && AllBosses(w.bosses)
    ensures |r.bosses| == |w.bosses| && AllBosses(r.bosses)
  {
    if n == 0 then w
    else
      var before := BossRounds(a, m, w, n - 1, now);
      var r := BossTurn(a, m, before, n - 1, now);
      assert forall k :: 0 <= k < |r.bosses| ==> r.bosses[k].kind.Boss? by {
        forall k | 0 <= k < |r.bosses| ensures r.bosses[k].kind.Boss? {
          assert before.bosses[k] in before.bosses;
        }
      }
      r
  }

  function UpdateBosses(a: Arena, m: MathLib, w: World, now: int): (r: World)
    requires AllBosses(w.bosses)
    ensures |r.bosses| == |w.bosses| && AllBosses(r.bosses)
  {
    BossRounds(a, m, w, |w.bosses|, now)
  }

  /** How many of the first `n` of `bs` are bosses whose attack is ready. */
  function Ready(bs: seq<Creature>, n: int, p: Player, now: int): (r: nat)
    requires 0 <= n <= |bs|
    ensures r <= n
  {
    if n == 0 then 0
    else Ready(bs, n - 1, p, now) + (if bs[n - 1].kind.Boss? && Attacks(bs[n - 1], p, now) then 1 else 0)
  }

  /** The minis boss `b` summons on its turn: three around where it has moved to
      when its attack is ready, none otherwise. */
  function Wave(a: Arena, m: MathLib, b: Creature, p: Player, now: int): (zs: seq<Creature>)
    ensures |zs| == 0 || |zs| == 3
    ensures forall z <- zs :: z.kind == Mini && z.health == 30.0
  {
    if b.kind.Boss? && Attacks(b, p, now) then
      var s := BossMoved(a, m, b, p, now);
      Minis(s.x, s.y, m)
    else []
  }

  /** A boss summons three minis exactly when its attack is ready. */
  lemma WaveSize(a: Arena, m: MathLib, b: Creature, p: Player, now: int)
    ensures |Wave(a, m, b, p, now)| == if b.kind.Boss? && Attacks(b, p, now) then 3 else 0
  {
  }

  /** The minis summoned by the first `n` of the bosses `bs`, in turn order. */
  function Summoned(a: Arena, m: MathLib, bs: seq<Creature>, n: int, p: Player, now: int): (zs: seq<Creature>)
    requires 0 <= n <= |bs|
    ensures |zs| % 3 == 0
    ensures forall z <- zs :: z.kind == Mini && z.health == 30.0
  {
    if n == 0 then []
    else Summoned(a, m, bs, n - 1, p, now) + Wave(a, m, bs[n - 1], p, now)
  }

  /** The first `n` bosses summon three minis for each of them whose attack is
      ready, and none for the others. */
  lemma {:induction false} SummonedCount(a: Arena, m: MathLib, bs: seq<Creature>, n: int, p: Player, now: int)
    requires 0 <= n <= |bs|
    ensures |Summoned(a, m, bs, n, p, now)| == 3 * Ready(bs, n, p, now)
  {
    if n > 0 {
      SummonedCount(a, m, bs, n - 1, p, now);
    }
  }

  /** After `n` turns the first `n` bosses have moved and stamped their attacks,
      the rest are untouched, and the player has only changed in health. */
  lemma {:induction false} BossRoundsEffect(a: Arena, m: MathLib, w: World, n: int, now: int)
    requires 0 <= n <= |w.bosses| && AllBosses(w.bosses)
    ensures var r := BossRounds(a, m, w, n, now);
            && r.player == w.player.(health := r.player.health)
            && (forall k :: 0 <= k < n ==> r.bosses[k] == BossMoved(a, m, w.bosses[k], w.player, now))
            && (forall k :: n <= k < |w.bosses| ==> r.bosses[k] == w.bosses[k])
  {
    if n > 0 {
      BossRoundsEffect(a, m, w, n - 1, now);
      var before := BossRounds(a, m, w, n - 1, now);
      var b := w.bosses[n - 1];
      assert b in w.bosses;
      BossMovedIgnoresHealth(a, m, b, w.player, before.player, now);
      var r := BossTurn(a, m, before, n - 1, now);
      forall k | 0 <= k < n - 1 ensures r.bosses[k] == BossMoved(a, m, w.bosses[k], w.player, now) {
        assert r.bosses[k] == before.bosses[k];
      }
      forall k | n <= k < |w.bosses| ensures r.bosses[k] == w.bosses[k] {
        assert r.bosses[k] == before.bosses[k];
      }
    }
  }

  /** After `n` turns the player has lost 1 health per boss among the first `n`
      that touched it before moving. */
  lemma {:induction false} BossRoundsBites(a: Arena, m: MathLib, w: World, n: int, now: int)
    requires 0 <= n <= |w.bosses| && AllBosses(w.bosses)
    ensures BossRounds(a, m, w, n, now).player.health == w.player.health - (Contacts(w.bosses[..n], w.player) as real)
  {
    if n > 0 {
      BossRoundsBites(a, m, w, n - 1, now);
      BossRoundBite(a, m, w, n, now);
      assert w.bosses[..n][..n - 1] == w.bosses[..n - 1];
      var c := Contacts(w.bosses[..n - 1], w.player);
      var bite := if Contact(w.bosses[n - 1], w.player) then 1 else 0;
      assert Contacts(w.bosses[..n], w.player) == c + bite;
      assert ((c + bite) as real) == (c as real) + (bite as real);
    }
  }

  /** Round `n` of updateBosses costs the player 1 health when boss `n - 1`
      touched it. */
  lemma BossRoundBite(a: Arena, m: MathLib, w: World, n: int, now: int)
    requires 0 < n <= |w.bosses| && AllBosses(w.bosses)
    ensures BossRounds(a, m, w, n, now).player.health ==
            BossRounds(a, m, w, n - 1, now).player.health - (if Contact(w.bosses[n - 1], w.player) then 1.0 else 0.0)
  {
    BossRoundsEffect(a, m, w, n - 1, now);
    var before := BossRounds(a, m, w, n - 1, now);
    var b := w.bosses[n - 1];
    assert before.bosses[n - 1] == b;
    assert b in w.bosses;
    BossMovedIgnoresHealth(a, m, b, w.player, before.player, now);
  }

  /** After `n` turns the zombies are the old ones followed by the minis the
      first `n` bosses summoned, in turn order. */
  lemma {:induction false} BossRoundsSummons(a: Arena, m: MathLib, w: World, n: int, now: int)
    requires 0 <= n <= |w.bosses| && AllBosses(w.bosses)
    ensures BossRounds(a, m, w, n, now).zombies == w.zombies + Summoned(a, m, w.bosses, n, w.player, now)
  {
    if n > 0 {
      var earlier := Summoned(a, m, w.bosses, n - 1, w.player, now);
      var wave := Wave(a, m, w.bosses[n - 1], w.player, now);
      calc {
        BossRounds(a, m, w, n, now).zombies;
        { BossRoundSummons(a, m, w, n, now); }
        BossRounds(a, m, w, n - 1, now).zombies + wave;
        { BossRoundsSummons(a, m, w, n - 1, now); }
        w.zombies + earlier + wave;
        { Sequences.AppendAssoc(w.zombies, earlier, wave); }
        w.zombies + (earlier + wave);
        { SummonedStep(a, m, w.bosses, n, w.player, now); }
        w.zombies + Summoned(a, m, w.bosses, n, w.player, now);
      }
    }
  }

  lemma SummonedStep(a: Arena, m: MathLib, bs: seq<Creature>, n: int, p: Player, now: int)
    requires 0 < n <= |bs|
    ensures Summoned(a, m, bs, n, p, now) == Summoned(a, m, bs, n - 1, p, now) + Wave(a, m, bs[n - 1], p, now)
  {
  }

  /** Round `n` of updateBosses appends boss `n - 1`'s wave to the zombies. */
  lemma BossRoundSummons(a: Arena, m: MathLib, w: World, n: int, now: int)
    requires 0 < n <= |w.bosses| && AllBosses(w.bosses)
    ensures BossRounds(a, m, w, n, now).zombies == BossRounds(a, m, w, n - 1, now).zombies + Wave(a, m, w.bosses[n - 1], w.player, now)
  {
    BossRoundsEffect(a, m, w, n - 1, now);
    var before := BossRounds(a, m, w, n - 1, now);
    var b := w.bosses[n - 1];
    assert before.bosses[n - 1] == b;
    assert b in w.bosses;
    BossMovedIgnoresHealth(a, m, b, w.player, before.player, now);
  }

  /** updateBosses in full: each boss moves with margin 40 and stamps its attack
      time when its attack was ready, the player loses 1 health per boss touching
      it, and the zombies gain exactly the ready bosses' minis, three each. */
  lemma UpdateBossesEffect(a: Arena, m: MathLib, w: World, now: int)
    requires AllBosses(w.bosses)
    ensures var r := UpdateBosses(a, m, w, now);
            && r == w.(bosses := r.bosses, zombies := r.zombies, player := r.player)
            && r.player == w.player.(health := w.player.health - (Contacts(w.bosses, w.player) as real))
            && |r.bosses| == |w.bosses|
            && (forall k :: 0 <= k < |w.bosses| ==> r.bosses[k] == BossMoved(a, m, w.bosses[k], w.player, now))
            && r.zombies == w.zombies + Summoned(a, m, w.bosses, |w.bosses|, w.player, now)
            && |r.zombies| == |w.zombies| + 3 * Ready(w.bosses, |w.bosses|, w.player, now)
  {
    BossRoundsFrame(a, m, w, |w.bosses|, now);
    BossRoundsEffect(a, m, w, |w.bosses|, now);
    BossRoundsBites(a, m, w, |w.bosses|, now);
    BossRoundsSummons(a, m, w, |w.bosses|, now);
    SummonedCount(a, m, w.bosses, |w.bosses|, w.player, now);
    assert w.bosses[..|w.bosses|] == w.bosses;
  }

  /** `after` is `before` followed by whole waves of three minis. */
  predicate MinisAppended(before: seq<Creature>, after: seq<Creature>) {
    && before <= after && (|after| - |before|) % 3 == 0
    && forall k :: |before| <= k < |after| ==> after[k].kind == Mini
  }

  /** Appending a list of minis whose length is a multiple of three appends
      whole waves of minis. */
  lemma WavesAreMinis(xs: seq<Creature>, s: seq<Creature>)
    requires |s| % 3 == 0 && forall z <- s :: z.kind == Mini
    ensures MinisAppended(xs, xs + s)
  {
    forall k | |xs| <= k < |xs + s| ensures (xs + s)[k].kind == Mini {
      assert (xs + s)[k] == s[k - |xs|];
    }
  }

  /** From `w` to `r` only the bosses, the zombies and the player's health have
      changed; bosses keep their health and the player's health has not risen. */
  predicate BossesFrame(w: World, r: World) {
    && r == w.(bosses := r.bosses, zombies := r.zombies, player := r.player)
    && r.player == w.player.(health := r.player.health)
    && r.player.health <= w.player.health
    && |r.bosses| == |w.bosses|
    && (forall k :: 0 <= k < |w.bosses| ==> r.bosses[k].health == w.bosses[k].health)
  }

  lemma BossesFrameTrans(u: World, v: World, w: World)
    requires BossesFrame(u, v) && BossesFrame(v, w)
    ensures BossesFrame(u, w)
  {
  }

  /** Round `n` of updateBosses keeps the frame. */
  lemma BossRoundFrame(a: Arena, m: MathLib, w: World, n: int, now: int)
    requires 0 < n <= |w.bosses| && AllBosses(w.bosses)
    ensures BossesFrame(BossRounds(a, m, w, n - 1, now), BossRounds(a, m, w, n, now))
  {
    var before := BossRounds(a, m, w, n - 1, now);
    assert before.bosses[n - 1] in before.bosses;
  }

  /** updateBosses changes only the bosses, the zombies and the player's health;
      bosses keep their health and the player's health never rises. */
  lemma {:induction false} BossRoundsFrame(a: Arena, m: MathLib, w: World, n: int, now: int)
    requires 0 <= n <= |w.bosses| && AllBosses(w.bosses)
    ensures BossesFrame(w, BossRounds(a, m, w, n, now))
  {
    if n > 0 {
      BossRoundsFrame(a, m, w, n - 1, now);
      BossRoundFrame(a, m, w, n, now);
      BossesFrameTrans(w, BossRounds(a, m, w, n - 1, now), BossRounds(a, m, w, n, now));
    }
  }

  /** updateBosses only appends whole waves of minis to the zombies. */
  lemma UpdateBossesMinis(a: Arena, m: MathLib, w: World, now: int)
    requires AllBosses(w.bosses)
    ensures MinisAppended(w.zombies, UpdateBosses(a, m, w, now).zombies)
  {
    UpdateBossesEffect(a, m, w, now);
    WavesAreMinis(w.zombies, Summoned(a, m, w.bosses, |w.bosses|, w.player, now));
  }

  /** updateBosses: only bosses, zombies and the player's health change, bosses keep
      their health, the player's health never rises, zombies only gain minis in
      waves of three, and the record stays consistent. */
  lemma UpdateBossesFacts(a: Arena, m: MathLib, w: World, now: int)
    requires Consistent(w)
    ensures var r := UpdateBosses(a, m, w, now);
            && BossesFrame(w, r)
            && MinisAppended(w.zombies, r.zombies)
            && Consistent(r)
  {
    BossRoundsFrame(a, m, w, |w.bosses|, now);
    UpdateBossesMinis(a, m, w, now);
    var r := UpdateBosses(a, m, w, now);
    MinisAreNoBosses(w.zombies, r.zombies);
  }

  /** Appending minis brings no boss among the zombies. */
  lemma MinisAreNoBosses(xs: seq<Creature>, ys: seq<Creature>)
    requires MinisAppended(xs, ys) && forall z <- xs :: !z.kind.Boss?
    ensures forall z <- ys :: !z.kind.Boss?
  {
    forall z <- ys ensures !z.kind.Boss? {
      var k :| 0 <= k < |ys| && ys[k] == z;
      if k < |xs| {
        assert xs[k] == z;
      }
    }
  }
}
