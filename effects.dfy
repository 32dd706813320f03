/** Particles and blood splats (game.js createExplosion, createBloodSplash,
    updateParticles). */
module Effects {
  import opened Host
  import opened Entities
  import opened Sequences

  /** The ten particles of createExplosion at (x, y), drawing three random values
      each (vx, vy, hue) from draw `d` on. */
  function ExplosionBurst(x: real, y: real, m: MathLib, d: nat): (ps: seq<Particle>)
    ensures |ps| == 10
    ensures forall p <- ps :: p.x == x && p.y == y && p.life == 30 && p.colour.Flame?
  {
    seq(10, i requires 0 <= i < 10 =>
      Particle(x, y, (m.random(d + 3 * i) - 0.5) * 10.0, (m.random(d + 3 * i + 1) - 0.5) * 10.0,
               30, Flame(m.random(d + 3 * i + 2) * 60.0 + 10.0)))
  }

  /** The splat of createBloodSplash near (x, y); it draws three random values. */
  function BloodSplat(x: real, y: real, m: MathLib, d: nat): (s: Splat)
    ensures s.alpha == 0.8
    ensures ValidHost(m) ==> x - 5.0 <= s.x < x + 5.0 && y - 5.0 <= s.y < y + 5.0 && 4.0 <= s.size < 12.0
  {
    Splat(x + (m.random(d) - 0.5) * 10.0, y + (m.random(d + 1) - 0.5) * 10.0, m.random(d + 2) * 8.0 + 4.0, 0.8)
  }

  /** The five blood particles of createBloodSplash, two random values each. */
  function BloodDrops(x: real, y: real, m: MathLib, d: nat): (ps: seq<Particle>)
    ensures |ps| == 5
    ensures forall p <- ps :: p.x == x && p.y == y && p.life == 20 && p.colour == Blood
  {
    seq(5, i requires 0 <= i < 5 =>
      Particle(x, y, (m.random(d + 2 * i) - 0.5) * 6.0, (m.random(d + 2 * i + 1) - 0.5) * 6.0, 20, Blood))
  }

  /** createExplosion(x, y) on the record: exactly ten particles of life 30 are
      appended and thirty random values are used; nothing else changes. */
  function Explode(w: World, x: real, y: real, m: MathLib): (r: World)
    ensures r == w.(particles := r.particles, draws := w.draws + 30)
    ensures |r.particles| == |w.particles| + 10 && r.particles[..|w.particles|] == w.particles
    ensures forall k :: |w.particles| <= k < |r.particles| ==> r.particles[k].life == 30
  {
    w.(particles := w.particles + ExplosionBurst(x, y, m, w.draws), draws := w.draws + 30)
  }

  /** createBloodSplash(x, y) on the record: exactly one splat of alpha 0.8 and five
      particles of life 20 are appended; nothing else changes but the draw count. */
  function BloodSplash(w: World, x: real, y: real, m: MathLib): (r: World)
    ensures r == w.(particles := r.particles, bloodSplats := r.bloodSplats, draws := w.draws + 13)
    ensures |r.bloodSplats| == |w.bloodSplats| + 1 && r.bloodSplats[..|w.bloodSplats|] == w.bloodSplats
    ensures r.bloodSplats[|w.bloodSplats|].alpha == 0.8
    ensures |r.particles| == |w.particles| + 5 && r.particles[..|w.particles|] == w.particles
    ensures forall k :: |w.particles| <= k < |r.particles| ==> r.particles[k].life == 20
  {
    w.(bloodSplats := w.bloodSplats + [BloodSplat(x, y, m, w.draws)],
       particles := w.particles + BloodDrops(x, y, m, w.draws + 3),
       draws := w.draws + 13)
  }

  /** One update of one particle: it moves by its velocity, slows by 5% and loses
      one unit of life. */
  function Age(p: Particle): (q: Particle)
    ensures q.life == p.life - 1 && q.colour == p.colour
  {
    p.(x := p.x + p.vx, y := p.y + p.vy, vx := p.vx * 0.95, vy := p.vy * 0.95, life := p.life - 1)
  }

  function AgeAll(ps: seq<Particle>): (r: seq<Particle>)
    ensures |r| == |ps| && forall k :: 0 <= k < |ps| ==> r[k] == Age(ps[k])
  {
    seq(|ps|, k requires 0 <= k < |ps| => Age(ps[k]))
  }

  /** The particle list after updateParticles: each particle aged once and kept
      while it still has life. */
  function Decay(ps: seq<Particle>): (r: seq<Particle>)
    ensures forall q <- r :: q.life > 0
  {
    if ps == [] then []
    else
      var rest := Decay(ps[..|ps| - 1]);
      var q := Age(ps[|ps| - 1]);
      if q.life > 0 then rest + [q] else rest
  }

  /** The survivors of updateParticles are exactly the aged particles with life
      left: a particle with life 1 or less is gone after one update. */
  lemma {:induction false} DecaySurvivors(ps: seq<Particle>, q: Particle)
    ensures q in Decay(ps) <==> q.life > 0 && q in AgeAll(ps)
  {
    if ps != [] {
      var init := ps[..|ps| - 1];
      DecaySurvivors(init, q);
      assert AgeAll(ps) == AgeAll(init) + [Age(ps[|ps| - 1])];
    }
  }

  /** Counted with multiplicity: each live aged particle survives as many times as
      it occurs among the aged particles, and no dead one survives. */
  lemma {:induction false} DecayCounts(ps: seq<Particle>, q: Particle)
    ensures multiset(Decay(ps))[q] == if q.life > 0 then multiset(AgeAll(ps))[q] else 0
  {
    if ps != [] {
      var init := ps[..|ps| - 1];
      var last := Age(ps[|ps| - 1]);
      DecayCounts(init, q);
      assert AgeAll(ps) == AgeAll(init) + [last];
      assert multiset(AgeAll(ps)) == multiset(AgeAll(init)) + multiset{last};
      if last.life > 0 {
        assert multiset(Decay(ps)) == multiset(Decay(init)) + multiset{last};
      }
    }
  }

  /** updateParticles keeps the survivors in their original order. */
  lemma {:induction false} DecayKeepsOrder(ps: seq<Particle>)
    ensures Subseq(Decay(ps), AgeAll(ps))
  {
    if ps != [] {
      var init := ps[..|ps| - 1];
      DecayKeepsOrder(init);
      assert AgeAll(ps) == AgeAll(init) + [Age(ps[|ps| - 1])];
      SubseqExtend(Decay(init), AgeAll(init), Age(ps[|ps| - 1]), Age(ps[|ps| - 1]).life > 0);
    }
  }

  /** updateParticles on the record: only the particle list changes; the blood
      splats persist. */
  function UpdateParticles(w: World): (r: World)
    ensures r == w.(particles := r.particles)
    ensures |r.particles| <= |w.particles|
    ensures forall q <- r.particles :: q.life > 0
  {
    DecayKeepsOrder(w.particles);
    SubseqLength(Decay(w.particles), AgeAll(w.particles));
    w.(particles := Decay(w.particles))
  }
}
