# ZombieHunter frame model

A Dafny model of the per-frame simulation of ZombieHunter, the browser game in
`game.js`. The game keeps one mutable `game` record: the player, the bullets,
the zombies, the bosses, particles and blood splats, and the counters `level`,
`score`, `zombiesKilled`, `currentWeapon`, `lastShot`, `gameTime` and `nextBoss`.
Every animation frame, `gameLoop` runs `updatePlayer`, `updateBullets`,
`updateZombies`, `updateBosses`, `updateParticles` and `updateGame`, in that order.
A number key switches weapon when the weapon is unlocked.

The model has two layers.

- **Specification functions.** These work on a `World` value that mirrors the
  record, one function per update step. The modules are `PlayerControl`, `Combat`,
  `Steering`, `Effects`, `Progression` and `Frame`. The game's promises are proved
  about them, as `ensures` clauses and lemmas.
- **The `ZombieHunter.Game` class.** It holds the record as fields and updates them
  in place, one method per function of `game.js`. The methods keep the source's
  loops: reverse index scans, `filter` callbacks, `forEach` turns and `for`/`break`
  pillar scans. Each method is proved to leave exactly the record its specification
  function computes. `Game.Step` is one frame of `gameLoop`. It keeps the
  invariant `Valid()` and satisfies every property proved for `Frame.Step`.

The services `game.js` takes from the browser are one value, `Host.MathLib`:
`Math.random`, `Math.hypot`, `Math.cos`, `Math.sin`, `Math.atan2` and `Math.PI`.

- `Math.random` is the stream of values it returns in a session (`random(k)` is
  the k-th value). The record counts the values used so far in `draws`, so every
  call site takes the next value in the order `game.js` asks for it.
- The canvas size is read by `game.js` (game.js:63-66, 80-83, 114-115, 166) but
  not set by it: the page's canvas element fixes it. It is a constructor
  parameter, kept in the constant `Arena` together with the six pillars.
- `Date.now()` is read once per frame, as the parameter `now`.
- Keys and mouse are a `Controls` value.

The model follows the behaviour of the code as written:

- every `Math.hypot(dx, dy) < r` test is the exact test `dx*dx + dy*dy < r*r`;
- an explosive bullet splashes zombies only, never bosses;
- the struck zombie takes both the direct damage and the splash;
- splashed bystanders stay in the list even at health 0 or below
  (`Combat.HitZombieSparesBystanders`);
- there is no knockback and no ammo count, because `game.js` has neither.

## Model

| member | source | states |
|---|---|---|
| Entities.Initial | game.js:5-29 | the initial record is consistent: player at (400, 300) with health 100 and speed 3, level 1, Pistol (weapon 0) equipped, score 0, no kills, first boss at 50 kills, and empty bullet, zombie, boss, particle and splat lists |
| Entities.NewZombie | game.js:69-72 | a spawned zombie is a normal zombie at the given point; from level 1 on it has at least 60 health and speed 0.35 |
| Entities.NewBoss | game.js:86-89 | a spawned boss has never attacked (lastAttack 0); from level 1 on it has at least 350 health and speed 0.23 |
| Entities.SpawnStatsGrow | game.js:69-72 | zombie and boss health and speed never fall as the level rises |
| Entities.NewMini | game.js:332-339 | a summoned mini is a mini zombie with 30 health at the given point |
| Entities.Side | game.js:59 | `Math.floor(Math.random() * 4)` picks one of the four edges (0 to 3) |
| Entities.SpawnPoint | game.js:62-67 | with a positive margin, the entry point lies strictly outside the canvas |
| Geometry.Clamp | game.js:114-115 | `Math.max(lo, Math.min(hi, v))` lies in [lo, hi] when lo <= hi, equals v when v is already inside, and is one of lo, hi, v |
| Geometry.Min | game.js:409 | `Math.min` is a lower bound of both arguments and equals one of them |
| Geometry.UnitKeepsDirection | game.js:258-262 | whatever the host's hypot returns, normalising keeps the vector's direction and, for a non-zero vector, its sense |
| Sequences.Remove | game.js:201 | `splice(i, 1)` shortens the list by one and keeps the other elements in order |
| Sequences.RemoveKeepsMembers | game.js:201 | `splice(i, 1)` adds no element |
| PlayerControl.Switch | game.js:51-56 | key n equips weapon n-1 exactly when 1 <= n <= 6 and that weapon is unlocked at the current level, else the weapon stays; an unlocked weapon is never replaced by a locked one |
| PlayerControl.Tentative | game.js:97-101 | the tentative position is the old one, less the speed for W (y) and A (x), plus the speed for S (y) and D (x); x moves only with A or D, and y only with W or S |
| PlayerControl.Resolved | game.js:103-109 | a tentative position touching any pillar undoes the whole move, otherwise it is kept; the player either stays put or ends clear of every pillar |
| PlayerControl.Move | game.js:92-115 | only x and y change, each clamped to the canvas inset by 15, so 15 <= x <= width-15 and 15 <= y <= height-15 on a canvas at least 30 wide and high |
| PlayerControl.Shot | game.js:146-157 | a bullet starts at the player with the weapon's damage and explosive flag |
| PlayerControl.Volley | game.js:127-158 | the Shotgun adds exactly 3 bullets, every other weapon exactly 1 along the aim; all start at the player with the weapon's damage and flag |
| PlayerControl.UpdatePlayer | game.js:92-125 | only the player, bullets and lastShot change; a shot happens exactly when the button is down and more than the fire interval has passed, which appends the volley and stamps lastShot := now; otherwise bullets and lastShot stay |
| Combat.LastHit | game.js:179-183 | the reverse scan stops at the highest-index creature the bullet touches, or finds none (-1) |
| Combat.SplashOn | game.js:187-195 | splash is half the damage when the bullet is explosive and the creature is within 50, and exactly 0 otherwise |
| Combat.Splash | game.js:188-194 | every zombie loses exactly its splash damage |
| Combat.HitZombie | game.js:184-206 | only the struck zombie can be removed, with +10 score and +1 kill, exactly when its health after damage and splash is <= 0; one splat and 5 or 15 live particles are appended |
| Combat.HitBoss | game.js:214-230 | only the struck boss takes damage; it is removed with +100 score and +10 kills exactly when its health reaches <= 0; zombies are untouched |
| Combat.ResolveBullet | game.js:161-234 | a moved bullet out of bounds or inside a pillar is dropped and changes nothing; else it hits the highest-index zombie it touches; else the highest-index boss; else it survives and changes nothing |
| Combat.HitZombieSparesBystanders | game.js:186-205 | every other zombie, splashed or not, stays in the list whatever its health |
| Combat.HitZombieConsistent | game.js:184-206 | a zombie hit keeps the record consistent: 10 points per kill, no boss among the zombies, live particles only |
| Combat.HitBossConsistent | game.js:214-230 | a boss hit keeps the record consistent |
| Combat.ResolveBulletBookkeeping | game.js:161-234 | one bullet never lowers score or kills, never adds a boss, only appends splats, and keeps the record consistent |
| Combat.Damaged | game.js:183-194 | the struck zombie loses the direct damage plus its splash, every other zombie exactly its splash, and none is added or removed |
| Combat.Strike | game.js:178-234 | the bullet survives exactly when it hits no zombie and no boss, and then nothing changes; a zombie hit (highest index) takes precedence over a boss hit (highest index) |
| Combat.ResolveAll | game.js:161-234 | the filter keeps at most as many bullets as it scans |
| Combat.UpdateBullets | game.js:160-235 | the bullet list never grows |
| Combat.ResolveAllStep | game.js:160-235 | filtering one more bullet extends the survivors and the record by that bullet's own resolution |
| Combat.ResolveAllBookkeeping | game.js:160-235 | over the filter, survivors are moved bullets in their original order; score and kills never fall and consistency holds |
| Combat.UpdateBulletsFacts | game.js:160-235 | updateBullets never adds bullets, keeps the survivors' order, leaves player, level, weapon, lastShot, gameTime and nextBoss alone, and keeps the record consistent |
| Steering.FirstNear | game.js:247-265 | the `for`/`break` scan stops at the first pillar in detection range, or finds none |
| Steering.HeadingAroundPillar | game.js:249-262 | a creature blocked by the first pillar in range heads at right angles to that pillar |
| Steering.HeadingToPlayer | game.js:267-270 | with no pillar in range, the creature heads along the line to the player, towards the player |
| Steering.Steer | game.js:240-274 | only the creature's position changes; a creature standing on the player does not move, and otherwise it moves by its speed times its heading |
| Steering.ContactIgnoresHealth | game.js:277 | contact depends on where the player stands, not on its health |
| Steering.ZombieTurn | game.js:238-280 | one zombie steers with detection margin 30 and the others are untouched; the player loses exactly 0.5 health when that zombie touched it before moving; nothing else changes |
| Steering.ZombieRounds | game.js:238-280 | the first `n` turns of the forEach keep the number of zombies |
| Steering.UpdateZombies | game.js:237-281 | the zombies keep their number |
| Steering.ZombieRoundsEffect | game.js:238-280 | after n turns the first n zombies have steered from their original places and the rest are unchanged; only zombies and player health change |
| Steering.ZombieRoundsBites | game.js:276-279 | after n turns the player has lost 0.5 health for each of the first n zombies that touched it before moving |
| Steering.UpdateZombiesFacts | game.js:237-281 | updateZombies moves each zombie once, from its original place, by the margin-30 steer towards the player's position before the loop, and keeps its other stats; player health falls by 0.5 per touching zombie and never rises |
| Steering.MiniAt | game.js:331-339 | each summoned mini is a mini zombie with 30 health |
| Steering.Minis | game.js:330-340 | an attack summons exactly three minis, each with 30 health |
| Steering.BossTurn | game.js:284-342 | one boss steers (margin 40) with no other change to it; a touch costs the player 1 health; when more than 2000 ms have passed and the player is within 200, three minis are appended around the boss's new position and lastAttack := now, and otherwise the zombies are untouched |
| Steering.BossRounds | game.js:284-343 | the bosses keep their number and stay bosses |
| Steering.BossMoved | game.js:284-343 | a boss's turn changes only its position and its lastAttack |
| Steering.BossMovedIgnoresHealth | game.js:323-328 | a boss's contact, attack readiness and move depend on where the player stands, not on its health |
| Steering.BossRoundBite | game.js:322-325 | one more boss turn costs the player exactly 1 health when that boss touched it |
| Steering.BossRoundSummons | game.js:327-342 | one more boss turn appends exactly that boss's wave to the zombies |
| Steering.Ready | game.js:328 | at most `n` of the first `n` bosses have their attack ready |
| Steering.Wave | game.js:328-342 | one boss summons either nothing or one wave of three minis, all of health 30 |
| Steering.WaveSize | game.js:328-342 | a boss summons exactly three minis when its attack is ready, and none otherwise |
| Steering.Summoned | game.js:328-342 | the bosses together summon whole waves of three minis, all of health 30 |
| Steering.SummonedCount | game.js:328-342 | the first `n` bosses summon exactly three minis per boss whose attack is ready, and none for the others |
| Steering.BossRoundsEffect | game.js:284-343 | after `n` boss turns each of the first `n` bosses has steered with margin 40 and has lastAttack = now exactly when its attack was ready, the other bosses are untouched, and only the player's health has changed |
| Steering.BossRoundsBites | game.js:322-325 | after `n` boss turns the player has lost exactly 1 health per boss among the first `n` that touched it before moving |
| Steering.BossRoundsSummons | game.js:327-342 | after `n` boss turns the zombies are the old ones followed by exactly the minis the first `n` ready bosses summoned, in turn order |
| Steering.UpdateBossesEffect | game.js:283-344 | updateBosses moves every boss once with margin 40, stamps lastAttack = now on exactly the ready bosses, costs the player 1 health per boss touching it, and appends exactly three minis per ready boss, nothing else changing |
| Steering.BossRoundFrame | game.js:284-343 | one boss turn changes only bosses, zombies and player health; bosses keep their health and player health never rises |
| Steering.BossRoundsFrame | game.js:283-344 | the same frame holds for any number of boss turns |
| Steering.MinisAreNoBosses | game.js:332-339 | appended minis bring no boss into the zombie list |
| Steering.WavesAreMinis | game.js:330-340 | appending minis in a multiple of three is appending whole waves of minis |
| Steering.UpdateBossesMinis | game.js:283-344 | updateBosses only appends whole waves of three minis to the zombies |
| Steering.UpdateBosses | game.js:283-344 | the bosses keep their number and all stay bosses |
| Steering.UpdateBossesFacts | game.js:283-344 | updateBosses changes only bosses, zombies and player health; bosses keep their health, player health never rises, zombies gain minis in threes, and the record stays consistent |
| Effects.ExplosionBurst | game.js:347-355 | an explosion is exactly 10 flame particles of life 30 at the point |
| Effects.BloodSplat | game.js:360-365 | the splat has alpha 0.8, lies within 5 of the point and has size in [4, 12) |
| Effects.BloodDrops | game.js:368-376 | exactly 5 dark-red particles of life 20 at the point |
| Effects.Explode | game.js:346-356 | createExplosion only appends 10 particles of life 30 and uses 30 random values |
| Effects.BloodSplash | game.js:358-377 | createBloodSplash only appends one splat of alpha 0.8 and 5 particles of life 20 |
| Effects.Age | game.js:381-385 | each update costs a particle exactly one unit of life |
| Effects.AgeAll | game.js:380-386 | every particle is aged exactly once |
| Effects.Decay | game.js:380-387 | only particles with life left survive |
| Effects.DecayCounts | game.js:380-387 | counted with multiplicity, each aged particle with life > 0 survives as often as it occurs among the aged particles, and none with life <= 0 survives |
| Effects.DecaySurvivors | game.js:380-387 | a particle is among the survivors exactly when it has life > 0 and is among the aged particles, so a particle with life 1 is gone after one update |
| Effects.DecayKeepsOrder | game.js:380-387 | survivors keep their original order |
| Effects.UpdateParticles | game.js:379-390 | only the particle list changes, it never grows, and all survivors are live; blood splats persist |
| Progression.SpawnZombie | game.js:58-73 | exactly one zombie for the current level is appended, outside the canvas, with two random values used |
| Progression.SpawnBoss | game.js:75-90 | exactly one boss for the current level is appended, outside the canvas |
| Progression.UpdateGame | game.js:392-411 | gameTime increases by 1; a zombie spawns exactly when the roll is below 0.008 + 0.003*level; at kills >= nextBoss exactly one boss spawns and nextBoss grows by 50 + 10*level (the old level), else bosses and nextBoss stay; at kills >= 20*level the level rises by one and health becomes min(100, health + 25), else both stay |
| Progression.SpawnRoll | game.js:393-398 | the tick advances, one draw is taken, and one zombie is appended exactly when the roll passes |
| Progression.BossCheck | game.js:401-404 | at the kill threshold one boss is appended and nextBoss grows by 50 + 10·level (the level before any level-up); below it nothing changes |
| Progression.LevelCheck | game.js:407-410 | at 20·level kills the level rises by one and health is healed by 25, capped at 100; below it nothing changes |
| Progression.UpdateGameProgress | game.js:392-411 | nextBoss never falls and strictly grows when a boss spawns; the level rises by at most one; the record stays consistent, so the equipped weapon stays unlocked |
| Frame.Step | game.js:635-641 | over one frame the record stays consistent, score and kills never fall, the clock ticks once, the level rises by at most one, nextBoss never falls, and blood splats are never removed |
| ZombieHunter.Game.constructor | game.js:5-29 | the new game holds the initial record on the given canvas with the six pillars, and is valid |
| ZombieHunter.Game.SelectWeapon | game.js:51-56 | the key handler changes only currentWeapon, as `Switch` says, and keeps the record valid |
| ZombieHunter.Game.Random | game.js:59 | each `Math.random()` call returns the next value of the stream and uses it up |
| ZombieHunter.Game.SpawnZombie | game.js:58-73 | the switch over the four edges leaves the record `Progression.SpawnZombie` describes |
| ZombieHunter.Game.SpawnBoss | game.js:75-90 | the switch over the four edges leaves the record `Progression.SpawnBoss` describes |
| ZombieHunter.Game.UpdatePlayer | game.js:92-125 | updatePlayer in place leaves the record `PlayerControl.UpdatePlayer` describes |
| ZombieHunter.Game.MovePlayer | game.js:94-115 | the key moves, the pillar loop with `break` and the clamps leave the player `PlayerControl.Move` describes |
| ZombieHunter.Game.Shoot | game.js:127-158 | the pellet loop appends exactly `PlayerControl.Volley` to the bullets |
| ZombieHunter.Game.CreateExplosion | game.js:346-356 | the particle loop leaves the record `Effects.Explode` describes |
| ZombieHunter.Game.CreateBloodSplash | game.js:358-377 | leaves the record `Effects.BloodSplash` describes |
| ZombieHunter.Game.AddSplat | game.js:360-365 | appends the one jittered splat, using three random values |
| ZombieHunter.Game.AddDrops | game.js:368-376 | the drop loop appends exactly `Effects.BloodDrops`, using ten random values |
| ZombieHunter.Game.HitZombie | game.js:184-206 | the in-place hit leaves the record `Combat.HitZombie` describes |
| ZombieHunter.Game.SlayZombie | game.js:200-204 | splices zombie i out and credits 10 points and one kill |
| ZombieHunter.Game.SlayBoss | game.js:224-228 | splices boss j out and credits 100 points and ten kills |
| ZombieHunter.Game.SplashZombies | game.js:188-194 | the `forEach` leaves the zombies `Combat.Splash` describes |
| ZombieHunter.Game.HitBoss | game.js:214-230 | the in-place hit leaves the record `Combat.HitBoss` describes |
| ZombieHunter.Game.ResolveBullet | game.js:161-234 | the filter callback moves the bullet, and its verdict and the record agree with `Combat.ResolveBullet` |
| ZombieHunter.Game.Strike | game.js:178-234 | the two reverse index loops hit what `Combat.Strike` says: the highest-index zombie, else the highest-index boss |
| ZombieHunter.Game.UpdateBullets | game.js:160-235 | the filter leaves the record `Combat.UpdateBullets` describes |
| ZombieHunter.Game.Steered | game.js:240-274 | the pillar scan with `break` and the normalisation move the creature exactly as `Steering.Steer` |
| ZombieHunter.Game.UpdateZombies | game.js:237-281 | the `forEach` leaves the record `Steering.UpdateZombies` describes |
| ZombieHunter.Game.ZombieTurn | game.js:238-280 | one zombie's callback leaves the record `Steering.ZombieTurn` describes |
| ZombieHunter.Game.UpdateBosses | game.js:283-344 | the `forEach` leaves the record `Steering.UpdateBosses` describes |
| ZombieHunter.Game.BossTurn | game.js:284-343 | one boss's callback leaves the record `Steering.BossTurn` describes |
| ZombieHunter.Game.SummonMinis | game.js:330-340 | the loop appends exactly `Steering.Minis` around the boss |
| ZombieHunter.Game.UpdateParticles | game.js:379-390 | the filter leaves the record `Effects.UpdateParticles` describes |
| ZombieHunter.Game.UpdateGame | game.js:392-417 | leaves the record `Progression.UpdateGame` describes, and reports game over exactly when health <= 0 |
| ZombieHunter.Game.BossWave | game.js:401-404 | the boss threshold step as `Progression.BossCheck` |
| ZombieHunter.Game.LevelUp | game.js:407-410 | the level-up step as `Progression.LevelCheck` |
| ZombieHunter.Game.Step | game.js:635-641 | one frame in gameLoop's order keeps `Valid()`, leaves the record `Frame.Step` describes, and reports game over exactly when health <= 0 |

## Left out

- Rendering, the HUD text and `render` (game.js:419-633) are presentation only.
- The DOM event listeners (game.js:42-50) are not modelled. Their effect is the
  `Controls` value given to each frame, and the number key is a `Parsed` value.
- `requestAnimationFrame` scheduling is not modelled; one call of `Game.Step` is
  one frame.
- `alert` and `location.reload` on game over are browser I/O. Only the game-over
  flag `health <= 0` is modelled, as the result of `Game.UpdateGame` and `Game.Step`.
- `Date.now()` is called up to 2 + 2·(number of bosses) times per frame in `game.js`:
  at game.js:121 and 123 in `updatePlayer`, around its call of `shoot`, and at game.js:328 and 341 for each boss in
  `updateBosses`. The model reads the clock once per frame, as `now`, so all
  these calls see the same time.
- Floating-point rounding is not modelled; all arithmetic is exact `real`.
- `Math.cos`, `Math.sin`, `Math.atan2` and `Math.hypot` are host functions given
  by `MathLib`. Only `random` has an assumed property: its values lie in [0, 1).
- Geometry.UnitKeepsDirection: does not prove the result is a unit vector. The host
  hypot is an arbitrary function, so the model proves only that normalising keeps
  the direction.
- Steering.Steer: does not use the host's `hypot(dx, dy) > 0` as the test for
  moving. It uses the exact `dx*dx + dy*dy > 0`, which the two agree on for a
  correct hypot.
- The weapons' `ammo: Infinity` field is only displayed, so it is left out.
- Colours of explosion particles are kept as the hue value; the CSS colour string
  is not built.
