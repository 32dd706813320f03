/** The player's side of a frame (game.js updatePlayer and shoot) and the
    number-key weapon switch. */
module PlayerControl {
  import opened Host
  import opened Geometry
  import opened Entities

  /** The weapon-switch key handler: key `num` equips weapon `num - 1` exactly when
      `num` is 1 to 6 and that weapon is unlocked at `level`; otherwise the weapon
      stays. An unlocked weapon is therefore never replaced by a locked one. */
  function Switch(num: Parsed, level: int, current: int): (r: int)
    ensures num.Int? && 1 <= num.value <= 6 && Unlocked(num.value - 1, level) ==> r == num.value - 1
    ensures !(num.Int? && 1 <= num.value <= 6 && Unlocked(num.value - 1, level)) ==> r == current
    ensures Unlocked(current, level) ==> Unlocked(r, level)
  {
    match num
    case Int(n) => if n >= 1 && n <= 6 && Weapons[n - 1].unlockLevel <= level then n - 1 else current
    case NaN => current
  }

  /** The position after the held WASD keys move the player by its speed. */
  function Tentative(p: Player, c: Controls): (t: (real, real))
    ensures t.0 == p.x - (if c.keyA then p.speed else 0.0) + (if c.keyD then p.speed else 0.0)
    ensures t.1 == p.y - (if c.keyW then p.speed else 0.0) + (if c.keyS then p.speed else 0.0)
    ensures !c.keyA && !c.keyD ==> t.0 == p.x
    ensures !c.keyW && !c.keyS ==> t.1 == p.y
  {
    var y1 := if c.keyW then p.y - p.speed else p.y;
    var y2 := if c.keyS then y1 + p.speed else y1;
    var x1 := if c.keyA then p.x - p.speed else p.x;
    var x2 := if c.keyD then x1 + p.speed else x1;
    (x2, y2)
  }

  /** Pillar `q` is closer to (x, y) than its radius plus the player's 15. */
  predicate Collides(q: Pillar, x: real, y: real) {
    Within(x - q.x, y - q.y, q.radius + 15.0)
  }

  predicate Blocked(ps: seq<Pillar>, x: real, y: real) {
    exists k :: 0 <= k < |ps| && Collides(ps[k], x, y)
  }

  /** The position after the pillar check and before clamping: the whole move is
      undone when the tentative position touches any pillar, and kept otherwise,
      so the player either stays put or ends clear of every pillar. */
  function Resolved(ps: seq<Pillar>, p: Player, c: Controls): (r: (real, real))
    ensures Blocked(ps, Tentative(p, c).0, Tentative(p, c).1) ==> r == (p.x, p.y)
    ensures !Blocked(ps, Tentative(p, c).0, Tentative(p, c).1) ==> r == Tentative(p, c)
    ensures r == (p.x, p.y) || forall q <- ps :: !Collides(q, r.0, r.1)
  {
    var t := Tentative(p, c);
    if Blocked(ps, t.0, t.1) then (p.x, p.y) else t
  }

  /** Movement, pillar check and clamping to the canvas inset by 15. */
  function Move(a: Arena, p: Player, c: Controls): (q: Player)
    ensures q == p.(x := q.x, y := q.y)
    ensures q.x == Clamp(15.0, a.width - 15.0, Resolved(a.pillars, p, c).0)
    ensures q.y == Clamp(15.0, a.height - 15.0, Resolved(a.pillars, p, c).1)
    ensures a.width >= 30.0 ==> 15.0 <= q.x <= a.width - 15.0
    ensures a.height >= 30.0 ==> 15.0 <= q.y <= a.height - 15.0
  {
    var r := Resolved(a.pillars, p, c);
    p.(x := Clamp(15.0, a.width - 15.0, r.0), y := Clamp(15.0, a.height - 15.0, r.1))
  }

  /** The fire-rate gate: the button is down and more than the equipped weapon's
      fire interval has passed since the last shot. */
  predicate Fires(c: Controls, now: int, lastShot: int, weapon: int)
    requires 0 <= weapon < |Weapons|
  {
    c.mouseDown && now - lastShot > Weapons[weapon].fireRate
  }

  /** A bullet leaving the player at `angle` with speed 8. */
  function Shot(p: Player, angle: real, wp: Weapon, m: MathLib): (b: Bullet)
    ensures b.x == p.x && b.y == p.y && b.damage == wp.damage && b.explosive == wp.explosive
  {
    Bullet(p.x, p.y, m.cos(angle) * 8.0, m.sin(angle) * 8.0, wp.damage, wp.explosive)
  }

  /** The bullets of one `shoot()`: the Shotgun fires three pellets at the aim angle
      -0.3, +0 and +0.3 radians, every other weapon one bullet along the aim; all
      start at the player with the weapon's damage and explosive flag. */
  function Volley(wp: Weapon, p: Player, m: MathLib): (bs: seq<Bullet>)
    ensures |bs| == (if wp.name == "Shotgun" then 3 else 1)
    ensures forall b <- bs :: b.x == p.x && b.y == p.y && b.damage == wp.damage && b.explosive == wp.explosive
    ensures wp.name != "Shotgun" ==> bs == [Shot(p, p.angle, wp, m)]
  {
    if wp.name == "Shotgun" then
      [Shot(p, p.angle - 0.3, wp, m), Shot(p, p.angle + 0.0, wp, m), Shot(p, p.angle + 0.3, wp, m)]
    else
      [Shot(p, p.angle, wp, m)]
  }

  /** updatePlayer on the record: move, aim at the mouse, and fire when the gate
      opens, stamping the shot time. Only the player, the bullets and `lastShot`
      can change; bullets are only ever appended. */
  function UpdatePlayer(a: Arena, m: MathLib, w: World, c: Controls, now: int): (r: World)
    requires 0 <= w.currentWeapon < |Weapons|
    ensures r == w.(player := r.player, bullets := r.bullets, lastShot := r.lastShot)
    ensures r.player == Move(a, w.player, c).(angle := r.player.angle)
    ensures Fires(c, now, w.lastShot, w.currentWeapon) ==>
              r.lastShot == now && r.bullets == w.bullets + Volley(Weapons[w.currentWeapon], r.player, m)
    ensures !Fires(c, now, w.lastShot, w.currentWeapon) ==> r.lastShot == w.lastShot && r.bullets == w.bullets
  {
    var q := Move(a, w.player, c);
    var aimed := q.(angle := m.atan2(c.mouseY - q.y, c.mouseX - q.x));
    var w1 := w.(player := aimed);
    if Fires(c, now, w.lastShot, w.currentWeapon) then
      w1.(bullets := w1.bullets + Volley(Weapons[w.currentWeapon], aimed, m), lastShot := now)
    else w1
  }
}
