/** The fish behaviour of handle_fish for one of the three fish slots:
    pursuit of the lure, hooking, autonomous swimming, slack-line struggle
    and escape, and spawning; and the respawn both it and handle_catch use.
    Every call of rand() is replaced by an injected value (a field of
    FishDraws or SpawnDraws), one per call site. */
module FishBehavior {
  import opened CInt
  import opened LurePhysics

  const FISH_INTEREST_RADIUS := 16
  /** A pursuing fish further than this from the lure on either axis gives up. */
  const LOSE_INTEREST_DISTANCE := FISH_INTEREST_RADIUS + 10
  const BITE_DISTANCE := 16
  const BITE_POINTS := 10
  /** Autonomous swimming bounces off these x positions. */
  const SWIM_MIN_X := 16
  const SWIM_MAX_X := 152
  const BOUNCE_NUDGE := 4
  /** The depth band that vertical drift keeps to. */
  const DEPTH_TOP := WATER_LINE + 10
  const DEPTH_BOTTOM := WATER_LINE + 50
  const SPAWN_X_RIGHT := 30
  const SPAWN_X_LEFT := 130
  const SPAWN_DEPTHS := 30
  const SPAWN_ODDS := 60
  const ESCAPE_PERCENT := 2

  /** struct Fish; `kind` is the size class `type` (0 small, 1 medium,
      2 large) and `right` the direction (1 = right). */
  datatype Fish = Fish(active: bool, x: Uint8, y: Uint8, kind: Uint8, right: bool, speed: Uint8,
                       spriteId: Uint8, hooked: bool, interested: bool)

  /** Injected results of the rand() calls of a (re)spawn, in call order. */
  datatype SpawnDraws = SpawnDraws(direction: Uint8, depth: Uint8, kind: Uint8, speed: Uint8)

  /** Injected results of the rand() calls handle_fish may make for one slot:
      the spawn trial and spawn, the vertical drift of a swimming fish, and
      the jitter and escape trial of a hooked fish on a slack line. */
  datatype FishDraws = FishDraws(trial: Uint8, spawn: SpawnDraws, drift: Uint8,
                                 jitterX: Uint8, jitterY: Uint8, escape: Uint8)

  /** What handle_fish updates: the fish slots, game.fish_interested and
      game.score. */
  datatype Pond = Pond(fish: seq<Fish>, interested: bool, score: Uint16)

  /** What handle_fish reads of the rest of the world. */
  datatype Surroundings = Surroundings(lureX: Uint8, lureY: Uint8, phase: CastPhase,
                                       reeling: bool, frame: Uint8)

  /** The shape every fish slot keeps: a size class 0..2, and a live fish
      swims at speed 1 or 2, at speed 1 unless it is small. */
  predicate WellFormed(f: Fish) {
    f.kind <= 2 && (f.active ==> 1 <= f.speed <= 2 && (f.kind > 0 ==> f.speed == 1))
  }

  predicate AllWellFormed(fish: seq<Fish>) {
    forall j :: 0 <= j < |fish| ==> WellFormed(fish[j])
  }

  /** Fish g is fish f, except that it may have lost its interest. */
  predicate AtMostForgets(f: Fish, g: Fish) {
    g == f.(interested := g.interested) && (g.interested ==> f.interested)
  }

  // ---------------------------------------------------------------- spawn

  /** A fish (re)spawned into slot f: live, free and uninterested, it
      starts at x 30 swimming right or x 130 swimming left, at a depth in
      [95, 124], is of size class 0, 1 or 2, and moves at speed 1 or 2, at
      speed 1 unless it is small; its sprite stays. */
  function Spawned(f: Fish, d: SpawnDraws): (g: Fish)
    ensures g.active && !g.hooked && !g.interested
    ensures g.x == (if g.right then SPAWN_X_RIGHT else SPAWN_X_LEFT)
    ensures DEPTH_TOP <= g.y <= DEPTH_TOP + SPAWN_DEPTHS - 1
    ensures g.kind in {0, 1, 2} && g.speed in {1, 2} && (g.kind > 0 ==> g.speed == 1)
    ensures g.spriteId == f.spriteId && WellFormed(g)
  {
    var right := d.direction % 2 == 1;
    var kind := d.kind % 3;
    f.(active := true, hooked := false, interested := false, right := right,
       x := if right then SPAWN_X_RIGHT else SPAWN_X_LEFT,
       y := DEPTH_TOP + d.depth % SPAWN_DEPTHS, kind := kind,
       speed := if kind > 0 then 1 else d.speed % 2 + 1)
  }

  // ---------------------------------------------------------------- pursuit

  function DistX(f: Fish, env: Surroundings): nat {
    Abs(f.x - env.lureX)
  }

  function DistY(f: Fish, env: Surroundings): nat {
    Abs(f.y - env.lureY)
  }

  /** The condition of the pursuit branch: the fish is already interested,
      or no fish is and the landed lure is within the interest radius. */
  predicate Attracted(p: Pond, f: Fish, env: Surroundings) {
    f.interested ||
    (!p.interested && env.phase == Landed &&
     DistX(f, env) < FISH_INTEREST_RADIUS && DistY(f, env) < FISH_INTEREST_RADIUS)
  }

  /** A pursuing fish bites when close enough while the player reels. */
  predicate Bites(f: Fish, env: Surroundings) {
    DistX(f, env) < BITE_DISTANCE && DistY(f, env) < BITE_DISTANCE && env.reeling
  }

  predicate LosesInterest(f: Fish, env: Surroundings) {
    DistX(f, env) > LOSE_INTEREST_DISTANCE || DistY(f, env) > LOSE_INTEREST_DISTANCE
  }

  /** One pixel toward the target (the fish->x++ / fish->x-- pair). */
  function Approach(a: Uint8, target: Uint8): Uint8 {
    if a < target then a + 1 else if a > target then a - 1 else a
  }

  /** Every live fish other than slot i forgets its interest: only
      interest flags change, and afterwards a fish other than slot i is
      interested only if it is not live. */
  function ClearOthers(fish: seq<Fish>, i: nat): (r: seq<Fish>)
    ensures |r| == |fish|
    ensures forall j :: 0 <= j < |fish| ==>
      AtMostForgets(fish[j], r[j]) && (r[j].interested <==> fish[j].interested && (j == i || !fish[j].active))
  {
    seq(|fish|, j requires 0 <= j < |fish| =>
      if j != i && fish[j].active then fish[j].(interested := false) else fish[j])
  }

  /** The pursuit branch for the fish in slot i. The fish moves at most
      one pixel on each axis and changes nothing but its position, its
      interest, which the world flag then copies, and its hook; it is hooked
      exactly when it bites, which scores 10 (uint16_t wrap). The other
      slots can only lose their interest. */
  function Pursue(p: Pond, i: nat, env: Surroundings): (r: Pond)
    requires i < |p.fish|
    ensures |r.fish| == |p.fish|
    ensures var f, g := p.fish[i], r.fish[i];
      g == f.(x := g.x, y := g.y, interested := g.interested, hooked := g.hooked) &&
      Abs(g.x - f.x) <= 1 && Abs(g.y - f.y) <= 1 && g.interested == r.interested &&
      (g.hooked <==> f.hooked || Bites(f, env))
    ensures forall j :: 0 <= j < |p.fish| && j != i ==> AtMostForgets(p.fish[j], r.fish[j])
    ensures r.score == if Bites(p.fish[i], env) then Wrap16(p.score + BITE_POINTS) else p.score
  {
    var f := p.fish[i];
    var keep := !LosesInterest(f, env);
    var g := f.(interested := keep, x := Approach(f.x, env.lureX), y := Approach(f.y, env.lureY));
    if Bites(f, env) then
      Pond(ClearOthers(p.fish[i := g.(hooked := true)], i), keep, Wrap16(p.score + BITE_POINTS))
    else
      Pond(p.fish[i := g], keep, p.score)
  }

  // ---------------------------------------------------------------- swimming

  /** The uint8_t next_x of autonomous swimming. */
  function SwimNextX(f: Fish): Uint8 {
    Wrap8(f.x + (if f.right then f.speed else -(f.speed as int)))
  }

  predicate Bounces(f: Fish) {
    SwimNextX(f) < SWIM_MIN_X || SwimNextX(f) > SWIM_MAX_X
  }

  /** The vertical move a drift draw gives: -1, 0 or 1. */
  function DriftMove(drift: Uint8): int {
    drift % 3 - 1
  }

  /** Autonomous swimming of an uninterested fish: a horizontal step on
      frames divisible by 2 + size class, with a bounce at the edges, and on
      those frames that are also divisible by 30 a vertical drift that is
      kept only inside the depth band. */
  function Swim(f: Fish, frame: Uint8, drift: Uint8): (g: Fish)
    ensures g == f.(x := g.x, y := g.y, right := g.right)
    ensures g.y != f.y ==> DEPTH_TOP <= g.y <= DEPTH_BOTTOM && Abs(g.y - f.y) == 1
  {
    if frame % (2 + f.kind) == 0 then
      var g := if Bounces(f) then
                 f.(right := !f.right, x := Wrap8(f.x + (if !f.right then BOUNCE_NUDGE else -BOUNCE_NUDGE)))
               else f.(x := SwimNextX(f));
      if frame % 30 == 0 && DEPTH_TOP <= g.y + DriftMove(drift) <= DEPTH_BOTTOM then
        g.(y := g.y + DriftMove(drift))
      else g
    else f
  }

  /** Off its cadence a swimming fish stays put. On it, a next position past
      16 or 152 turns the fish round and nudges it 4 pixels in its new
      direction; otherwise it moves by its speed. Depth changes only on
      frames divisible by 30, by one pixel, and only to a depth inside
      [95, 135]. Nothing but position and direction changes. */
  lemma SwimStep(f: Fish, frame: Uint8, drift: Uint8)
    ensures var g := Swim(f, frame, drift);
      (frame % (2 + f.kind) != 0 ==> g == f) &&
      (frame % (2 + f.kind) == 0 ==>
         if Bounces(f) then g.right == !f.right && g.x == Wrap8(f.x + (if g.right then BOUNCE_NUDGE else -BOUNCE_NUDGE))
         else g.right == f.right && g.x == SwimNextX(f)) &&
      (g.y != f.y ==> frame % 30 == 0 && DEPTH_TOP <= g.y <= DEPTH_BOTTOM && Abs(g.y - f.y) == 1) &&
      g == f.(x := g.x, y := g.y, right := g.right)
  {
  }

  /** A fish swimming between the bounce walls at speed at most 2 stays
      between them. */
  lemma SwimStaysBetweenWalls(f: Fish, frame: Uint8, drift: Uint8)
    requires SWIM_MIN_X <= f.x <= SWIM_MAX_X && f.speed <= 2
    ensures SWIM_MIN_X <= Swim(f, frame, drift).x <= SWIM_MAX_X
  {
  }

  // ---------------------------------------------------------------- hooked

  /** A hooked fish: it rides the lure while the player reels; on a slack
      line it jitters on every eighth frame, and then escapes when the
      escape draw is below 2 out of 100, freeing the world interest flag.
      Only its position and, on an escape, its live and hooked flags
      change; the other slots and the score stay, and the world flag stays
      unless the fish escapes. */
  function Struggle(p: Pond, i: nat, env: Surroundings, d: FishDraws): (r: Pond)
    requires i < |p.fish|
    ensures |r.fish| == |p.fish| && r.score == p.score
    ensures forall j :: 0 <= j < |p.fish| && j != i ==> r.fish[j] == p.fish[j]
    ensures var f, g := p.fish[i], r.fish[i];
      g == f.(x := g.x, y := g.y, hooked := g.hooked, active := g.active) &&
      ((g.active == f.active && g.hooked == f.hooked && r.interested == p.interested) ||
       (!g.active && !g.hooked && !r.interested))
  {
    var f := p.fish[i];
    if env.reeling then
      Pond(p.fish[i := f.(x := env.lureX, y := env.lureY)], p.interested, p.score)
    else if env.frame % 8 == 0 then
      var g := f.(x := Wrap8(f.x + d.jitterX % 3 - 1), y := Wrap8(f.y + d.jitterY % 3 - 1));
      if d.escape % 100 < ESCAPE_PERCENT then
        Pond(p.fish[i := g.(hooked := false, active := false)], false, p.score)
      else
        Pond(p.fish[i := g], p.interested, p.score)
    else p
  }

  // ---------------------------------------------------------------- one slot

  /** handle_fish's loop body for slot i. Every other slot can only lose
      its interest, and the score either stays or gains the 10 points of a
      bite. */
  function FishStep(p: Pond, i: nat, env: Surroundings, d: FishDraws): (r: Pond)
    requires i < |p.fish|
    ensures |r.fish| == |p.fish|
    ensures forall j :: 0 <= j < |p.fish| && j != i ==> AtMostForgets(p.fish[j], r.fish[j])
    ensures r.score == p.score || r.score == Wrap16(p.score + BITE_POINTS)
  {
    var f := p.fish[i];
    if f.active then
      if !f.hooked then
        if Attracted(p, f, env) then Pursue(p, i, env)
        else Pond(p.fish[i := Swim(f, env.frame, d.drift)], p.interested, p.score)
      else Struggle(p, i, env, d)
    else if d.trial % SPAWN_ODDS == 0 then
      Pond(p.fish[i := Spawned(f, d.spawn)], p.interested, p.score)
    else p
  }

  /** handle_fish over the first n slots, in slot order. The slots from n
      on are not yet visited, and can only have lost their interest to a
      bite in an earlier slot. */
  function FishRound(p: Pond, env: Surroundings, draws: seq<FishDraws>, n: nat): (r: Pond)
    requires n <= |p.fish| && n <= |draws|
    ensures |r.fish| == |p.fish|
    ensures forall j :: n <= j < |p.fish| ==> AtMostForgets(p.fish[j], r.fish[j])
    decreases n
  {
    if n == 0 then p
    else FishStep(FishRound(p, env, draws, n - 1), n - 1, env, draws[n - 1])
  }

  /** A free, uninterested live fish becomes interested exactly when no
      fish holds the world interest flag, the lure has landed and it is
      within 16 pixels of the lure on both axes. */
  lemma InterestGate(p: Pond, i: nat, env: Surroundings, d: FishDraws)
    requires i < |p.fish|
    requires p.fish[i].active && !p.fish[i].hooked && !p.fish[i].interested
    ensures FishStep(p, i, env, d).fish[i].interested <==>
      !p.interested && env.phase == Landed &&
      DistX(p.fish[i], env) < FISH_INTEREST_RADIUS && DistY(p.fish[i], env) < FISH_INTEREST_RADIUS
  {
  }

  /** A pursuing fish moves one pixel toward the lure on each axis it is
      not aligned on, and on no other; it and the world flag keep the
      interest unless it started more than 26 pixels away on an axis. */
  lemma PursuitStep(p: Pond, i: nat, env: Surroundings, d: FishDraws)
    requires i < |p.fish|
    requires p.fish[i].active && !p.fish[i].hooked && Attracted(p, p.fish[i], env)
    ensures var f, r := p.fish[i], FishStep(p, i, env, d);
      var g := r.fish[i];
      Abs(g.x - f.x) <= 1 && Abs(g.y - f.y) <= 1 &&
      DistX(g, env) == (if f.x == env.lureX then 0 else DistX(f, env) - 1) &&
      DistY(g, env) == (if f.y == env.lureY then 0 else DistY(f, env) - 1) &&
      g.interested == !LosesInterest(f, env) && r.interested == !LosesInterest(f, env)
  {
  }

  /** A free live fish is hooked in a step exactly when it pursues the lure
      and is within 16 pixels of it on both axes while the player reels.
      Hooking scores 10 and makes every other live fish lose interest;
      otherwise the score and the other slots are untouched. */
  lemma Hooking(p: Pond, i: nat, env: Surroundings, d: FishDraws)
    requires i < |p.fish|
    requires p.fish[i].active && !p.fish[i].hooked
    ensures var f, r := p.fish[i], FishStep(p, i, env, d);
      (r.fish[i].hooked <==> Attracted(p, f, env) && Bites(f, env)) &&
      (r.fish[i].hooked ==>
         r.score == Wrap16(p.score + BITE_POINTS) &&
         forall j :: 0 <= j < |p.fish| && j != i ==>
           r.fish[j] == if p.fish[j].active then p.fish[j].(interested := false) else p.fish[j]) &&
      (!r.fish[i].hooked ==>
         r.score == p.score && forall j :: 0 <= j < |p.fish| && j != i ==> r.fish[j] == p.fish[j])
  {
  }

  /** A free live fish the lure does not attract stays free, live and
      uninterested and moves only as it swims; the other slots, the world
      interest flag and the score are untouched. */
  lemma SwimmingSlot(p: Pond, i: nat, env: Surroundings, d: FishDraws)
    requires i < |p.fish|
    requires p.fish[i].active && !p.fish[i].hooked && !Attracted(p, p.fish[i], env)
    ensures var f, r := p.fish[i], FishStep(p, i, env, d);
      r.fish[i].active && !r.fish[i].hooked && !r.fish[i].interested &&
      r.fish[i] == f.(x := r.fish[i].x, y := r.fish[i].y, right := r.fish[i].right) &&
      r.fish[i] == Swim(f, env.frame, d.drift) &&
      r.interested == p.interested && r.score == p.score &&
      forall j :: 0 <= j < |p.fish| && j != i ==> r.fish[j] == p.fish[j]
  {
  }

  /** While the player reels, a hooked fish sits exactly on the lure. */
  lemma HookedFollowsLure(p: Pond, i: nat, env: Surroundings, d: FishDraws)
    requires i < |p.fish| && p.fish[i].active && p.fish[i].hooked && env.reeling
    ensures var r := FishStep(p, i, env, d);
      r.fish[i].x == env.lureX && r.fish[i].y == env.lureY && r.fish[i].hooked &&
      r.interested == p.interested && r.score == p.score &&
      forall j :: 0 <= j < |p.fish| && j != i ==> r.fish[j] == p.fish[j]
  {
  }

  /** On a slack line a hooked fish moves only on every eighth frame; it
      escapes exactly when the escape draw is below 2 (mod 100), which frees
      the slot and the world interest flag but leaves the fish's own
      interest flag as it was. */
  lemma SlackLine(p: Pond, i: nat, env: Surroundings, d: FishDraws)
    requires i < |p.fish| && p.fish[i].active && p.fish[i].hooked && !env.reeling
    ensures var f, r := p.fish[i], FishStep(p, i, env, d);
      (env.frame % 8 != 0 ==> r == p) &&
      (env.frame % 8 == 0 ==>
         r.fish[i].x == Wrap8(f.x + d.jitterX % 3 - 1) && r.fish[i].y == Wrap8(f.y + d.jitterY % 3 - 1) &&
         (r.fish[i].active <==> d.escape % 100 >= ESCAPE_PERCENT) &&
         (!r.fish[i].active ==> !r.fish[i].hooked && !r.interested && r.fish[i].interested == f.interested) &&
         (r.fish[i].active ==> r.fish[i].hooked && r.interested == p.interested)) &&
      r.score == p.score
  {
  }

  /** An empty slot comes alive exactly when the trial draw is divisible
      by 60, and then holds the spawned fish; a slot that stays empty is
      left as it was, and neither case touches the other slots, the world
      interest flag or the score. */
  lemma SpawnSlot(p: Pond, i: nat, env: Surroundings, d: FishDraws)
    requires i < |p.fish| && !p.fish[i].active
    ensures var r := FishStep(p, i, env, d);
      (r.fish[i].active <==> d.trial % SPAWN_ODDS == 0) &&
      (r.fish[i].active ==> r.fish[i] == Spawned(p.fish[i], d.spawn)) &&
      (!r.fish[i].active ==> r.fish[i] == p.fish[i]) &&
      r.interested == p.interested && r.score == p.score &&
      forall j :: 0 <= j < |p.fish| && j != i ==> r.fish[j] == p.fish[j]
  {
  }

  lemma {:induction false} FishStepKeepsWellFormed(p: Pond, i: nat, env: Surroundings, d: FishDraws)
    requires i < |p.fish| && AllWellFormed(p.fish)
    ensures AllWellFormed(FishStep(p, i, env, d).fish)
  {
    var r := FishStep(p, i, env, d);
    forall j | 0 <= j < |r.fish|
      ensures WellFormed(r.fish[j])
    {
      assert WellFormed(p.fish[j]);
      assert WellFormed(p.fish[i]);
    }
  }

  /** Every fish slot keeps its shape through handle_fish. */
  lemma {:induction false} FishRoundKeepsWellFormed(p: Pond, env: Surroundings, draws: seq<FishDraws>, n: nat)
    requires n <= |p.fish| && n <= |draws| && AllWellFormed(p.fish)
    ensures AllWellFormed(FishRound(p, env, draws, n).fish)
    decreases n
  {
    if n > 0 {
      FishRoundKeepsWellFormed(p, env, draws, n - 1);
      FishStepKeepsWellFormed(FishRound(p, env, draws, n - 1), n - 1, env, draws[n - 1]);
    }
  }

  // ---------------------------------------------------------------- catch

  /** The points of a landed fish: 100 per size class, starting at 100, so
      a multiple of 100 and, for the three size classes, 300 at most. */
  function CatchPoints(kind: Uint8): (r: nat)
    ensures r >= 100 && r % 100 == 0 && (kind <= 2 ==> r <= 300)
  {
    (kind + 1) * 100
  }

  predicate OnHook(f: Fish) {
    f.active && f.hooked
  }

  /** Slot k holds the first live hooked fish, the one handle_catch lands. */
  predicate FirstOnHook(fish: seq<Fish>, k: int) {
    0 <= k < |fish| && OnHook(fish[k]) && forall j :: 0 <= j < k ==> !OnHook(fish[j])
  }

  predicate NoneOnHook(fish: seq<Fish>) {
    forall j :: 0 <= j < |fish| ==> !OnHook(fish[j])
  }

  /** The catch lands at most one fish: either no fish is on the hook, or
      exactly one slot is the first hooked one. */
  lemma {:induction false} OneCatch(fish: seq<Fish>)
    ensures NoneOnHook(fish) <==> !exists k :: FirstOnHook(fish, k)
    ensures forall k1, k2 :: FirstOnHook(fish, k1) && FirstOnHook(fish, k2) ==> k1 == k2
    decreases |fish|
  {
    if !NoneOnHook(fish) {
      var j :| 0 <= j < |fish| && OnHook(fish[j]);
      FirstOnHookBelow(fish, j);
    }
  }

  /** Below any hooked slot there is a first hooked slot. */
  lemma {:induction false} FirstOnHookBelow(fish: seq<Fish>, j: int)
    requires 0 <= j < |fish| && OnHook(fish[j])
    ensures exists k :: 0 <= k <= j && FirstOnHook(fish, k)
    decreases j
  {
    if forall i :: 0 <= i < j ==> !OnHook(fish[i]) {
      assert FirstOnHook(fish, j);
    } else {
      var i :| 0 <= i < j && OnHook(fish[i]);
      FirstOnHookBelow(fish, i);
    }
  }
}
