/** Screen regions: the bounded, ordered region list, the region sets the
    title, gameplay and pause screens install, and the tile animation that
    update_animated_region advances. The update callback becomes the
    tag RegionUpdate; the animation field becomes a flag, since the only
    animation a region can point to is the water animation. */
module Regions {
  import opened CInt

  const MAX_REGIONS := 8
  const SCREEN_WIDTH := 20
  const SCREEN_HEIGHT := 18

  const LAYER_BKG: Uint8 := 0x01
  const LAYER_WINDOW: Uint8 := 0x02
  const LAYER_SPRITE: Uint8 := 0x04
  const PROP_NONE: bv8 := 0x00
  const PROP_ANIMATED: bv8 := 0x10
  const PROP_PERSIST: bv8 := 0x20
  const PROP_PRIORITY: bv8 := 0x40
  const PROP_TEXT: bv8 := 0x80

  /** The update callback: NULL or update_animated_region. */
  datatype RegionUpdate = NoUpdate | AnimateTiles

  /** What add_region writes into a slot. */
  datatype Layout = Layout(x: Uint8, y: Uint8, width: Uint8, height: Uint8, layer: Uint8,
                           properties: bv8, tileStart: Uint8, tileCount: Uint8, update: RegionUpdate)

  /** struct ScreenRegion: the layout and whether its animation field is
      set. add_region does not write the animation field. */
  datatype Region = Region(layout: Layout, animated: bool)

  /** struct TileAnimation; frameTiles stands for the frame_tiles array. */
  datatype TileAnimation = TileAnimation(numFrames: Uint8, frameTiles: seq<Uint8>, currentFrame: Uint8,
                                         frameDelay: Uint8, frameCounter: Uint8)

  /** water_anim as statically initialised. */
  const WATER_ANIMATION := TileAnimation(2, [130, 131], 0, 30, 0)

  const SKY_TITLE := Layout(0, 0, SCREEN_WIDTH, 10, LAYER_BKG, PROP_NONE, 128, 1, NoUpdate)
  const WATER := Layout(0, 10, SCREEN_WIDTH, 8, LAYER_BKG, PROP_ANIMATED, 130, 2, AnimateTiles)
  const TITLE_TEXT := Layout(6, 4, 7, 1, LAYER_BKG, PROP_TEXT, 0, 0, NoUpdate)
  const START_TEXT := Layout(5, 8, 10, 1, LAYER_BKG, PROP_TEXT, 0, 0, NoUpdate)
  const HIGH_SCORE_TEXT := Layout(7, 11, 10, 1, LAYER_BKG, PROP_TEXT, 0, 0, NoUpdate)
  const SKY_GAMEPLAY := Layout(0, 0, SCREEN_WIDTH, 9, LAYER_BKG, PROP_NONE, 128, 1, NoUpdate)
  const SCORE_TEXT := Layout(1, 1, 10, 1, LAYER_BKG, PROP_TEXT | PROP_PERSIST, 0, 0, NoUpdate)
  const PAUSE_TEXT := Layout(6, 8, 9, 1, LAYER_BKG, PROP_TEXT | PROP_PERSIST, 0, 0, NoUpdate)

  /** The region the water animation is attached to on both screens. */
  const WATER_SLOT := 1

  predicate IsText(l: Layout) {
    l.properties & PROP_TEXT != 0
  }

  /** update_regions runs this region's callback. */
  predicate Updatable(l: Layout) {
    l.update == AnimateTiles && l.properties & PROP_ANIMATED != 0
  }

  /** What update_animated_region needs of its region: a row fits the
      SCREEN_WIDTH row buffer, and the uint8_t row counter reaches the end
      of the region without wrapping. */
  predicate Fits(l: Layout) {
    l.width <= SCREEN_WIDTH && l.y + l.height <= 0xFF
  }

  predicate CoversRow(l: Layout, y: int) {
    l.y <= y < l.y + l.height
  }

  predicate InRect(l: Layout, col: int, row: int) {
    l.x <= col < l.x + l.width && CoversRow(l, row)
  }

  /** Some text region of the list covers row y. */
  predicate TextRow(regions: seq<Region>, y: int) {
    exists i :: 0 <= i < |regions| && IsText(regions[i].layout) && CoversRow(regions[i].layout, y)
  }

  /** Adding a region to the list makes row y a text row exactly when the
      new region is a text region covering it, or the row was one already;
      so only text regions decide which rows are skipped. */
  lemma TextRowAppend(regions: seq<Region>, r: Region, y: int)
    ensures TextRow(regions + [r], y) <==> TextRow(regions, y) || (IsText(r.layout) && CoversRow(r.layout, y))
  {
    var s := regions + [r];
    assert s[|regions|] == r;
    assert forall i :: 0 <= i < |regions| ==> s[i] == regions[i];
  }

  // ---------------------------------------------------------------- the list

  /** The region count after add_region: unchanged once the list is full. */
  function AfterAdd(n: int): int {
    if n < MAX_REGIONS then n + 1 else n
  }

  /** The region count after remove_pause. */
  function AfterRemove(n: int): int {
    if n > 0 then n - 1 else n
  }

  /** The slots after add_region with n regions in the list: slot n takes
      the layout and keeps its animation field, every other slot stays, and
      a full list is left as it is. */
  function WithRegion(regions: seq<Region>, n: int, l: Layout): (r: seq<Region>)
    ensures |r| == |regions|
    ensures forall j :: 0 <= j < |regions| ==> r[j].animated == regions[j].animated
    ensures forall j :: 0 <= j < |regions| && j != n ==> r[j] == regions[j]
    ensures n >= MAX_REGIONS ==> r == regions
  {
    if 0 <= n < MAX_REGIONS && n < |regions| then regions[n := Region(l, regions[n].animated)] else regions
  }

  /** The slots after clear_regions and one add_region per layout. No
      animation field changes, and the slots past the layouts stay. */
  function Installed(regions: seq<Region>, layouts: seq<Layout>): (r: seq<Region>)
    ensures |r| == |regions|
    ensures forall j :: 0 <= j < |regions| ==> r[j].animated == regions[j].animated
    ensures forall j :: |layouts| <= j < |regions| ==> r[j] == regions[j]
    decreases |layouts|
  {
    if layouts == [] then regions
    else WithRegion(Installed(regions, layouts[..|layouts| - 1]), |layouts| - 1, layouts[|layouts| - 1])
  }

  function TitleLayouts(): seq<Layout> {
    [SKY_TITLE, WATER, TITLE_TEXT, START_TEXT, HIGH_SCORE_TEXT]
  }

  function GameplayLayouts(): seq<Layout> {
    [SKY_GAMEPLAY, WATER, SCORE_TEXT]
  }

  /** The slots display_title leaves (the water region gets the animation). */
  function TitleRegions(regions: seq<Region>): seq<Region>
    requires |regions| == MAX_REGIONS
  {
    Installed(regions, TitleLayouts())[WATER_SLOT := Region(WATER, true)]
  }

  /** The slots display_gameplay leaves. */
  function GameplayRegions(regions: seq<Region>): seq<Region>
    requires |regions| == MAX_REGIONS
  {
    Installed(regions, GameplayLayouts())[WATER_SLOT := Region(WATER, true)]
  }

  /** add_region fills slot n with the layout, keeping the slot's
      animation field, and leaves every other slot; a full list is left
      as it is. */
  lemma {:induction false} InstalledSlots(regions: seq<Region>, layouts: seq<Layout>)
    requires |layouts| <= |regions| && |layouts| <= MAX_REGIONS
    ensures forall i :: 0 <= i < |layouts| ==> Installed(regions, layouts)[i] == Region(layouts[i], regions[i].animated)
    ensures forall i :: |layouts| <= i < |regions| ==> Installed(regions, layouts)[i] == regions[i]
    decreases |layouts|
  {
    if layouts != [] {
      InstalledSlots(regions, layouts[..|layouts| - 1]);
    }
  }

  /** The gameplay screen always has the same three regions, the sky, the
      animated water (rows 10 to 17) and the score text, whatever the list
      held before; installing it again changes nothing. */
  lemma GameplayRegionSet(regions: seq<Region>)
    requires |regions| == MAX_REGIONS
    ensures var g := GameplayRegions(regions);
      g[0].layout == SKY_GAMEPLAY && g[1] == Region(WATER, true) && g[2].layout == SCORE_TEXT &&
      g[0].animated == regions[0].animated && g[2].animated == regions[2].animated &&
      g[3..] == regions[3..] && GameplayRegions(g) == g
  {
    InstalledSlots(regions, GameplayLayouts());
    var g := GameplayRegions(regions);
    InstalledSlots(g, GameplayLayouts());
    assert GameplayRegions(g) == g;
  }

  /** The title screen holds the sky, the animated water and three text
      lines. */
  lemma TitleRegionSet(regions: seq<Region>)
    requires |regions| == MAX_REGIONS
    ensures var t := TitleRegions(regions);
      t[0].layout == SKY_TITLE && t[1] == Region(WATER, true) && t[2].layout == TITLE_TEXT &&
      t[3].layout == START_TEXT && t[4].layout == HIGH_SCORE_TEXT && t[5..] == regions[5..]
  {
    InstalledSlots(regions, TitleLayouts());
  }

  /** Text rows shield the water: during play no text row meets the water
      rows, so all of them are repainted, while on the title screen the
      high-score line keeps row 11 of the water from being repainted. */
  lemma WaterRowsAndText(regions: seq<Region>)
    requires |regions| == MAX_REGIONS
    ensures forall y :: WATER.y <= y < WATER.y + WATER.height ==>
      !TextRow(GameplayRegions(regions)[..3], y) &&
      !TextRow(GameplayRegions(regions)[..3] + [Region(PAUSE_TEXT, false)], y)
    ensures TextRow(TitleRegions(regions)[..5], 11)
  {
    GameplayRegionSet(regions);
    TitleRegionSet(regions);
    var t := TitleRegions(regions)[..5];
    assert IsText(t[4].layout) && CoversRow(t[4].layout, 11);
    forall y | WATER.y <= y < WATER.y + WATER.height
      ensures !TextRow(GameplayRegions(regions)[..3], y)
      ensures !TextRow(GameplayRegions(regions)[..3] + [Region(PAUSE_TEXT, false)], y)
    {
      var g := GameplayRegions(regions)[..3] + [Region(PAUSE_TEXT, false)];
      assert g[0].layout == SKY_GAMEPLAY && g[1].layout == WATER && g[2].layout == SCORE_TEXT && g[3].layout == PAUSE_TEXT;
    }
  }

  /** Pausing shows the pause text as the last live region; resuming then
      restores the live list as it was. On a full list the pause text is
      not added, and resuming drops the last region instead. */
  lemma PauseRoundTrip(regions: seq<Region>, n: int)
    requires |regions| == MAX_REGIONS && 0 <= n <= MAX_REGIONS
    ensures AfterRemove(AfterAdd(n)) == n <==> n < MAX_REGIONS
    ensures AfterAdd(n) <= MAX_REGIONS
    ensures var paused := WithRegion(regions, n, PAUSE_TEXT);
      if n < MAX_REGIONS then
        paused[..AfterAdd(n)] == regions[..n] + [Region(PAUSE_TEXT, regions[n].animated)] &&
        paused[..AfterRemove(AfterAdd(n))] == regions[..n]
      else
        paused == regions && paused[..AfterRemove(AfterAdd(n))] == regions[..n - 1]
  {
    var paused := WithRegion(regions, n, PAUSE_TEXT);
    if n < MAX_REGIONS {
      assert paused[..n + 1] == paused[..n] + [paused[n]];
      assert paused[..n] == regions[..n];
    }
  }

  // ---------------------------------------------------------------- animation

  predicate AnimationWellFormed(a: TileAnimation) {
    0 < a.numFrames && a.numFrames as int <= |a.frameTiles| &&
    a.currentFrame < a.numFrames && a.frameCounter < a.frameDelay
  }

  /** This call of update_animated_region moves to the next frame. */
  predicate Turns(a: TileAnimation) {
    Wrap8(a.frameCounter + 1) >= a.frameDelay
  }

  /** The counter step of update_animated_region. */
  function Advance(a: TileAnimation): TileAnimation
    requires a.numFrames > 0
  {
    var c := Wrap8(a.frameCounter + 1);
    if c >= a.frameDelay then a.(frameCounter := 0, currentFrame := (a.currentFrame + 1) % a.numFrames)
    else a.(frameCounter := c)
  }

  function CurrentTile(a: TileAnimation): Uint8
    requires AnimationWellFormed(a)
  {
    a.frameTiles[a.currentFrame]
  }

  /** The tile shown after one more call. */
  function NextTile(a: TileAnimation): Uint8
    requires AnimationWellFormed(a)
  {
    AdvanceStep(a);
    CurrentTile(Advance(a))
  }

  /** Each call adds one to the frame counter, except that reaching the
      frame delay resets it to 0 and moves to the next frame, wrapping past
      the last; frame and counter stay in range. */
  lemma AdvanceStep(a: TileAnimation)
    requires AnimationWellFormed(a)
    ensures var b := Advance(a);
      AnimationWellFormed(b) && b.frameTiles == a.frameTiles &&
      (Turns(a) <==> a.frameCounter + 1 == a.frameDelay) &&
      (Turns(a) ==> b.frameCounter == 0 && b.currentFrame == (a.currentFrame + 1) % a.numFrames) &&
      (!Turns(a) ==> b.frameCounter == a.frameCounter + 1 && b.currentFrame == a.currentFrame)
  {
  }

  /** The animation after n calls. */
  function AdvanceTimes(a: TileAnimation, n: nat): (r: TileAnimation)
    requires AnimationWellFormed(a)
    ensures AnimationWellFormed(r) && r.frameTiles == a.frameTiles && r.numFrames == a.numFrames
    decreases n
  {
    if n == 0 then a
    else
      var b := AdvanceTimes(a, n - 1);
      AdvanceStep(b);
      Advance(b)
  }

  /** The animation shows each frame for exactly frame_delay calls: from
      any state, the frame stays for the calls that remain until the
      counter reaches the delay, and the next call moves on with the
      counter back at 0. */
  lemma {:induction false} AnimationPeriod(a: TileAnimation, k: nat)
    requires AnimationWellFormed(a) && a.frameCounter + k < a.frameDelay
    ensures AdvanceTimes(a, k) == a.(frameCounter := a.frameCounter + k)
    ensures a.frameCounter + k + 1 == a.frameDelay ==>
      AdvanceTimes(a, k + 1) == a.(frameCounter := 0, currentFrame := (a.currentFrame + 1) % a.numFrames)
    decreases k
  {
    if k > 0 {
      AnimationPeriod(a, k - 1);
    }
    AdvanceStep(AdvanceTimes(a, k));
  }

  // ---------------------------------------------------------------- update_regions

  /** update_regions runs the callback of this region and the callback
      finds an animation to advance. */
  predicate Animated(r: Region) {
    Updatable(r.layout) && r.animated
  }

  /** How many times one update_regions pass advances the animation. */
  function AnimatedCount(regions: seq<Region>): nat
    decreases |regions|
  {
    if regions == [] then 0
    else AnimatedCount(regions[..|regions| - 1]) + (if Animated(regions[|regions| - 1]) then 1 else 0)
  }

  /** Cell (col, row) lies in one of the first n regions that animate. */
  predicate RepaintedBy(regions: seq<Region>, n: int, col: int, row: int) {
    exists i :: 0 <= i < n && i < |regions| && Animated(regions[i]) && InRect(regions[i].layout, col, row)
  }

  /** A list that never advances the animation holds no animated region. */
  lemma {:induction false} CountZero(regions: seq<Region>)
    ensures AnimatedCount(regions) == 0 ==> forall j :: 0 <= j < |regions| ==> !Animated(regions[j])
    decreases |regions|
  {
    if regions != [] {
      var front := regions[..|regions| - 1];
      assert forall j :: 0 <= j < |front| ==> front[j] == regions[j];
      CountZero(front);
    }
  }

  /** Region k is the only region of the list that animates. */
  predicate OnlyAnimated(regions: seq<Region>, k: int) {
    0 <= k < |regions| && forall j :: 0 <= j < |regions| ==> (Animated(regions[j]) <==> j == k)
  }

  /** A list that advances the animation once has exactly one animated
      region. */
  lemma {:induction false} CountOne(regions: seq<Region>) returns (k: int)
    requires AnimatedCount(regions) == 1
    ensures OnlyAnimated(regions, k)
    decreases |regions|
  {
    var front := regions[..|regions| - 1];
    assert forall j :: 0 <= j < |front| ==> front[j] == regions[j];
    if Animated(regions[|regions| - 1]) {
      CountZero(front);
      k := |regions| - 1;
    } else {
      k := CountOne(front);
    }
  }

  /** The tile of cell (col, row) once the callbacks of regions i onward
      have run, from animation a and tile t: each animated region advances
      the animation, and on a frame change repaints the cell if it lies in
      the region on a row no text region covers. */
  function RepaintFrom(regions: seq<Region>, i: nat, a: TileAnimation, t: Uint8, col: int, row: int): Uint8
    requires i <= |regions| && AnimationWellFormed(a)
    decreases |regions| - i
  {
    if i == |regions| then t
    else if Animated(regions[i]) then
      AdvanceStep(a);
      RepaintFrom(regions, i + 1, Advance(a),
                  if Turns(a) && InRect(regions[i].layout, col, row) && !TextRow(regions, row) then NextTile(a) else t,
                  col, row)
    else RepaintFrom(regions, i + 1, a, t, col, row)
  }

  /** One region's callback in RepaintFrom, with the animation and the
      tile it leaves. */
  lemma RepaintStep(regions: seq<Region>, i: nat, a: TileAnimation, b: TileAnimation, t: Uint8, u: Uint8, col: int, row: int)
    requires i < |regions| && AnimationWellFormed(a)
    requires b == if Animated(regions[i]) then Advance(a) else a
    requires u == if Animated(regions[i]) && Turns(a) && InRect(regions[i].layout, col, row) && !TextRow(regions, row)
                  then NextTile(a) else t
    ensures AnimationWellFormed(b) && RepaintFrom(regions, i, a, t, col, row) == RepaintFrom(regions, i + 1, b, u, col, row)
  {
    AdvanceStep(a);
  }

  /** A cell on a text row, or under no animated region from i onward,
      keeps its tile. */
  lemma {:induction false} RepaintKeeps(regions: seq<Region>, i: nat, a: TileAnimation, t: Uint8, col: int, row: int)
    requires i <= |regions| && AnimationWellFormed(a)
    requires TextRow(regions, row) ||
      forall j :: i <= j < |regions| ==> !(Animated(regions[j]) && InRect(regions[j].layout, col, row))
    ensures RepaintFrom(regions, i, a, t, col, row) == t
    decreases |regions| - i
  {
    if i < |regions| {
      AdvanceStep(a);
      if Animated(regions[i]) {
        RepaintKeeps(regions, i + 1, Advance(a), t, col, row);
      } else {
        RepaintKeeps(regions, i + 1, a, t, col, row);
      }
    }
  }

  /** A repainted cell shows one of the animation's tiles. */
  lemma {:induction false} RepaintTiles(regions: seq<Region>, i: nat, a: TileAnimation, t: Uint8, col: int, row: int)
    requires i <= |regions| && AnimationWellFormed(a)
    ensures var r := RepaintFrom(regions, i, a, t, col, row); r == t || r in a.frameTiles
    decreases |regions| - i
  {
    if i < |regions| {
      AdvanceStep(a);
      var b := Advance(a);
      if Animated(regions[i]) {
        var t' := if Turns(a) && InRect(regions[i].layout, col, row) && !TextRow(regions, row) then NextTile(a) else t;
        RepaintTiles(regions, i + 1, b, t', col, row);
      } else {
        RepaintTiles(regions, i + 1, a, t, col, row);
      }
    }
  }

  /** With k the only animated region from i onward, a cell of region k on
      a row without text shows the tile of the frame after a if that call
      turns the frame, and keeps its tile otherwise. */
  lemma {:induction false} RepaintOnce(regions: seq<Region>, i: nat, k: int, a: TileAnimation, t: Uint8, col: int, row: int)
    requires i <= k < |regions| && AnimationWellFormed(a)
    requires forall j :: i <= j < |regions| ==> (Animated(regions[j]) <==> j == k)
    requires InRect(regions[k].layout, col, row) && !TextRow(regions, row)
    ensures RepaintFrom(regions, i, a, t, col, row) == if Turns(a) then NextTile(a) else t
    decreases k - i
  {
    AdvanceStep(a);
    if i < k {
      RepaintOnce(regions, i + 1, k, a, t, col, row);
    } else {
      RepaintKeeps(regions, i + 1, Advance(a), if Turns(a) then NextTile(a) else t, col, row);
    }
  }

  /** A list in which only slot k animates advances the animation once. */
  lemma {:induction false} CountSingle(regions: seq<Region>, k: int)
    requires forall i :: 0 <= i < |regions| ==> (Animated(regions[i]) <==> i == k)
    ensures AnimatedCount(regions) == if 0 <= k < |regions| then 1 else 0
    decreases |regions|
  {
    if regions != [] {
      var front := regions[..|regions| - 1];
      assert forall i :: 0 <= i < |front| ==> front[i] == regions[i];
      CountSingle(front, k);
    }
  }

  /** On every screen the water is the one region that animates, so the
      water tiles change once every frame_delay frames. */
  lemma WaterAnimatesOnce(regions: seq<Region>, animated: bool)
    requires |regions| == MAX_REGIONS
    ensures AnimatedCount(TitleRegions(regions)[..5]) == 1
    ensures AnimatedCount(GameplayRegions(regions)[..3]) == 1
    ensures AnimatedCount(GameplayRegions(regions)[..3] + [Region(PAUSE_TEXT, animated)]) == 1
  {
    TitleRegionSet(regions);
    GameplayRegionSet(regions);
    CountSingle(TitleRegions(regions)[..5], WATER_SLOT);
    CountSingle(GameplayRegions(regions)[..3], WATER_SLOT);
    CountSingle(GameplayRegions(regions)[..3] + [Region(PAUSE_TEXT, animated)], WATER_SLOT);
  }
}
