/** The game record and the routines that update it in place, one frame at
    a time. Joypad reads and rand() results are parameters; sprite moves,
    tile uploads and text output are not recorded; background tile writes
    are recorded in `bkg`, the 20x18 visible part of the tile map. */
module FishingGame {
  import opened CInt
  import opened Buttons
  import opened LurePhysics
  import opened Reel
  import opened FishBehavior
  import opened Regions
  import opened Player
  import opened Presentation
  import opened Controls

  const SKY_TILE: Uint8 := 128
  const CLOUD_TILE: Uint8 := 129
  const WATER_TILE: Uint8 := 130
  const PIER_TOP_TILE: Uint8 := 132
  const PIER_POST_TILE: Uint8 := 133
  const FISH_SLOTS := 3
  const FIRST_LINE_SPRITE := 4
  const FIRST_FISH_SPRITE := 13

  /** struct LineSegment. */
  datatype LineSegment = LineSegment(x: Uint8, y: Uint8, active: bool, spriteId: Uint8)

  /** The rand() results one pass of the main loop may consume: those of
      the catch inside update_game, those handle_fish draws per slot, and
      those of the second handle_catch of the STATE_CATCH case. */
  datatype FrameDraws = FrameDraws(catchSpawn: SpawnDraws, fish: seq<FishDraws>, lateCatchSpawn: SpawnDraws)

  /** The layout of a slot memset to zero. */
  const EMPTY_LAYOUT := Layout(0, 0, 0, 0, 0, 0, 0, 0, NoUpdate)

  /** The tile display_title puts in every cell of a row: sky above row 10,
      then water alternating between tiles 130 and 131. */
  function TitleBackdrop(row: int): (t: Uint8)
    ensures row < 10 ==> t == SKY_TILE
    ensures row >= 10 ==> t in {WATER_TILE, WATER_TILE + 1} && (t == WATER_TILE <==> row % 2 == 0)
  {
    if row < 10 then SKY_TILE else WATER_TILE + row % 2
  }

  /** The five cloud cells init_background draws into the sky. */
  predicate CloudAt(col: int, row: int) {
    (row == 2 && (col == 3 || col == 11 || col == 18)) || (row == 3 && (col == 7 || col == 15))
  }

  /** init_background's sky loop: rows 0 to 8, clouds on them. */
  function SkyTileAt(col: int, row: int, prev: Uint8): Uint8 {
    if row < 9 then (if CloudAt(col, row) then CLOUD_TILE else SKY_TILE) else prev
  }

  /** init_background's pier loop: the pier top on row 9 and the two posts
      on rows 10 to 13, over the first six columns. */
  function PierTileAt(col: int, row: int, prev: Uint8): Uint8 {
    if row == 9 && 0 <= col < 6 then PIER_TOP_TILE
    else if (col == 0 || col == 5) && 10 <= row < 14 then PIER_POST_TILE
    else prev
  }

  /** init_background's water loop: rows 10 to 17 alternating the two
      water tiles, skipping the pier's six cells of row 10. */
  function WaterTileAt(col: int, row: int, prev: Uint8): Uint8 {
    if 10 <= row < 18 && !(col < 6 && row == 10) then WATER_TILE + row % 2 else prev
  }

  /** The tile init_background leaves in a cell that held `prev`. The
      three loops draw nothing below row 17 and nothing on row 9
      right of the pier; every other visible cell gets a scenery tile,
      except the four cells between the posts on row 10. */
  function GameplayBackdrop(col: int, row: int, prev: Uint8): (t: Uint8)
    ensures (row >= 18 || (row == 9 && col >= 6)) ==> t == prev
    ensures 0 <= col && 0 <= row < 18 && row != 9 && !(row == 10 && 0 < col < 5) ==>
      t in {SKY_TILE, CLOUD_TILE, PIER_POST_TILE, WATER_TILE, WATER_TILE + 1}
  {
    WaterTileAt(col, row, PierTileAt(col, row, SkyTileAt(col, row, prev)))
  }

  /** The tile handle_input leaves in a cell that held `prev` when the
      screen goes from `from` to `to`: starting play draws the gameplay
      backdrop, resuming clears the pause text back to sky, and nothing
      else draws: a frame that stays on its screen, or leaves play, keeps
      every tile. */
  function InputTile(from: GameMode, to: GameMode, col: int, row: int, prev: Uint8): (t: Uint8)
    ensures from == to || to != Playing ==> t == prev
    ensures from == Pause && to == Playing ==> t == if row == 8 && 6 <= col < 15 then SKY_TILE else prev
    ensures from == Title && to == Playing ==> t == GameplayBackdrop(col, row, prev)
  {
    if from == Pause && to == Playing && row == 8 && 6 <= col < 15 then SKY_TILE
    else if from == Title && to == Playing then GameplayBackdrop(col, row, prev)
    else prev
  }

  /** The gameplay scene: sky with five clouds above row 9, the pier top
      on the first six cells of row 9, the rest of row 9 as it was; on row
      10 the two posts and the water right of the pier; every row below
      is water, so the posts drawn on rows 11 to 13 are painted over and
      show on row 10 only. */
  lemma GameplayScene(col: int, row: int, prev: Uint8)
    requires 0 <= col < 20 && 0 <= row < 18
    ensures var t := GameplayBackdrop(col, row, prev);
      (row < 9 ==> t == (if CloudAt(col, row) then CLOUD_TILE else SKY_TILE)) &&
      (row == 9 ==> t == if col < 6 then PIER_TOP_TILE else prev) &&
      (row == 10 ==> t == if col == 0 || col == 5 then PIER_POST_TILE else if col < 6 then prev else WATER_TILE) &&
      (row > 10 ==> t == WATER_TILE + row % 2) &&
      (prev != PIER_POST_TILE ==> (t == PIER_POST_TILE <==> row == 10 && (col == 0 || col == 5)))
  {
  }

  class Game {
    var state: GameMode
    var frameCounter: Uint8

    var playerX: Uint8
    var playerY: Uint8
    var facingRight: bool
    var playerState: Pose

    var isCasting: bool
    var castPower: Uint8
    var castPhase: CastPhase
    var isReeling: bool

    const line: array<LineSegment>

    var lureX: Uint8
    var lureY: Uint8
    var lureVelX: Int8
    var lureVelY: Int8
    var lureState: LureLook
    var splashTimer: Uint8

    const fish: array<Fish>

    var score: Uint16
    var highScore: Uint16
    var fishCaught: Uint8
    var largestFish: Uint8

    const regions: array<Region>
    var numRegions: Uint8

    var prevInput: bv8
    var currInput: bv8
    var pressed: bv8

    var isTransition: bool
    var fishInterested: bool

    /** water_anim, the one animation regions point to. */
    var waterAnim: TileAnimation
    /** The visible background tiles, indexed [column, row]. */
    const bkg: array2<Uint8>

    /** What the routines keep true: the fixed array sizes, a bounded
        region list, the player on the pier with a charge of at most 7,
        reeling only with the line out, a well-formed animation, and the
        invariants of the fish slots and the region slots. */
    ghost predicate Valid()
      reads this`numRegions, this`castPower, this`playerX, this`playerY, this`isReeling, this`isCasting, this`waterAnim,
            fish, regions
    {
      Shape() && Bounds() && FishValid() && RegionsValid()
    }

    /** What the region callbacks need: the array sizes, a bounded region
        list, a well-formed animation and regions that fit their loops. */
    ghost predicate RegionsReady()
      reads this`numRegions, this`waterAnim, regions
    {
      Shape() && numRegions as int <= MAX_REGIONS && AnimationWellFormed(waterAnim) && RegionsValid()
    }

    /** The sizes of the game record's arrays and of the screen. */
    ghost predicate Shape() {
      fish.Length == FISH_SLOTS && line.Length == MAX_LINE_SEGMENTS && regions.Length == MAX_REGIONS &&
      bkg.Length0 == SCREEN_WIDTH && bkg.Length1 == SCREEN_HEIGHT
    }

    /** The bounds the scalar fields keep. */
    ghost predicate Bounds()
      reads this`numRegions, this`castPower, this`playerX, this`playerY, this`isReeling, this`isCasting, this`waterAnim
    {
      numRegions as int <= MAX_REGIONS && castPower as int <= MAX_CAST_POWER &&
      MIN_PLAYER_X <= playerX as int <= PLAYER_START_X && playerY as int == PIER_HEIGHT &&
      (isReeling ==> isCasting) && AnimationWellFormed(waterAnim)
    }

    /** Every fish slot is well formed. */
    ghost predicate FishValid()
      reads fish
    {
      AllWellFormed(fish[..])
    }

    /** Every region whose callback is update_animated_region fits its row
        buffer and its row loop. */
    ghost predicate RegionsValid()
      reads regions
    {
      forall i :: 0 <= i < regions.Length ==> (regions[i].layout.update == AnimateTiles ==> Fits(regions[i].layout))
    }

    ghost function LureView(): Lure
      reads this`lureX, this`lureY, this`lureVelX, this`lureVelY, this`lureState, this`splashTimer, this`castPhase
    {
      Lure(lureX, lureY, lureVelX, lureVelY, lureState, splashTimer, castPhase)
    }

    ghost function PondView(): Pond
      reads this, fish
    {
      Pond(fish[..], fishInterested, score)
    }

    ghost function AnglerView(): Angler
      reads this`playerX, this`facingRight, this`castPower, this`playerState, this`isCasting, this`isReeling
    {
      Angler(playerX, facingRight, castPower, playerState, isCasting, isReeling)
    }

    ghost function Env(): Surroundings
      reads this
    {
      Surroundings(lureX, lureY, castPhase, isReeling, frameCounter)
    }

    /** handle_catch's int16_t reeling target: the rod tip, not wrapped. */
    function TargetX(): int
      reads this`playerX, this`facingRight
    {
      playerX as int + (if facingRight then 12 else -4)
    }

    function TargetY(): int
      reads this`playerY
    {
      playerY as int + 4
    }

    /** init_game_state on a zeroed record: the title screen, the player
        at x 50 on the pier facing right, nothing cast, no regions, and the
        sprite numbers of the line segments and fish. */
    constructor ()
      ensures Valid() && fresh(fish) && fresh(line) && fresh(regions) && fresh(bkg)
      ensures state == Title && frameCounter == 0
      ensures playerX as int == PLAYER_START_X && playerY as int == PIER_HEIGHT && facingRight && playerState == Standing
      ensures !isCasting && castPower == 0 && !isReeling
      ensures LureView() == Lure(0, 0, 0, 0, Plain, 0, Charging)
      ensures score == 0 && highScore == 0 && fishCaught == 0 && largestFish == 0 && numRegions == 0
      ensures prevInput == 0 && currInput == 0 && pressed == 0 && !isTransition && !fishInterested
      ensures waterAnim == WATER_ANIMATION
      ensures forall i :: 0 <= i < FISH_SLOTS ==>
        fish[i] == Fish(false, 0, 0, 0, false, 0, FIRST_FISH_SPRITE + i, false, false)
      ensures forall i :: 0 <= i < MAX_LINE_SEGMENTS ==> line[i] == LineSegment(0, 0, false, FIRST_LINE_SPRITE + i)
      ensures forall i :: 0 <= i < MAX_REGIONS ==> regions[i] == Region(EMPTY_LAYOUT, false)
    {
      state := Title;
      frameCounter := 0;
      playerX := PLAYER_START_X;
      playerY := PIER_HEIGHT;
      facingRight := true;
      playerState := Standing;
      isCasting := false;
      castPower := 0;
      castPhase := Charging;
      isReeling := false;
      line := new LineSegment[MAX_LINE_SEGMENTS](i => LineSegment(0, 0, false, 0));
      lureX, lureY, lureVelX, lureVelY := 0, 0, 0, 0;
      lureState := Plain;
      splashTimer := 0;
      fish := new Fish[FISH_SLOTS](i => Fish(false, 0, 0, 0, false, 0, 0, false, false));
      score, highScore, fishCaught, largestFish := 0, 0, 0, 0;
      regions := new Region[MAX_REGIONS](i => Region(EMPTY_LAYOUT, false));
      numRegions := 0;
      prevInput, currInput, pressed := 0, 0, 0;
      isTransition := false;
      fishInterested := false;
      waterAnim := WATER_ANIMATION;
      bkg := new Uint8[SCREEN_WIDTH, SCREEN_HEIGHT]((c, r) => 0);
      new;
      NumberFish();
      NumberLine();
    }

    /** init_game_state's fish loop: sprites 13 to 15, all inactive. */
    method NumberFish()
      requires fish.Length == FISH_SLOTS
      modifies fish
      ensures forall i :: 0 <= i < FISH_SLOTS ==> fish[i] == old(fish[i]).(active := false, spriteId := FIRST_FISH_SPRITE + i)
    {
      for i := 0 to FISH_SLOTS
        invariant forall j :: 0 <= j < FISH_SLOTS ==>
          fish[j] == if j < i then old(fish[j]).(active := false, spriteId := FIRST_FISH_SPRITE + j) else old(fish[j])
      {
        fish[i] := fish[i].(active := false, spriteId := FIRST_FISH_SPRITE + i);
      }
    }

    /** init_game_state's line loop: sprites 4 to 11, all hidden. */
    method NumberLine()
      requires line.Length == MAX_LINE_SEGMENTS
      modifies line
      ensures forall i :: 0 <= i < MAX_LINE_SEGMENTS ==>
        line[i] == old(line[i]).(active := false, spriteId := FIRST_LINE_SPRITE + i)
    {
      for i := 0 to MAX_LINE_SEGMENTS
        invariant forall j :: 0 <= j < MAX_LINE_SEGMENTS ==>
          line[j] == if j < i then old(line[j]).(active := false, spriteId := FIRST_LINE_SPRITE + j) else old(line[j])
      {
        line[i] := line[i].(active := false, spriteId := FIRST_LINE_SPRITE + i);
      }
    }

    // ------------------------------------------------------------ input

    method UpdateInput(joypad: bv8)
      modifies this`prevInput, this`currInput, this`pressed
      ensures prevInput == old(currInput) && currInput == joypad && pressed == Pressed(joypad, old(currInput))
    {
      prevInput := currInput;
      currInput := joypad;
      pressed := (currInput ^ prevInput) & currInput;
    }

    /** handle_input: screen changes on START, and during play walking,
        charging and releasing a cast while idle, or reeling with B while
        the line is out. */
    method HandleInput()
      requires Valid()
      modifies this`state, this`isTransition, this`playerX, this`facingRight, this`castPower, this`playerState,
               this`isCasting, this`isReeling, this`castPhase, this`lureX, this`lureY, this`lureVelX,
               this`lureVelY, this`lureState, this`numRegions, regions, bkg
      ensures Valid()
      ensures state == ModeAfter(old(state), pressed, old(isTransition))
      ensures isTransition == (Holds(currInput, J_START) && (old(isTransition) || state != old(state)))
      ensures old(state) == Title && state == Playing ==>
        numRegions == 3 && regions[..] == GameplayRegions(old(regions[..]))
      ensures old(state) == Playing && state == Pause ==>
        numRegions as int == AfterAdd(old(numRegions) as int) &&
        regions[..] == WithRegion(old(regions[..]), old(numRegions) as int, PAUSE_TEXT)
      ensures old(state) == Pause && state == Playing ==>
        numRegions as int == AfterRemove(old(numRegions) as int) && regions[..] == old(regions[..])
      ensures state == old(state) ==> numRegions == old(numRegions) && regions[..] == old(regions[..])
      ensures forall c, r :: 0 <= c < SCREEN_WIDTH && 0 <= r < SCREEN_HEIGHT ==>
        bkg[c, r] == InputTile(old(state), state, c, r, old(bkg[c, r]))
      ensures old(state) != Playing ==> AnglerView() == old(AnglerView()) && LureView() == old(LureView())
      ensures old(state) == Playing && !old(isCasting) ==>
        (AnglerView(), LureView()) == IdleStep(old(AnglerView()), old(LureView()), currInput, frameCounter, playerY)
      ensures old(state) == Playing && old(isCasting) ==>
        AnglerView() == LineStep(old(AnglerView()), currInput, castPhase) && LureView() == old(LureView())
    {
      SwitchScreen();
      if !Holds(currInput, J_START) {
        isTransition := false;
      }
    }

    /** handle_input's switch on the screen. */
    method SwitchScreen()
      requires Valid()
      modifies this`state, this`isTransition, this`playerX, this`facingRight, this`castPower, this`playerState,
               this`isCasting, this`isReeling, this`castPhase, this`lureX, this`lureY, this`lureVelX,
               this`lureVelY, this`lureState, this`numRegions, regions, bkg
      ensures Valid()
      ensures state == ModeAfter(old(state), pressed, old(isTransition))
      ensures isTransition == (old(isTransition) || state != old(state))
      ensures old(state) == Title && state == Playing ==>
        numRegions == 3 && regions[..] == GameplayRegions(old(regions[..]))
      ensures old(state) == Playing && state == Pause ==>
        numRegions as int == AfterAdd(old(numRegions) as int) &&
        regions[..] == WithRegion(old(regions[..]), old(numRegions) as int, PAUSE_TEXT)
      ensures old(state) == Pause && state == Playing ==>
        numRegions as int == AfterRemove(old(numRegions) as int) && regions[..] == old(regions[..])
      ensures state == old(state) ==> numRegions == old(numRegions) && regions[..] == old(regions[..])
      ensures forall c, r :: 0 <= c < SCREEN_WIDTH && 0 <= r < SCREEN_HEIGHT ==>
        bkg[c, r] == InputTile(old(state), state, c, r, old(bkg[c, r]))
      ensures old(state) != Playing ==> AnglerView() == old(AnglerView()) && LureView() == old(LureView())
      ensures old(state) == Playing && !old(isCasting) ==>
        (AnglerView(), LureView()) == IdleStep(old(AnglerView()), old(LureView()), currInput, frameCounter, playerY)
      ensures old(state) == Playing && old(isCasting) ==>
        AnglerView() == LineStep(old(AnglerView()), currInput, castPhase) && LureView() == old(LureView())
    {
      match state {
      case Title =>
        TitleInput();
      case Playing =>
        PlayingInput();
      case Pause =>
        PauseInput();
      case Catch =>
      }
    }

    /** handle_input's title case: START begins play. */
    method TitleInput()
      requires Valid() && state == Title
      modifies this`state, this`isTransition, this`numRegions, regions, bkg
      ensures Valid()
      ensures state == (if Holds(pressed, J_START) then Playing else Title)
      ensures isTransition == (Holds(pressed, J_START) || old(isTransition))
      ensures state == Playing ==> numRegions == 3 && regions[..] == GameplayRegions(old(regions[..]))
      ensures state == Title ==> numRegions == old(numRegions) && regions[..] == old(regions[..])
      ensures forall c, r :: 0 <= c < SCREEN_WIDTH && 0 <= r < SCREEN_HEIGHT ==>
        bkg[c, r] == if state == Playing then GameplayBackdrop(c, r, old(bkg[c, r])) else old(bkg[c, r])
    {
      if Holds(pressed, J_START) {
        state := Playing;
        isTransition := true;
        DisplayGameplay();
      }
    }

    /** handle_input's pause case: a fresh START press resumes play. */
    method PauseInput()
      requires Valid() && state == Pause
      modifies this`state, this`isTransition, this`numRegions, bkg
      ensures Valid()
      ensures state == (if Holds(pressed, J_START) && !old(isTransition) then Playing else Pause)
      ensures isTransition == (state == Playing || old(isTransition))
      ensures state == Playing ==> numRegions as int == AfterRemove(old(numRegions) as int)
      ensures state == Pause ==> numRegions == old(numRegions)
      ensures forall c, r :: 0 <= c < SCREEN_WIDTH && 0 <= r < SCREEN_HEIGHT ==>
        bkg[c, r] == if state == Playing && r == 8 && 6 <= c < 15 then SKY_TILE else old(bkg[c, r])
    {
      if Holds(pressed, J_START) && !isTransition {
        state := Playing;
        isTransition := true;
        RemovePause();
      }
    }

    /** handle_input's playing case: the controls, then START pauses. */
    method PlayingInput()
      requires Valid() && state == Playing
      modifies this`state, this`isTransition, this`playerX, this`facingRight, this`castPower, this`playerState,
               this`isCasting, this`isReeling, this`castPhase, this`lureX, this`lureY, this`lureVelX,
               this`lureVelY, this`lureState, this`numRegions, regions
      ensures Valid()
      ensures state == (if Holds(pressed, J_START) then Pause else Playing)
      ensures isTransition == (Holds(pressed, J_START) || old(isTransition))
      ensures state == Pause ==>
        numRegions as int == AfterAdd(old(numRegions) as int) &&
        regions[..] == WithRegion(old(regions[..]), old(numRegions) as int, PAUSE_TEXT)
      ensures state == Playing ==> numRegions == old(numRegions) && regions[..] == old(regions[..])
      ensures !old(isCasting) ==>
        (AnglerView(), LureView()) == IdleStep(old(AnglerView()), old(LureView()), currInput, frameCounter, playerY)
      ensures old(isCasting) ==>
        AnglerView() == LineStep(old(AnglerView()), currInput, castPhase) && LureView() == old(LureView())
    {
      PlayControls();
      if Holds(pressed, J_START) {
        PauseGame();
      }
    }

    /** START during play: the pause screen. */
    method PauseGame()
      requires Valid()
      modifies this`state, this`isTransition, this`numRegions, regions
      ensures Valid() && state == Pause && isTransition
      ensures numRegions as int == AfterAdd(old(numRegions) as int)
      ensures regions[..] == WithRegion(old(regions[..]), old(numRegions) as int, PAUSE_TEXT)
    {
      state := Pause;
      isTransition := true;
      DisplayPause();
    }

    /** handle_input's controls during play. */
    method PlayControls()
      requires Valid()
      modifies this`playerX, this`facingRight, this`castPower, this`playerState,
               this`isCasting, this`isReeling, this`castPhase, this`lureX, this`lureY, this`lureVelX,
               this`lureVelY, this`lureState
      ensures Valid()
      ensures !old(isCasting) ==>
        (AnglerView(), LureView()) == IdleStep(old(AnglerView()), old(LureView()), currInput, frameCounter, playerY)
      ensures old(isCasting) ==>
        AnglerView() == LineStep(old(AnglerView()), currInput, castPhase) && LureView() == old(LureView())
    {
      if !isCasting && !isReeling {
        IdleControls();
      } else if isCasting {
        LineControls();
      }
    }

    /** handle_input while playing with no line out: walking, charging
        with A held, and casting when A is let go with some power. */
    method IdleControls()
      requires Valid() && !isCasting && !isReeling
      modifies this`playerX, this`facingRight, this`castPower, this`playerState,
               this`isCasting, this`castPhase, this`lureX, this`lureY, this`lureVelX,
               this`lureVelY, this`lureState
      ensures Valid()
      ensures (AnglerView(), LureView()) == IdleStep(old(AnglerView()), old(LureView()), currInput, frameCounter, playerY)
    {
      WalkStep();
      ChargeStep();
    }

    /** handle_input's two movement tests. */
    method WalkStep()
      requires Valid()
      modifies this`playerX, this`facingRight
      ensures Valid()
      ensures (playerX, facingRight) == Walk(old(playerX), old(facingRight), currInput)
    {
      WalkOnPier(playerX, facingRight, currInput);
      if Holds(currInput, J_LEFT) && playerX as int > MIN_PLAYER_X {
        playerX := playerX - 1;
        facingRight := false;
      }
      if Holds(currInput, J_RIGHT) && (playerX as int) < PIER_END_X {
        playerX := playerX + 1;
        facingRight := true;
      }
    }

    /** handle_input's charge-up while A is held and cast on its release. */
    method ChargeStep()
      requires Valid() && !isCasting && !isReeling
      modifies this`castPower, this`playerState, this`isCasting, this`castPhase, this`lureX, this`lureY,
               this`lureVelX, this`lureVelY, this`lureState
      ensures Valid()
      ensures (AnglerView(), LureView()) == ChargeOrCast(old(AnglerView()), old(LureView()), currInput, frameCounter, playerY)
    {
      if Holds(currInput, J_A) {
        if (castPower as int) < MAX_CAST_POWER && frameCounter % CHARGE_CADENCE as Uint8 == 0 {
          castPower := castPower + 1;
          playerState := Casting;
        }
      } else if castPower > 0 {
        if castPower as int >= MIN_CAST_POWER {
          StartCast();
        }
        castPower := 0;
      }
    }

    /** handle_input while playing with the line out: B held reels in;
        letting go stops reeling and, once the lure is in the water, puts
        the player back to standing. */
    method LineControls()
      requires Valid() && isCasting
      modifies this`isReeling, this`playerState
      ensures Valid()
      ensures AnglerView() == LineStep(old(AnglerView()), currInput, castPhase)
    {
      if Holds(currInput, J_B) {
        isReeling := true;
        playerState := Reeling;
      } else {
        isReeling := false;
        if castPhase == Landed {
          playerState := Standing;
        }
      }
    }

    method StartCast()
      requires Valid()
      modifies this`isCasting, this`castPhase, this`playerState, this`lureVelX, this`lureVelY,
               this`lureX, this`lureY, this`lureState
      ensures Valid()
      ensures isCasting && playerState == Casting
      ensures LureView() == Launched(old(LureView()), castPower, facingRight, playerX, playerY)
    {
      isCasting := true;
      playerState := Casting;
      ThrowLure();
    }

    /** start_cast's launch of the lure from the rod tip. */
    method ThrowLure()
      modifies this`castPhase, this`lureVelX, this`lureVelY, this`lureX, this`lureY, this`lureState
      ensures LureView() == Launched(old(LureView()), castPower, facingRight, playerX, playerY)
    {
      castPhase := Flying;
      lureVelX := WrapS8(if facingRight then castPower as int else -(castPower as int));
      lureVelY := WrapS8(-(castPower as int));
      lureX := RodTipX(playerX, facingRight);
      lureY := RodTipY(playerY);
      lureState := Plain;
    }

    // ------------------------------------------------------------ lure and line

    /** update_lure: the lure follows the rod tip while charging, flies
        under gravity, then sinks and settles in the water. */
    method UpdateLure()
      modifies this`lureX, this`lureY, this`lureVelX, this`lureVelY, this`castPhase, this`splashTimer, this`lureState
      ensures !isCasting ==> LureView() == old(LureView())
      ensures isCasting && old(castPhase) == Charging ==>
        LureView() == old(LureView()).(x := RodTipX(playerX, facingRight), y := RodTipY(playerY))
      ensures isCasting && old(castPhase) == Flying ==> LureView() == FlightStep(old(LureView()))
      ensures isCasting && old(castPhase) == Landed ==> LureView() == WaterStep(old(LureView()), isReeling, frameCounter)
    {
      if isCasting {
        match castPhase {
        case Charging =>
          lureX := RodTipX(playerX, facingRight);
          lureY := RodTipY(playerY);
        case Flying =>
          FlyLure();
        case Landed =>
          SettleLure();
        }
      }
    }

    /** update_lure's flying case. */
    method FlyLure()
      modifies this`lureX, this`lureY, this`lureVelX, this`lureVelY, this`castPhase, this`splashTimer, this`lureState
      ensures LureView() == FlightStep(old(LureView()))
    {
      ghost var l := LureView();
      FlyAcross();
      FlyUpDown();
      if lureY >= WATER_LINE {
        lureY := WATER_LINE;
        lureVelY := 0;
        lureVelX := 0;
        castPhase := Landed;
        splashTimer := SPLASH_FRAMES;
        lureState := Splash;
      }
    }

    /** The horizontal move of a flying lure, stopped at either bound. */
    method FlyAcross()
      modifies this`lureX, this`lureVelX
      ensures var l := old(LureView());
        lureX == (if ClampsLeft(l) then LURE_MIN_X else if ClampsRight(l) then LURE_MAX_X else NextX(l)) &&
        lureVelX == (if ClampsLeft(l) || ClampsRight(l) then 0 else l.velX)
    {
      var nextX := Wrap8(lureX + lureVelX);
      if nextX < LURE_MIN_X || (lureVelX < 0 && lureX <= LURE_MIN_X) {
        lureX := LURE_MIN_X;
        lureVelX := 0;
      } else if nextX > LURE_MAX_X || (lureVelX > 0 && lureX >= LURE_MAX_X) {
        lureX := LURE_MAX_X;
        lureVelX := 0;
      } else {
        lureX := nextX;
      }
    }

    /** The vertical move of a flying lure, stopped at the top of the
        screen, and gravity. */
    method FlyUpDown()
      modifies this`lureY, this`lureVelY
      ensures var l := old(LureView());
        lureY == (if ClampsTop(l) then 0 else Wrap8(l.y + l.velY)) &&
        lureVelY == WrapS8((if ClampsTop(l) then 0 else l.velY) + GRAVITY)
    {
      if lureY + lureVelY < 0 {
        lureY := 0;
        lureVelY := 0;
      } else {
        lureY := Wrap8(lureY + lureVelY);
      }
      lureVelY := WrapS8(lureVelY + GRAVITY);
    }

    /** update_lure's case of a lure in the water. */
    method SettleLure()
      modifies this`lureY, this`splashTimer, this`lureState
      ensures LureView() == WaterStep(old(LureView()), isReeling, frameCounter)
    {
      if !isReeling && frameCounter % 4 == 0 && lureY < SINK_LIMIT {
        lureY := lureY + 1;
      }
      if splashTimer != 0 {
        splashTimer := splashTimer - 1;
        if splashTimer == 0 {
          lureState := Plain;
        }
      }
    }

    /** update_line: with the line out, the segments are spread from the
        rod tip to the lure, waving by a pixel once the lure is in the
        water; otherwise they are all hidden. */
    method UpdateLine()
      requires Valid()
      modifies line
      ensures Valid()
      ensures forall i :: 0 <= i < MAX_LINE_SEGMENTS ==>
        line[i] == if isCasting then
                     LineSegment(LinePoint(RodTipX(playerX, facingRight), lureX, i),
                                 SegmentY(RodTipY(playerY), lureY, i, castPhase == Landed), true, old(line[i].spriteId))
                   else old(line[i]).(active := false)
      ensures isCasting ==> line[0].x == RodTipX(playerX, facingRight) && line[MAX_LINE_SEGMENTS - 1].x == lureX
      ensures isCasting && castPhase != Landed ==>
        line[0].y == RodTipY(playerY) && line[MAX_LINE_SEGMENTS - 1].y == lureY
      ensures isCasting && castPhase == Landed ==>
        line[0].y == Wrap8(RodTipY(playerY) - 1) && line[MAX_LINE_SEGMENTS - 1].y == Wrap8(lureY + 1)
    {
      if isCasting {
        var startX := RodTipX(playerX, facingRight);
        var startY := RodTipY(playerY);
        var i := 0;
        while i < MAX_LINE_SEGMENTS
          invariant 0 <= i <= MAX_LINE_SEGMENTS
          invariant forall j :: 0 <= j < i ==>
            line[j] == LineSegment(LinePoint(startX, lureX, j), SegmentY(startY, lureY, j, castPhase == Landed),
                                   true, old(line[j].spriteId))
          invariant forall j :: i <= j < MAX_LINE_SEGMENTS ==> line[j] == old(line[j])
        {
          var x := LinePoint(startX, lureX, i);
          var y := SegmentY(startY, lureY, i, castPhase == Landed);
          line[i] := line[i].(x := x, y := y, active := true);
          i := i + 1;
        }
        LineEndpoints(startX, lureX);
        LineEndpoints(startY, lureY);
      } else {
        var i := 0;
        while i < MAX_LINE_SEGMENTS
          invariant 0 <= i <= MAX_LINE_SEGMENTS
          invariant forall j :: 0 <= j < i ==> line[j] == old(line[j]).(active := false)
          invariant forall j :: i <= j < MAX_LINE_SEGMENTS ==> line[j] == old(line[j])
        {
          line[i] := line[i].(active := false);
          i := i + 1;
        }
      }
    }

    // ------------------------------------------------------------ fish

    /** (Re)spawns a fish into slot k. */
    method SpawnInto(k: nat, d: SpawnDraws)
      requires fish.Length == FISH_SLOTS && k < FISH_SLOTS
      modifies fish
      ensures fish[..] == old(fish[..])[k := Spawned(old(fish[k]), d)]
    {
      var f := fish[k];
      f := f.(active := true, hooked := false, interested := false);
      f := f.(right := d.direction % 2 == 1);
      f := f.(x := if f.right then SPAWN_X_RIGHT else SPAWN_X_LEFT);
      f := f.(y := DEPTH_TOP + d.depth % SPAWN_DEPTHS);
      f := f.(kind := d.kind % 3);
      f := f.(speed := d.speed % 2 + 1);
      if f.kind > 0 {
        f := f.(speed := 1);
      }
      fish[k] := f;
    }

    /** The body of handle_fish's loop for slot i. */
    method HandleSlot(i: nat, d: FishDraws)
      requires fish.Length == FISH_SLOTS && i < FISH_SLOTS
      modifies fish, this`fishInterested, this`score
      ensures PondView() == FishStep(old(PondView()), i, Env(), d)
    {
      var f := fish[i];
      if f.active {
        if !f.hooked {
          var dx := Abs(f.x - lureX);
          var dy := Abs(f.y - lureY);
          if f.interested ||
             (!fishInterested && castPhase == Landed && dx < FISH_INTEREST_RADIUS && dy < FISH_INTEREST_RADIUS) {
            PursueSlot(i);
          } else {
            SwimSlot(i, d.drift);
          }
        } else {
          StruggleSlot(i, d);
        }
      } else if d.trial % SPAWN_ODDS == 0 {
        SpawnInto(i, d.spawn);
      }
    }

    /** handle_fish for an interested fish: it closes in on the lure, may
        lose interest, and bites when close while the player reels. */
    method PursueSlot(i: nat)
      requires fish.Length == FISH_SLOTS && i < FISH_SLOTS
      modifies fish, this`fishInterested, this`score
      ensures PondView() == Pursue(old(PondView()), i, Env())
    {
      var f := fish[i];
      ghost var p := PondView();
      var dx := Abs(f.x - lureX);
      var dy := Abs(f.y - lureY);
      f := f.(interested := true);
      fishInterested := true;
      f := f.(x := Approach(f.x, lureX), y := Approach(f.y, lureY));
      if dx > LOSE_INTEREST_DISTANCE || dy > LOSE_INTEREST_DISTANCE {
        f := f.(interested := false);
        fishInterested := false;
      }
      if dx < BITE_DISTANCE && dy < BITE_DISTANCE && isReeling {
        f := f.(hooked := true);
        score := Wrap16(score + BITE_POINTS);
        fish[i] := f;
        assert fish[..] == p.fish[i := f];
        ClearOtherInterest(i);
      } else {
        fish[i] := f;
      }
    }

    /** handle_fish's loop after a bite: every other live fish loses
        interest. */
    method ClearOtherInterest(i: nat)
      requires fish.Length == FISH_SLOTS && i < FISH_SLOTS
      modifies fish
      ensures fish[..] == ClearOthers(old(fish[..]), i)
    {
      var j := 0;
      while j < FISH_SLOTS
        invariant 0 <= j <= FISH_SLOTS
        invariant forall m :: 0 <= m < FISH_SLOTS ==>
          fish[m] == if m < j then ClearOthers(old(fish[..]), i)[m] else old(fish[m])
      {
        if j != i && fish[j].active {
          fish[j] := fish[j].(interested := false);
        }
        j := j + 1;
      }
    }

    /** handle_fish for a fish swimming freely. */
    method SwimSlot(i: nat, drift: Uint8)
      requires fish.Length == FISH_SLOTS && i < FISH_SLOTS
      modifies fish
      ensures fish[..] == old(fish[..])[i := Swim(old(fish[i]), frameCounter, drift)]
    {
      var f := fish[i];
      if frameCounter as int % (2 + f.kind as int) == 0 {
        var nextX := Wrap8(f.x + (if f.right then f.speed as int else -(f.speed as int)));
        if nextX < SWIM_MIN_X || nextX > SWIM_MAX_X {
          f := f.(right := !f.right);
          f := f.(x := Wrap8(f.x + (if f.right then BOUNCE_NUDGE else -BOUNCE_NUDGE)));
        } else {
          f := f.(x := nextX);
        }
        if frameCounter % 30 == 0 {
          var yMove := DriftMove(drift);
          if f.y + yMove >= DEPTH_TOP && f.y + yMove <= DEPTH_BOTTOM {
            f := f.(y := f.y + yMove);
          }
        }
      }
      fish[i] := f;
    }

    /** handle_fish for a hooked fish. */
    method StruggleSlot(i: nat, d: FishDraws)
      requires fish.Length == FISH_SLOTS && i < FISH_SLOTS
      modifies fish, this`fishInterested
      ensures PondView() == Struggle(old(PondView()), i, Env(), d)
    {
      var f := fish[i];
      if isReeling {
        fish[i] := f.(x := lureX, y := lureY);
      } else if frameCounter % 8 == 0 {
        f := f.(x := Wrap8(f.x + d.jitterX % 3 - 1));
        f := f.(y := Wrap8(f.y + d.jitterY % 3 - 1));
        if d.escape % 100 < ESCAPE_PERCENT {
          f := f.(hooked := false, active := false);
          fishInterested := false;
        }
        fish[i] := f;
      }
    }

    /** handle_fish: every slot in order, each seeing the slots before it
        already updated. */
    method HandleFish(draws: seq<FishDraws>)
      requires Valid() && |draws| == FISH_SLOTS
      modifies fish, this`fishInterested, this`score
      ensures Valid()
      ensures PondView() == FishRound(old(PondView()), Env(), draws, FISH_SLOTS)
    {
      var i := 0;
      while i < FISH_SLOTS
        invariant 0 <= i <= FISH_SLOTS
        invariant PondView() == FishRound(old(PondView()), Env(), draws, i)
      {
        HandleSlot(i, draws[i]);
        i := i + 1;
      }
      FishRoundKeepsWellFormed(old(PondView()), Env(), draws, FISH_SLOTS);
    }

    // ------------------------------------------------------------ catch

    /** handle_catch's search for the hooked fish. */
    method FirstHookedSlot() returns (found: bool, k: nat)
      requires fish.Length == FISH_SLOTS
      ensures found ==> FirstOnHook(fish[..], k)
      ensures !found ==> NoneOnHook(fish[..])
    {
      k := 0;
      while k < FISH_SLOTS
        invariant 0 <= k <= FISH_SLOTS
        invariant forall j :: 0 <= j < k ==> !OnHook(fish[j])
      {
        if fish[k].active && fish[k].hooked {
          return true, k;
        }
        k := k + 1;
      }
      found := false;
    }

    /** handle_catch: while reeling, the lure approaches the rod tip; once
        within 8 pixels the cast ends and the first hooked fish, if any, is
        scored and replaced by a new one. */
    method HandleCatch(respawn: SpawnDraws)
      requires Valid()
      modifies this`isCasting, this`isReeling, this`castPhase, this`playerState, this`score, this`fishCaught,
               this`largestFish, this`fishInterested, this`lureX, this`lureY, fish
      ensures Valid()
      ensures !old(isReeling) ==> unchanged(this) && unchanged(fish)
      ensures old(isReeling) && Manhattan(old(lureX), old(lureY), TargetX(), TargetY()) >= CATCH_DISTANCE ==>
        (lureX, lureY) == ReelStep(old(lureX), old(lureY), TargetX(), TargetY()) && unchanged(fish) &&
        isCasting && isReeling && castPhase == old(castPhase) && playerState == old(playerState) &&
        score == old(score) && fishCaught == old(fishCaught) && largestFish == old(largestFish) &&
        fishInterested == old(fishInterested)
      ensures old(isReeling) && Manhattan(old(lureX), old(lureY), TargetX(), TargetY()) < CATCH_DISTANCE ==>
        !isCasting && !isReeling && castPhase == Charging && playerState == Standing && !fishInterested &&
        lureX == old(lureX) && lureY == old(lureY) &&
        (NoneOnHook(old(fish[..])) ==>
           unchanged(fish) && score == old(score) && fishCaught == old(fishCaught) && largestFish == old(largestFish)) &&
        (forall k {:trigger FirstOnHook(old(fish[..]), k)} :: FirstOnHook(old(fish[..]), k) ==>
           fish[..] == old(fish[..])[k := Spawned(old(fish[k]), respawn)] &&
           score == Wrap16(old(score) + CatchPoints(old(fish[k]).kind)) &&
           fishCaught == Wrap8(old(fishCaught) + 1) &&
           largestFish == (if old(fish[k]).kind > old(largestFish) then old(fish[k]).kind else old(largestFish)))
    {
      if isReeling {
        var dx := TargetX() - lureX;
        var dy := TargetY() - lureY;
        var absDx := if dx > 0 then dx else -dx;
        var absDy := if dy > 0 then dy else -dy;
        if absDx + absDy < CATCH_DISTANCE {
          LandCatch(respawn);
        } else {
          ReelIn();
        }
      }
    }

    /** handle_catch's reeling motion: one pixel along the larger distance
        to the rod tip (y on a tie), and along the other as well while
        farther than 16. */
    method ReelIn()
      modifies this`lureX, this`lureY
      ensures (lureX, lureY) == ReelStep(old(lureX), old(lureY), TargetX(), TargetY())
    {
      var dx := TargetX() - lureX;
      var dy := TargetY() - lureY;
      var absDx := if dx > 0 then dx else -dx;
      var absDy := if dy > 0 then dy else -dy;
      var dist := absDx + absDy;
      var x, y := lureX, lureY;
      if absDx > absDy {
        x := Toward(x, dx);
        if dist > DIAGONAL_DISTANCE {
          y := Toward(y, dy);
        }
      } else {
        y := Toward(y, dy);
        if dist > DIAGONAL_DISTANCE {
          x := Toward(x, dx);
        }
      }
      lureX, lureY := x, y;
    }

    /** handle_catch once the lure is back: the cast ends, and the first
        active hooked fish, if any, is scored and respawned. */
    method LandCatch(respawn: SpawnDraws)
      requires Valid()
      modifies this`isCasting, this`isReeling, this`castPhase, this`playerState, this`score, this`fishCaught,
               this`largestFish, this`fishInterested, fish
      ensures Valid()
      ensures !isCasting && !isReeling && castPhase == Charging && playerState == Standing && !fishInterested
      ensures NoneOnHook(old(fish[..])) ==>
        unchanged(fish) && score == old(score) && fishCaught == old(fishCaught) && largestFish == old(largestFish)
      ensures forall k {:trigger FirstOnHook(old(fish[..]), k)} :: FirstOnHook(old(fish[..]), k) ==>
        fish[..] == old(fish[..])[k := Spawned(old(fish[k]), respawn)] &&
        score == Wrap16(old(score) + CatchPoints(old(fish[k]).kind)) &&
        fishCaught == Wrap8(old(fishCaught) + 1) &&
        largestFish == (if old(fish[k]).kind > old(largestFish) then old(fish[k]).kind else old(largestFish))
    {
      EndCast();
      var found, k := FirstHookedSlot();
      OneCatch(fish[..]);
      if found {
        ScoreCatch(k, respawn);
      }
      fishInterested := false;
    }

    /** handle_catch's reset of the fishing state. */
    method EndCast()
      requires Valid()
      modifies this`isCasting, this`isReeling, this`castPhase, this`playerState
      ensures Valid()
      ensures !isCasting && !isReeling && castPhase == Charging && playerState == Standing
    {
      isCasting := false;
      isReeling := false;
      castPhase := Charging;
      playerState := Standing;
    }

    /** Scores the fish in slot k and spawns a new one in its place. */
    method ScoreCatch(k: nat, respawn: SpawnDraws)
      requires fish.Length == FISH_SLOTS && k < FISH_SLOTS && FishValid()
      modifies this`score, this`fishCaught, this`largestFish, fish
      ensures FishValid()
      ensures fish[..] == old(fish[..])[k := Spawned(old(fish[k]), respawn)]
      ensures score == Wrap16(old(score) + CatchPoints(old(fish[k]).kind))
      ensures fishCaught == Wrap8(old(fishCaught) + 1)
      ensures largestFish == if old(fish[k]).kind > old(largestFish) then old(fish[k]).kind else old(largestFish)
    {
      var f := fish[k];
      score := Wrap16(score + CatchPoints(f.kind));
      fishCaught := Wrap8(fishCaught + 1);
      if f.kind > largestFish {
        largestFish := f.kind;
      }
      fish[k] := f.(active := false, hooked := false);
      SpawnInto(k, respawn);
      assert fish[..] == old(fish[..])[k := Spawned(f, respawn)];
    }

    // ------------------------------------------------------------ regions

    method AddRegion(l: Layout)
      requires Valid() && (l.update == AnimateTiles ==> Fits(l))
      modifies this`numRegions, regions
      ensures Valid()
      ensures numRegions as int == AfterAdd(old(numRegions) as int)
      ensures regions[..] == WithRegion(old(regions[..]), old(numRegions) as int, l)
    {
      if (numRegions as int) < MAX_REGIONS {
        regions[numRegions] := Region(l, regions[numRegions].animated);
        numRegions := numRegions + 1;
      }
    }

    method ClearRegions()
      requires Valid()
      modifies this`numRegions
      ensures Valid() && numRegions == 0
    {
      numRegions := 0;
    }

    /** Writes `width` copies of a tile into row y from column x on
        (set_bkg_tiles with a one-row buffer); cells off the 20x18 screen
        are not recorded. */
    method PaintRow(x: Uint8, y: Uint8, width: Uint8, tile: Uint8)
      requires bkg.Length0 == SCREEN_WIDTH && bkg.Length1 == SCREEN_HEIGHT
      modifies bkg
      ensures forall c, r :: 0 <= c < SCREEN_WIDTH && 0 <= r < SCREEN_HEIGHT ==>
        bkg[c, r] == if r == y as int && x as int <= c < x as int + width as int then tile else old(bkg[c, r])
    {
      var i := 0;
      while i < width
        invariant 0 <= i <= width
        invariant forall c, r :: 0 <= c < SCREEN_WIDTH && 0 <= r < SCREEN_HEIGHT ==>
          bkg[c, r] == if r == y as int && x as int <= c < x as int + i as int then tile else old(bkg[c, r])
      {
        if (x as int + i as int) < SCREEN_WIDTH && (y as int) < SCREEN_HEIGHT {
          bkg[x as int + i as int, y] := tile;
        }
        i := i + 1;
      }
    }

    /** display_title's region and background effects. */
    method DisplayTitle()
      requires Valid()
      modifies this`numRegions, regions, bkg
      ensures Valid()
      ensures numRegions == 5 && regions[..] == TitleRegions(old(regions[..]))
      ensures forall c, r :: 0 <= c < SCREEN_WIDTH && 0 <= r < SCREEN_HEIGHT ==> bkg[c, r] == TitleBackdrop(r)
    {
      ghost var before := regions[..];
      TitleScenery();
      PaintTitle();
      TitleTexts(before);
    }

    /** display_title's first regions: the sky and the animated water. */
    method TitleScenery()
      requires Valid()
      modifies this`numRegions, regions
      ensures Valid()
      ensures numRegions == 2 && regions[..] == Installed(old(regions[..]), [SKY_TITLE, WATER])[WATER_SLOT := Region(WATER, true)]
    {
      ClearRegions();
      AddRegion(SKY_TITLE);
      AddRegion(WATER);
      regions[numRegions - 1] := regions[numRegions - 1].(animated := true);
      InstalledSlots(old(regions[..]), [SKY_TITLE, WATER]);
      assert regions[..] == Installed(old(regions[..]), [SKY_TITLE, WATER])[WATER_SLOT := Region(WATER, true)];
    }

    /** display_title's three text lines, after the scenery. */
    method TitleTexts(ghost before: seq<Region>)
      requires Valid() && |before| == MAX_REGIONS
      requires numRegions == 2 && regions[..] == Installed(before, [SKY_TITLE, WATER])[WATER_SLOT := Region(WATER, true)]
      modifies this`numRegions, regions
      ensures Valid()
      ensures numRegions == 5 && regions[..] == TitleRegions(before)
    {
      AddRegion(TITLE_TEXT);
      AddRegion(START_TEXT);
      AddRegion(HIGH_SCORE_TEXT);
      InstalledSlots(before, TitleLayouts());
      InstalledSlots(before, [SKY_TITLE, WATER]);
      assert regions[..] == TitleRegions(before);
    }

    /** display_title's drawing loop: sky over the top ten rows, then
        water rows alternating between the two water tiles. */
    method PaintTitle()
      requires bkg.Length0 == SCREEN_WIDTH && bkg.Length1 == SCREEN_HEIGHT
      modifies bkg
      ensures forall c, r :: 0 <= c < SCREEN_WIDTH && 0 <= r < SCREEN_HEIGHT ==> bkg[c, r] == TitleBackdrop(r)
    {
      var y: Uint8 := 0;
      while (y as int) < SCREEN_HEIGHT
        invariant 0 <= y as int <= SCREEN_HEIGHT
        invariant forall c, r :: 0 <= c < SCREEN_WIDTH && 0 <= r < y as int ==> bkg[c, r] == TitleBackdrop(r)
      {
        PaintRow(0, y, SCREEN_WIDTH as Uint8, TitleBackdrop(y as int));
        y := y + 1;
      }
    }

    /** init_background: the sky, the pier and the water, in that order. */
    method InitBackground()
      requires Shape()
      modifies bkg
      ensures forall c, r :: 0 <= c < SCREEN_WIDTH && 0 <= r < SCREEN_HEIGHT ==>
        bkg[c, r] == GameplayBackdrop(c, r, old(bkg[c, r]))
    {
      PaintSky();
      PaintPier();
      PaintWater();
    }

    method PaintSky()
      requires Shape()
      modifies bkg
      ensures forall c, r :: 0 <= c < SCREEN_WIDTH && 0 <= r < SCREEN_HEIGHT ==>
        bkg[c, r] == SkyTileAt(c, r, old(bkg[c, r]))
    {
      for y := 0 to 9
        invariant forall c, r :: 0 <= c < SCREEN_WIDTH && 0 <= r < SCREEN_HEIGHT ==>
          bkg[c, r] == if r < y then SkyTileAt(c, r, old(bkg[c, r])) else old(bkg[c, r])
      {
        PaintSkyRow(y);
      }
    }

    /** One row of the sky loop. */
    method PaintSkyRow(y: nat)
      requires Shape() && y < 9
      modifies bkg
      ensures forall c, r :: 0 <= c < SCREEN_WIDTH && 0 <= r < SCREEN_HEIGHT ==>
        bkg[c, r] == if r == y then SkyTileAt(c, r, old(bkg[c, r])) else old(bkg[c, r])
    {
      for x := 0 to SCREEN_WIDTH
        invariant forall c, r :: 0 <= c < SCREEN_WIDTH && 0 <= r < SCREEN_HEIGHT ==>
          bkg[c, r] == if r == y && c < x then SkyTileAt(c, r, old(bkg[c, r])) else old(bkg[c, r])
      {
        if CloudAt(x, y) {
          bkg[x, y] := CLOUD_TILE;
        } else {
          bkg[x, y] := SKY_TILE;
        }
      }
    }

    method PaintPier()
      requires Shape()
      modifies bkg
      ensures forall c, r :: 0 <= c < SCREEN_WIDTH && 0 <= r < SCREEN_HEIGHT ==>
        bkg[c, r] == PierTileAt(c, r, old(bkg[c, r]))
    {
      for x := 0 to 6
        invariant forall c, r :: 0 <= c < SCREEN_WIDTH && 0 <= r < SCREEN_HEIGHT ==>
          bkg[c, r] == if c < x then PierTileAt(c, r, old(bkg[c, r])) else old(bkg[c, r])
      {
        PierColumn(x);
      }
    }

    /** One column of the pier loop: the pier top, then a post on the
        first and last column. */
    method PierColumn(x: nat)
      requires Shape() && x < 6
      modifies bkg
      ensures forall c, r :: 0 <= c < SCREEN_WIDTH && 0 <= r < SCREEN_HEIGHT ==>
        bkg[c, r] == if c == x then PierTileAt(c, r, old(bkg[c, r])) else old(bkg[c, r])
    {
      bkg[x, 9] := PIER_TOP_TILE;
      for y := 10 to 14
        invariant forall c, r :: 0 <= c < SCREEN_WIDTH && 0 <= r < SCREEN_HEIGHT ==>
          bkg[c, r] == if c == x && (r == 9 || 10 <= r < y) then PierTileAt(c, r, old(bkg[c, r])) else old(bkg[c, r])
      {
        if x == 0 || x == 5 {
          bkg[x, y] := PIER_POST_TILE;
        }
      }
    }

    method PaintWater()
      requires Shape()
      modifies bkg
      ensures forall c, r :: 0 <= c < SCREEN_WIDTH && 0 <= r < SCREEN_HEIGHT ==>
        bkg[c, r] == WaterTileAt(c, r, old(bkg[c, r]))
    {
      for y := 10 to SCREEN_HEIGHT
        invariant forall c, r :: 0 <= c < SCREEN_WIDTH && 0 <= r < SCREEN_HEIGHT ==>
          bkg[c, r] == if r < y then WaterTileAt(c, r, old(bkg[c, r])) else old(bkg[c, r])
      {
        PaintWaterRow(y);
      }
    }

    /** One row of the water loop, skipping the pier's cells of row 10. */
    method PaintWaterRow(y: nat)
      requires Shape() && 10 <= y < SCREEN_HEIGHT
      modifies bkg
      ensures forall c, r :: 0 <= c < SCREEN_WIDTH && 0 <= r < SCREEN_HEIGHT ==>
        bkg[c, r] == if r == y then WaterTileAt(c, r, old(bkg[c, r])) else old(bkg[c, r])
    {
      for x := 0 to SCREEN_WIDTH
        invariant forall c, r :: 0 <= c < SCREEN_WIDTH && 0 <= r < SCREEN_HEIGHT ==>
          bkg[c, r] == if r == y && c < x then WaterTileAt(c, r, old(bkg[c, r])) else old(bkg[c, r])
      {
        if !(x < 6 && y == 10) {
          bkg[x, y] := WATER_TILE + y % 2;
        }
      }
    }

    /** display_gameplay's region effects. */
    method DisplayGameplay()
      requires Valid()
      modifies this`numRegions, regions, bkg
      ensures Valid()
      ensures numRegions == 3 && regions[..] == GameplayRegions(old(regions[..]))
      ensures forall c, r :: 0 <= c < SCREEN_WIDTH && 0 <= r < SCREEN_HEIGHT ==>
        bkg[c, r] == GameplayBackdrop(c, r, old(bkg[c, r]))
    {
      GameplayList();
      InitBackground();
    }

    /** display_gameplay's regions: the sky, the animated water and the
        score text. */
    method GameplayList()
      requires Valid()
      modifies this`numRegions, regions
      ensures Valid()
      ensures numRegions == 3 && regions[..] == GameplayRegions(old(regions[..]))
    {
      ghost var before := regions[..];
      ClearRegions();
      AddRegion(SKY_GAMEPLAY);
      AddRegion(WATER);
      regions[numRegions - 1] := regions[numRegions - 1].(animated := true);
      AddRegion(SCORE_TEXT);
      InstalledSlots(before, GameplayLayouts());
      assert regions[..] == GameplayRegions(before);
    }

    method DisplayPause()
      requires Valid()
      modifies this`numRegions, regions
      ensures Valid()
      ensures numRegions as int == AfterAdd(old(numRegions) as int)
      ensures regions[..] == WithRegion(old(regions[..]), old(numRegions) as int, PAUSE_TEXT)
    {
      AddRegion(PAUSE_TEXT);
    }

    /** remove_pause: drops the last region and repaints the pause text's
        cells with sky. */
    method RemovePause()
      requires Valid()
      modifies this`numRegions, bkg
      ensures Valid()
      ensures numRegions as int == AfterRemove(old(numRegions) as int)
      ensures forall c, r :: 0 <= c < SCREEN_WIDTH && 0 <= r < SCREEN_HEIGHT ==>
        bkg[c, r] == if r == 8 && 6 <= c < 15 then SKY_TILE else old(bkg[c, r])
    {
      if numRegions > 0 {
        numRegions := numRegions - 1;
      }
      PaintRow(6, 8, 9, SKY_TILE);
    }

    /** update_animated_region's text-row test. */
    method RowHasText(y: int) returns (skip: bool)
      requires regions.Length == MAX_REGIONS && numRegions as int <= MAX_REGIONS
      ensures skip == TextRow(regions[..numRegions], y)
    {
      var i := 0;
      while i < numRegions
        invariant 0 <= i <= numRegions
        invariant forall j :: 0 <= j < i ==> !(IsText(regions[j].layout) && CoversRow(regions[j].layout, y))
      {
        if IsText(regions[i].layout) && CoversRow(regions[i].layout, y) {
          assert regions[..numRegions][i] == regions[i];
          return true;
        }
        i := i + 1;
      }
      skip := false;
    }

    /** update_animated_region for region k: advances the animation, and on
        a frame change repaints the region's rows that no text region
        covers with the new frame's tile. */
    method UpdateAnimatedRegion(k: nat)
      requires RegionsReady() && k < numRegions as int && regions[k].layout.update == AnimateTiles
      modifies this`waterAnim, bkg
      ensures RegionsReady()
      ensures waterAnim == if regions[k].animated then Advance(old(waterAnim)) else old(waterAnim)
      ensures forall c, r :: 0 <= c < SCREEN_WIDTH && 0 <= r < SCREEN_HEIGHT ==>
        bkg[c, r] == if regions[k].animated && Turns(old(waterAnim)) && InRect(regions[k].layout, c, r) &&
                        !TextRow(regions[..numRegions], r)
                     then CurrentTile(waterAnim) else old(bkg[c, r])
    {
      if !regions[k].animated {
        return;
      }
      AdvanceStep(waterAnim);
      waterAnim := waterAnim.(frameCounter := Wrap8(waterAnim.frameCounter + 1));
      if waterAnim.frameCounter >= waterAnim.frameDelay {
        waterAnim := waterAnim.(frameCounter := 0, currentFrame := (waterAnim.currentFrame + 1) % waterAnim.numFrames);
        var tile := waterAnim.frameTiles[waterAnim.currentFrame];
        RepaintRows(regions[k].layout, tile);
      }
    }

    /** update_animated_region's row loop: every row of the region that no
        text region covers is set to the tile. */
    method RepaintRows(reg: Layout, tile: Uint8)
      requires Shape() && numRegions as int <= MAX_REGIONS && Fits(reg)
      modifies bkg
      ensures forall c, r :: 0 <= c < SCREEN_WIDTH && 0 <= r < SCREEN_HEIGHT ==>
        bkg[c, r] == if InRect(reg, c, r) && !TextRow(regions[..numRegions], r) then tile else old(bkg[c, r])
    {
      var y: Uint8 := reg.y;
      while (y as int) < reg.y as int + reg.height as int
        invariant reg.y <= y && y as int <= reg.y as int + reg.height as int
        invariant forall c, r :: 0 <= c < SCREEN_WIDTH && 0 <= r < SCREEN_HEIGHT ==>
          bkg[c, r] == if r < y as int && InRect(reg, c, r) && !TextRow(regions[..numRegions], r)
                       then tile else old(bkg[c, r])
      {
        var skip := RowHasText(y as int);
        if !skip {
          PaintRow(reg.x, y, reg.width, tile);
        }
        y := y + 1;
      }
    }

    /** update_regions: runs the callback of every animated region in
        list order. */
    method UpdateRegions()
      requires Valid()
      modifies this`waterAnim, bkg
      ensures Valid()
      ensures waterAnim == AdvanceTimes(old(waterAnim), AnimatedCount(regions[..numRegions]))
      ensures forall c, r :: 0 <= c < SCREEN_WIDTH && 0 <= r < SCREEN_HEIGHT ==>
        bkg[c, r] == RepaintFrom(regions[..numRegions], 0, old(waterAnim), old(bkg[c, r]), c, r)
      ensures forall c, r ::
        (0 <= c < SCREEN_WIDTH && 0 <= r < SCREEN_HEIGHT &&
         (TextRow(regions[..numRegions], r) || !RepaintedBy(regions[..numRegions], numRegions as int, c, r))) ==>
        bkg[c, r] == old(bkg[c, r])
      ensures forall c, r :: 0 <= c < SCREEN_WIDTH && 0 <= r < SCREEN_HEIGHT && bkg[c, r] != old(bkg[c, r]) ==>
        bkg[c, r] in waterAnim.frameTiles
      // With one animated region, as on every screen (WaterAnimatesOnce),
      // its cells on rows without text show the new frame's tile whenever
      // the frame turns.
      ensures AnimatedCount(regions[..numRegions]) == 1 ==> waterAnim == Advance(old(waterAnim))
      ensures AnimatedCount(regions[..numRegions]) == 1 ==>
        forall c, r :: (0 <= c < SCREEN_WIDTH && 0 <= r < SCREEN_HEIGHT &&
          RepaintedBy(regions[..numRegions], numRegions as int, c, r) && !TextRow(regions[..numRegions], r)) ==>
          bkg[c, r] == if Turns(old(waterAnim)) then CurrentTile(waterAnim) else old(bkg[c, r])
    {
      ghost var list := regions[..numRegions];
      RepaintAll(list);
      ghost var k := -1;
      if AnimatedCount(list) == 1 {
        k := CountOne(list);
      }
      forall c, r | 0 <= c < SCREEN_WIDTH && 0 <= r < SCREEN_HEIGHT
        ensures TextRow(list, r) || !RepaintedBy(list, |list|, c, r) ==> bkg[c, r] == old(bkg[c, r])
        ensures bkg[c, r] == old(bkg[c, r]) || bkg[c, r] in waterAnim.frameTiles
        ensures AnimatedCount(list) == 1 && RepaintedBy(list, |list|, c, r) && !TextRow(list, r) ==>
          bkg[c, r] == if Turns(old(waterAnim)) then NextTile(old(waterAnim)) else old(bkg[c, r])
      {
        if TextRow(list, r) || !RepaintedBy(list, |list|, c, r) {
          RepaintKeeps(list, 0, old(waterAnim), old(bkg[c, r]), c, r);
        }
        RepaintTiles(list, 0, old(waterAnim), old(bkg[c, r]), c, r);
        if AnimatedCount(list) == 1 && RepaintedBy(list, |list|, c, r) && !TextRow(list, r) {
          RepaintOnce(list, 0, k, old(waterAnim), old(bkg[c, r]), c, r);
        }
      }
    }

    /** update_regions' loop over the region list. */
    method RepaintAll(ghost list: seq<Region>)
      requires RegionsReady() && list == regions[..numRegions]
      modifies this`waterAnim, bkg
      ensures RegionsReady()
      ensures waterAnim == AdvanceTimes(old(waterAnim), AnimatedCount(list))
      ensures forall c, r :: 0 <= c < SCREEN_WIDTH && 0 <= r < SCREEN_HEIGHT ==>
        bkg[c, r] == RepaintFrom(list, 0, old(waterAnim), old(bkg[c, r]), c, r)
    {
      var i: Uint8 := 0;
      while i < numRegions
        invariant 0 <= i <= numRegions && RegionsReady()
        invariant waterAnim == AdvanceTimes(old(waterAnim), AnimatedCount(list[..i]))
        invariant forall c, r :: 0 <= c < SCREEN_WIDTH && 0 <= r < SCREEN_HEIGHT ==>
          RepaintFrom(list, i as nat, waterAnim, bkg[c, r], c, r) == RepaintFrom(list, 0, old(waterAnim), old(bkg[c, r]), c, r)
      {
        assert list[..i + 1][..i] == list[..i];
        label Step:
        UpdateSlot(i as nat, list);
        forall c, r | 0 <= c < SCREEN_WIDTH && 0 <= r < SCREEN_HEIGHT
          ensures RepaintFrom(list, i as nat + 1, waterAnim, bkg[c, r], c, r) ==
                  RepaintFrom(list, i as nat, old@Step(waterAnim), old@Step(bkg[c, r]), c, r)
        {
          RepaintStep(list, i as nat, old@Step(waterAnim), waterAnim, old@Step(bkg[c, r]), bkg[c, r], c, r);
        }
        i := i + 1;
      }
      assert list[..numRegions] == list;
    }

    /** One step of update_regions: the callback of region i runs when the
        region is updatable. */
    method UpdateSlot(i: nat, ghost list: seq<Region>)
      requires RegionsReady() && i < numRegions as int && list == regions[..numRegions]
      modifies this`waterAnim, bkg
      ensures RegionsReady()
      ensures waterAnim == if Animated(list[i]) then Advance(old(waterAnim)) else old(waterAnim)
      ensures forall c, r :: 0 <= c < SCREEN_WIDTH && 0 <= r < SCREEN_HEIGHT ==>
        bkg[c, r] == if Animated(list[i]) && Turns(old(waterAnim)) && InRect(list[i].layout, c, r) && !TextRow(list, r)
                     then CurrentTile(waterAnim) else old(bkg[c, r])
    {
      assert list[i] == regions[i];
      if regions[i].layout.update == AnimateTiles && regions[i].layout.properties & PROP_ANIMATED != 0 {
        UpdateAnimatedRegion(i);
      }
    }

    // ------------------------------------------------------------ frame

    /** update_game: the lure, line and catch while the line is out, then
        the fish. Sprite placement, the player's animation, the power
        meter and the score text only drive the display. */
    method UpdateGame(catchSpawn: SpawnDraws, draws: seq<FishDraws>)
      requires Valid() && |draws| == FISH_SLOTS
      modifies this`lureX, this`lureY, this`lureVelX, this`lureVelY, this`castPhase, this`splashTimer,
               this`lureState, line, this`isCasting, this`isReeling, this`playerState, this`score,
               this`fishCaught, this`largestFish, this`fishInterested, fish
      ensures Valid()
      ensures !old(isCasting) ==>
        LureView() == old(LureView()) && AnglerView() == old(AnglerView()) && unchanged(line) &&
        PondView() == FishRound(old(PondView()), Env(), draws, FISH_SLOTS)
    {
      if isCasting || isReeling {
        UpdateLure();
        UpdateLine();
        if isReeling {
          HandleCatch(catchSpawn);
        }
      }
      HandleFish(draws);
    }

    /** One pass of the main loop: input, then the screen's work. The
        STATE_CATCH case is kept as written, but no state change leads to
        it, so the high score never changes. */
    method Frame(joypad: bv8, draws: FrameDraws)
      requires Valid() && |draws.fish| == FISH_SLOTS
      modifies this, fish, line, regions, bkg
      ensures Valid()
      ensures old(state) != Catch ==> state == ModeAfter(old(state), Pressed(joypad, old(currInput)), old(isTransition))
      ensures state != Catch
      ensures frameCounter == Wrap8(old(frameCounter) + 1)
      ensures highScore == old(highScore)
      ensures old(state) != Playing && state != Playing ==>
        AnglerView() == old(AnglerView()) && LureView() == old(LureView()) && unchanged(fish) && unchanged(line)
    {
      ReadControls(joypad);
      RunScreen(draws);
      frameCounter := Wrap8(frameCounter + 1);
      CheckHighScore();
    }

    /** The main loop's high-score check: only on the catch screen does the
        score, if higher, become the high score. */
    method CheckHighScore()
      modifies this`highScore
      ensures highScore == if state == Catch then HighScoreAfter(score, old(highScore)) else old(highScore)
    {
      if state == Catch && score > highScore {
        highScore := score;
      }
    }

    /** The start of each pass of the main loop: update_input, then
        handle_input. */
    method ReadControls(joypad: bv8)
      requires Valid()
      modifies this`prevInput, this`currInput, this`pressed,
               this`state, this`isTransition, this`playerX, this`facingRight, this`castPower, this`playerState,
               this`isCasting, this`isReeling, this`castPhase, this`lureX, this`lureY, this`lureVelX,
               this`lureVelY, this`lureState, this`numRegions, regions, bkg
      ensures Valid()
      ensures prevInput == old(currInput) && currInput == joypad && pressed == Pressed(joypad, old(currInput))
      ensures state == ModeAfter(old(state), pressed, old(isTransition))
      ensures isTransition == (Holds(currInput, J_START) && (old(isTransition) || state != old(state)))
      ensures old(state) == Title && state == Playing ==>
        numRegions == 3 && regions[..] == GameplayRegions(old(regions[..]))
      ensures old(state) == Playing && state == Pause ==>
        numRegions as int == AfterAdd(old(numRegions) as int) &&
        regions[..] == WithRegion(old(regions[..]), old(numRegions) as int, PAUSE_TEXT)
      ensures old(state) == Pause && state == Playing ==>
        numRegions as int == AfterRemove(old(numRegions) as int) && regions[..] == old(regions[..])
      ensures state == old(state) ==> numRegions == old(numRegions) && regions[..] == old(regions[..])
      ensures forall c, r :: 0 <= c < SCREEN_WIDTH && 0 <= r < SCREEN_HEIGHT ==>
        bkg[c, r] == InputTile(old(state), state, c, r, old(bkg[c, r]))
      ensures old(state) != Playing ==> AnglerView() == old(AnglerView()) && LureView() == old(LureView())
      ensures old(state) == Playing && !old(isCasting) ==>
        (AnglerView(), LureView()) == IdleStep(old(AnglerView()), old(LureView()), currInput, frameCounter, playerY)
      ensures old(state) == Playing && old(isCasting) ==>
        AnglerView() == LineStep(old(AnglerView()), currInput, castPhase) && LureView() == old(LureView())
    {
      UpdateInput(joypad);
      label Read:
      HandleInput();
      forall c, r | 0 <= c < SCREEN_WIDTH && 0 <= r < SCREEN_HEIGHT
        ensures bkg[c, r] == InputTile(old(state), state, c, r, old(bkg[c, r]))
      {
        assert old@Read(bkg[c, r]) == old(bkg[c, r]);
      }
    }

    /** The main loop's switch on the screen: the title and pause screens
        only animate their regions; play also runs the game. */
    method RunScreen(draws: FrameDraws)
      requires Valid() && |draws.fish| == FISH_SLOTS
      modifies this`lureX, this`lureY, this`lureVelX, this`lureVelY, this`castPhase, this`splashTimer,
               this`lureState, line, this`isCasting, this`isReeling, this`playerState, this`score,
               this`fishCaught, this`largestFish, this`fishInterested, fish, this`waterAnim, bkg, this`state
      ensures Valid()
      ensures state == if old(state) == Catch then Playing else old(state)
      ensures old(state) == Title || old(state) == Pause ==> AnglerView() == old(AnglerView()) && LureView() == old(LureView())
      ensures old(state) == Title || old(state) == Pause ==> unchanged(fish) && unchanged(line)
      ensures old(state) == Playing && !old(isCasting) ==>
        LureView() == old(LureView()) && AnglerView() == old(AnglerView()) && unchanged(line) &&
        PondView() == FishRound(old(PondView()), old(Env()), draws.fish, FISH_SLOTS)
      ensures waterAnim == AdvanceTimes(old(waterAnim), AnimatedCount(regions[..numRegions]))
    {
      match state {
      case Title =>
        UpdateRegions();
      case Playing =>
        PlayFrame(draws.catchSpawn, draws.fish);
      case Pause =>
        UpdateRegions();
      case Catch =>
        CatchFrame(draws);
      }
    }

    /** The main loop's STATE_CATCH case: the play work, a second catch
        check, and back to play. */
    method CatchFrame(draws: FrameDraws)
      requires Valid() && |draws.fish| == FISH_SLOTS
      modifies this`lureX, this`lureY, this`lureVelX, this`lureVelY, this`castPhase, this`splashTimer,
               this`lureState, line, this`isCasting, this`isReeling, this`playerState, this`score,
               this`fishCaught, this`largestFish, this`fishInterested, fish, this`waterAnim, bkg, this`state
      ensures Valid() && state == Playing
      ensures waterAnim == AdvanceTimes(old(waterAnim), AnimatedCount(regions[..numRegions]))
    {
      PlayFrame(draws.catchSpawn, draws.fish);
      HandleCatch(draws.lateCatchSpawn);
      state := Playing;
    }

    /** The main loop's work on the play screen. */
    method PlayFrame(catchSpawn: SpawnDraws, draws: seq<FishDraws>)
      requires Valid() && |draws| == FISH_SLOTS
      modifies this`lureX, this`lureY, this`lureVelX, this`lureVelY, this`castPhase, this`splashTimer,
               this`lureState, line, this`isCasting, this`isReeling, this`playerState, this`score,
               this`fishCaught, this`largestFish, this`fishInterested, fish, this`waterAnim, bkg
      ensures Valid()
      ensures !old(isCasting) ==>
        LureView() == old(LureView()) && AnglerView() == old(AnglerView()) && unchanged(line) &&
        PondView() == FishRound(old(PondView()), old(Env()), draws, FISH_SLOTS)
      ensures waterAnim == AdvanceTimes(old(waterAnim), AnimatedCount(regions[..numRegions]))
    {
      UpdateGame(catchSpawn, draws);
      UpdateRegions();
    }
  }
}
