# GB-Fishing: a Dafny model of the game loop

GB-Fishing is a small Game Boy fishing game written in C for GBDK. All of
its logic lives in `src/main.c`. One global record, `game`, holds the whole
game state. Each pass of the `while(1)` loop in `main` reads the joypad and
reacts to START and the play buttons. It then runs the work of the current
screen (title, play, pause, or the catch state) and advances the frame
counter.

This project models that record and the routines that update it:

- input edge detection, and the screen state machine driven by START;
- walking, charging and casting, reeling, and the lure's flight and sinking;
- the fishing line and the three fish slots (pursuit, bite, swimming,
  struggle, escape, spawning);
- the catch and its scoring;
- the screen-region list and the tiles the region code writes into the
  background;
- one whole pass of the main loop.

## Structure

- `cint.dfy` (`CInt`) covers C integers. `uint8_t`, `int8_t` and `uint16_t`
  are subset types, and every store that can leave the range goes through
  `Wrap8`, `WrapS8` or `Wrap16`; the other stores are proved to stay in range. C's truncating `/` is `CDiv`.
- `buttons.dfy` (`Buttons`) has the GBDK joypad masks, `update_input`'s
  "just pressed" mask, and the state machine (`ModeAfter`).
- `player.dfy` (`Player`) walks the angler on the pier and charges a cast.
  `controls.dfy` (`Controls`) combines these into `handle_input`'s play
  case, working on the `Angler` value.
- `lure.dfy` (`LurePhysics`) covers `start_cast`'s launch, the flying and
  the in-water steps of `update_lure`, and `update_line`'s interpolation.
- `reel.dfy` (`Reel`) covers `handle_catch`'s reeling step.
- `fish.dfy` (`FishBehavior`) covers one slot of `handle_fish`, the whole
  pass over the slots, the respawn, and the catch search.
- `regions.dfy` (`Regions`) covers the region list, the region sets each
  screen installs, and the water animation.
- `presentation.dfy` (`Presentation`) covers the values the display code
  derives: the player's sprite tiles and flip, the power meter and the
  high score.
- `game.dfy` (`FishingGame`) holds the class `Game`, whose fields are the
  `game` record; the fish, line and region arrays are `array`s. It also
  holds `water_anim` and `bkg`, the visible 20×18 part of the background
  tile map, indexed `[column, row]`.
  - The methods mirror the C routines and their loops.
  - Each method's `ensures` ties the new state to a function of the old
    state from the modules above. The ghost views `LureView`, `AnglerView`
    and `PondView` group the record's fields into those functions' values.
  - The functions' properties are proved as lemmas next to them.
  - `Valid` is what every routine keeps: the array sizes, a region count
    of at most 8, the player on the pier (x in [16, 50], y 75), a charge of
    at most 7, reeling only with a line out, a well-formed animation,
    well-formed fish, and animated regions that fit their row loop.

Behaviour worth knowing:

- `STATE_CATCH` is handled as written but never entered: no code assigns
  it. `Frame` therefore proves that the high score never changes.
- The `update` callback field of a region is the tag
  `RegionUpdate`. The `animation` field is a flag, because the only
  animation a region ever points to is `water_anim`.

## Model

| member | source | states |
|---|---|---|
| CInt.Wrap8 | src/main.c:534 | storing into a uint8_t keeps the value modulo 256 and leaves in-range values alone |
| CInt.WrapS8 | src/main.c:554 | storing into an int8_t keeps the value modulo 256, in [-128, 127], and leaves in-range values alone |
| CInt.Wrap16 | src/main.c:418 | storing into a uint16_t keeps the value modulo 65536 and leaves in-range values alone |
| CInt.Abs | src/main.c:390-393 | the distance is the value or its negation, never negative |
| CInt.CDiv | src/main.c:503-504 | C division by a positive divisor: the quotient's magnitude is the floor of the dividend's magnitude over the divisor, and it has the dividend's sign |
| Buttons.Pressed | src/main.c:716-720 | the "just pressed" mask is the buttons down now and not down on the previous frame |
| Buttons.PressedIsRisingEdge | src/main.c:719 | a button is just pressed exactly when it is held now and was not held before |
| Buttons.ModeAfter | src/main.c:723-783 | START switches title to play, play to pause, and pause to play only once the press is fresh; the catch state is never entered or left by input |
| Player.Walk | src/main.c:735-742 | a walk step moves the player at most one pixel; moving left needs LEFT, ends facing left and not left of 16; moving right needs RIGHT, ends facing right and not right of 48 |
| Player.WalkOnPier | src/main.c:735-742 | walking keeps the player within [16, 50], never past 48 once there, at most one pixel a frame; each move needs its direction held, and a turn faces the held direction |
| Player.Charged | src/main.c:745-751 | one frame of holding A raises the power by one exactly on frames divisible by 6 while it is below 7, and otherwise leaves it |
| Player.ChargeBounded | src/main.c:745-751 | holding A never lowers the power and never raises it above 7 |
| Player.ChargeWaits | src/main.c:747 | frames off the six-frame cadence leave the power unchanged |
| Player.NextCadence | src/main.c:747 | starting from any frame counter, a multiple of 6 comes within six frames, also across the wrap from 255 to 0 |
| Player.ChargeFills | src/main.c:745-751 | holding A for 6 frames per missing level always reaches full power 7 |
| Controls.IdleStep | src/main.c:733-757 | with no line out the player moves at most one pixel and never starts reeling; a cast starts exactly when A is let go with some charge, and only a cast moves the lure, which is then flying |
| Controls.ChargeOrCast | src/main.c:744-757 | the charge step leaves the player in place and reeling alone; holding A raises the power by at most 1 and leaves the lure; letting go with some charge empties it, shows the casting pose and starts the cast; with no charge nothing changes |
| Controls.IdleCasts | src/main.c:733-757 | with no line out the player stays on the pier and does not reel; a cast happens exactly when A is released with some power, and it empties the charge and throws the lure from the rod tip with that power; otherwise the lure stays; holding A raises the power by at most 1 |
| Controls.LineStep | src/main.c:758-768 | with the line out only the reeling flag and the pose change; reeling follows B, and a pose change is to reeling, or to standing once the lure has landed |
| Controls.LineReels | src/main.c:758-768 | with the line out, reeling follows B exactly; position, facing and charge stay; the pose is reeling exactly when B is held, or it was reeling and the lure is not yet in the water |
| LurePhysics.Launched | src/main.c:593-605 | start_cast leaves the lure flying with the normal look and the splash timer as it was; with a power below 128 it goes up and sideways at the speed of the power, sideways toward the side faced |
| LurePhysics.LaunchFromRodTip | src/main.c:593-605 | the launch starts at the rod tip (x+12 facing right, x-4 facing left, y+4), with horizontal speed equal to the power toward the facing side, upward speed equal to the power, phase flying, normal look, splash timer kept |
| LurePhysics.FlightStep | src/main.c:533-564 | a flying step leaves the lure inside [8, 160] and never below the water line; a lure on the water line has just landed, stopped, with the 30-frame splash; one above it keeps its look, splash timer and phase |
| LurePhysics.FlightHorizontal | src/main.c:533-545 | horizontally a flying lure always ends in [8, 160]: a clamp pins it to the crossed edge and zeroes its velocity; otherwise it moves by its velocity |
| LurePhysics.FlightTopClamp | src/main.c:547-554 | a step that would leave the screen at the top pins the lure to row 0, and its vertical velocity becomes 1 |
| LurePhysics.FlightGravity | src/main.c:547-554 | while airborne, gravity adds 1 to the vertical velocity (int8 wrap), and the look, timer and phase stay |
| LurePhysics.FlightLanding | src/main.c:556-563 | reaching the water line pins the lure there, stops it, starts the 30-frame splash and lands it; nothing else lands it |
| LurePhysics.FlightLands | src/main.c:533-564 | any flight above the water line lands within FlightBound frames |
| LurePhysics.CastAlwaysLands | src/main.c:593-605 | any cast from the pier lands within 93 frames |
| LurePhysics.WaterStep | src/main.c:566-583 | an in-water step sinks the lure by at most one pixel, never past depth 135 and only when not reeling; the splash timer never rises, and the look only turns normal, once the timer has run out; x, velocities and phase stay |
| LurePhysics.SinksToRest | src/main.c:566-583 | left unreeled in the water for n frames, the lure sinks one pixel per frame divisible by 4 until it rests at depth 135, and the splash timer runs down by n to 0, the look turning normal once it has run out |
| LurePhysics.WaterSinksAndSettles | src/main.c:566-583 | in the water the lure sinks one pixel on frames divisible by 4, when not reeling and above depth 135; the splash timer counts down to 0, and the look turns normal exactly when the timer reaches 0 |
| LurePhysics.LinePoint | src/main.c:503-504 | each segment coordinate lies between the rod tip and the lure |
| LurePhysics.SegmentY | src/main.c:504-509 | out of the water a segment sits on the straight line; in the water odd segments sit one pixel below it and even ones one pixel above |
| LurePhysics.LineEndpoints | src/main.c:499-504 | segment 0 is at the rod tip and segment 7 at the lure |
| LurePhysics.LinePointBetween | src/main.c:503-504 | every segment lies between the rod tip and the lure, at i/7 of their distance rounded toward the rod tip |
| LurePhysics.TruncatedFraction | src/main.c:503 | the magnitude of C's (d*i)/7 is the floor of the magnitude of d times i over 7; it is at most the magnitude of d and has the sign of d |
| Reel.ReelStep | src/main.c:665-683 | toward an on-screen rod tip, a reeling step moves the lure at most one pixel on each axis, never away from the tip, and leaves it in place only once it is on the tip |
| Reel.ReelStepApproaches | src/main.c:665-683 | one reeling step moves the lure one pixel closer on its larger axis (y on a tie), and also on the other axis when farther than 16 and not aligned; the distance drops by exactly 1 or 2 |
| Reel.ReelArrives | src/main.c:606-683 | reeling always brings the lure within catching distance 8 of an on-screen rod tip, after at most distance − 7 frames |
| FishBehavior.Spawned | src/main.c:470-488 | a spawned fish is live, free and uninterested; it starts at x 30 facing right or x 130 facing left, at depth 95–124; its size class is 0–2 and its speed 1 or 2, and 1 unless it is small; its sprite is kept |
| FishBehavior.Swim | src/main.c:428-446 | autonomous swimming changes only position and direction, and a depth change is one pixel to a depth inside [95, 135] |
| FishBehavior.SwimStep | src/main.c:428-446 | off its cadence a fish stays put; on it, a next x past 16 or 152 turns it round with a 4-pixel nudge, otherwise it moves by its speed; depth changes only on frames divisible by 30, by one pixel, and stays inside [95, 135] |
| FishBehavior.SwimStaysBetweenWalls | src/main.c:429-437 | a fish between the bounce walls at speed at most 2 stays between them |
| FishBehavior.Pursue | src/main.c:395-426 | the pursuing fish changes only its position, by at most one pixel per axis, its interest, which the shared flag copies, and its hook, taken exactly on a bite; a bite scores 10 (uint16 wrap); the other slots can only lose interest |
| FishBehavior.ClearOthers | src/main.c:421-425 | only interest flags change, and afterwards no live fish other than the biter is interested |
| FishBehavior.InterestGate | src/main.c:395-401 | a free, uninterested fish becomes interested exactly when no fish holds the interest flag, the lure has landed, and the fish is within 16 pixels on both axes |
| FishBehavior.PursuitStep | src/main.c:399-413 | a pursuing fish closes in one pixel on each axis where it is not aligned; the fish and the shared flag keep interest unless it started more than 26 pixels away |
| FishBehavior.Hooking | src/main.c:415-426 | a free fish is hooked exactly when it pursues the lure and is within 16 pixels on both axes while the player reels; hooking scores 10 and clears every other live fish's interest; otherwise the other slots and the score stay |
| FishBehavior.SwimmingSlot | src/main.c:427-447 | a free fish not drawn to the lure stays free, live and uninterested and changes only by swimming; the other slots, the shared flag and the score stay |
| FishBehavior.Struggle | src/main.c:449-465 | a hooked fish changes only its position and, on an escape, its live and hooked flags; either it stays as hooked as it was and the shared flag stays, or it escapes, freed and inactive, and the shared flag is cleared; other slots and the score stay |
| FishBehavior.HookedFollowsLure | src/main.c:450-452 | while the player reels, a hooked fish sits on the lure and nothing else changes |
| FishBehavior.SlackLine | src/main.c:453-465 | on a slack line a hooked fish moves only on every eighth frame; it escapes exactly when the escape draw mod 100 is below 2, which frees the slot and the interest flag |
| FishBehavior.SpawnSlot | src/main.c:469-489 | an empty slot comes alive exactly when the trial draw is divisible by 60, and then holds the spawned fish; otherwise it stays as it was; the other slots, the shared flag and the score stay |
| FishBehavior.FishStep | src/main.c:386-489 | one slot's update leaves every other slot as it was except perhaps for losing interest, and the score stays or gains 10 (uint16 wrap) |
| FishBehavior.FishRound | src/main.c:383-491 | after the first n slots are handled, the later slots are as they were except perhaps for losing interest |
| FishBehavior.FishStepKeepsWellFormed | src/main.c:383-491 | one slot's update keeps every slot well formed (size class 0–2, speed 1–2) |
| FishBehavior.FishRoundKeepsWellFormed | src/main.c:383-491 | the whole pass over the fish keeps every slot well formed |
| FishBehavior.CatchPoints | src/main.c:630 | a landed fish scores a multiple of 100, at least 100 and, for the three size classes, at most 300 |
| Regions.WithRegion | src/main.c:964-980 | add_region changes no animation field and no slot but slot n, and leaves a full list as it was |
| Regions.Installed | src/main.c:964-984 | clear_regions and a run of add_region calls change no animation field and leave the slots past the layouts as they were |
| Regions.InstalledSlots | src/main.c:964-980 | after clear_regions and n add_region calls, slot i holds the i-th layout with its old animation link, and later slots are untouched |
| Regions.GameplayRegionSet | src/main.c:836-857 | the gameplay screen always installs the sky, the animated water and the score text, leaves slots 3–7 alone, and installing it twice changes nothing more |
| Regions.TitleRegionSet | src/main.c:791-826 | the title screen installs the sky, the animated water and its three text lines |
| Regions.WaterRowsAndText | src/main.c:944-959 | during play, paused or not, no text row meets the water, so every water row is repainted; on the title screen the high-score line shields water row 11 |
| Regions.PauseRoundTrip | src/main.c:878-900 | pausing makes the pause text the last live region and resuming restores the live list exactly when the list was not full; on a full list the pause text is not added and resuming drops the last region |
| Regions.TextRowAppend | src/main.c:945-954 | adding a region makes a row a text row exactly when the row was one, or the new region is text and covers it |
| Regions.AdvanceStep | src/main.c:930-933 | Advance, the counter step: each animation call adds 1 to the counter, or, on reaching the delay, resets it and moves to the next frame, wrapping; frame and counter stay in range |
| Regions.AdvanceTimes | src/main.c:926-933 | any number of animation calls keeps the animation well formed with the same frames |
| Regions.AnimationPeriod | src/main.c:930-933 | each frame is shown for exactly frame_delay calls |
| Regions.CountSingle | src/main.c:870-875 | a list in which only one slot is animated advances the animation once per pass |
| Regions.CountOne | src/main.c:870-875 | a list whose pass advances the animation once holds exactly one animated region |
| Regions.RepaintKeeps | src/main.c:868-876 | RepaintFrom, the tile a cell has after the callbacks from region i on (update_regions with update_animated_region, 926-962): a cell on a text row, or under no animated region, keeps its tile through update_regions |
| Regions.RepaintTiles | src/main.c:868-876 | through RepaintFrom, a cell update_regions changes shows one of the animation's tiles |
| Regions.RepaintOnce | src/main.c:870-875 | with one animated region, its cells on rows without text show the next frame's tile when that call turns the frame, and keep their tile otherwise |
| Regions.WaterAnimatesOnce | src/main.c:868-876 | on every screen the water is the only animated region, so the animation advances once per frame |
| Presentation.PlayerSprites | src/main.c:270-305 | the player is drawn with four sprites and is flipped exactly when facing left |
| Presentation.PlayerMirror | src/main.c:270-305 | facing right, sprite k shows the pose's base tile + k; facing left shows that picture mirrored (columns swapped, every tile flipped); each pose uses its own four of the twelve tiles |
| Presentation.MeterFill | src/main.c:695 | for powers 0–7 the meter fills 0–10 segments: empty exactly at power 0, full exactly at power 7 |
| Presentation.MeterGrows | src/main.c:695 | the meter never shrinks as the power rises, and each power level adds one or two segments |
| Presentation.HighScoreAfter | src/main.c:1003-1007 | the high score becomes the larger of the score and the old high score |
| FishingGame.TitleBackdrop | src/main.c:813-821 | display_title paints sky on rows 0–9 and water below, tile 130 on even rows and 131 on odd ones |
| FishingGame.GameplayBackdrop | src/main.c:346-381 | init_background draws nothing below row 17 and nothing on row 9 right of the pier; every other visible cell but the four between the posts on row 10 gets a sky, cloud, post or water tile |
| FishingGame.InputTile | src/main.c:722-789 | handle_input keeps every tile unless the screen changes to play; starting play draws the gameplay backdrop, and resuming from pause repaints row 8, columns 6–14, with sky |
| FishingGame.GameplayScene | src/main.c:346-381 | the gameplay backdrop: sky with five clouds on rows 0–8; the pier top on the first six cells of row 9; posts and water on row 10; water on every row below, so the posts drawn on rows 11–13 are painted over and show on row 10 only |
| FishingGame.Game.constructor | src/main.c:902-924 | the zeroed record on the title screen, with the player at x 50 on the pier facing right, nothing cast, no regions, fish sprites 13–15 and line sprites 4–11 |
| FishingGame.Game.NumberFish | src/main.c:914-917 | every fish slot is inactive and gets sprite 13 + i |
| FishingGame.Game.NumberLine | src/main.c:920-923 | every line segment is hidden and gets sprite 4 + i |
| FishingGame.Game.UpdateInput | src/main.c:716-720 | the previous input becomes the old current one, the current one the joypad, and the pressed mask their rising edge |
| FishingGame.Game.HandleInput | src/main.c:722-789 | the screen changes as ModeAfter says; the transition flag is kept only while START is held; each screen change installs its regions and background; during play the angler and lure change as IdleStep or LineStep say, and off play they stay |
| FishingGame.Game.SwitchScreen | src/main.c:723-783 | handle_input's switch: the same effects before the START-release test |
| FishingGame.Game.TitleInput | src/main.c:724-730 | START starts play, installing the gameplay regions and backdrop |
| FishingGame.Game.PauseInput | src/main.c:776-782 | a fresh START resumes play, removing the pause region and repainting its cells with sky |
| FishingGame.Game.PlayingInput | src/main.c:732-774 | the controls, then START pauses and adds the pause region |
| FishingGame.Game.PauseGame | src/main.c:769-773 | pausing sets the state and the transition flag and adds the pause region |
| FishingGame.Game.PlayControls | src/main.c:733-768 | with no line out the angler and lure follow IdleStep; with the line out the angler follows LineStep and the lure stays |
| FishingGame.Game.IdleControls | src/main.c:733-757 | the walk then the charge, as IdleStep |
| FishingGame.Game.WalkStep | src/main.c:735-742 | the position and facing after the two movement tests, as Walk |
| FishingGame.Game.ChargeStep | src/main.c:744-757 | the charge and the cast on release, as ChargeOrCast |
| FishingGame.Game.LineControls | src/main.c:758-768 | reeling with B, as LineStep |
| FishingGame.Game.StartCast | src/main.c:593-605 | a line is out, the pose is casting, and the lure is launched from the rod tip |
| FishingGame.Game.ThrowLure | src/main.c:595-604 | the lure as Launched leaves it |
| FishingGame.Game.UpdateLure | src/main.c:523-591 | with a line out, the lure follows the rod tip while charging, takes a FlightStep while flying, and a WaterStep in the water; with no line out it stays |
| FishingGame.Game.FlyLure | src/main.c:533-564 | the flying case as FlightStep |
| FishingGame.Game.FlyAcross | src/main.c:534-545 | the horizontal move with its two clamps |
| FishingGame.Game.FlyUpDown | src/main.c:547-554 | the vertical move, the top clamp and gravity |
| FishingGame.Game.SettleLure | src/main.c:566-583 | the in-water case as WaterStep |
| FishingGame.Game.UpdateLine | src/main.c:493-521 | with a line out, segment i is visible at LinePoint/SegmentY between the rod tip and the lure, its ends on the rod tip and the lure (one pixel off in the water); otherwise every segment is hidden; sprite ids stay |
| FishingGame.Game.SpawnInto | src/main.c:470-488 | slot k becomes Spawned and the other slots stay |
| FishingGame.Game.HandleSlot | src/main.c:384-490 | one slot's update, as FishStep |
| FishingGame.Game.PursueSlot | src/main.c:395-426 | the pursuit branch, as Pursue |
| FishingGame.Game.ClearOtherInterest | src/main.c:421-425 | every other live fish loses interest |
| FishingGame.Game.SwimSlot | src/main.c:428-446 | the swimming branch, as Swim |
| FishingGame.Game.StruggleSlot | src/main.c:449-465 | the hooked branch, as Struggle |
| FishingGame.Game.HandleFish | src/main.c:383-491 | the slots in order, as FishRound, keeping Valid |
| FishingGame.Game.FirstHookedSlot | src/main.c:627-628 | the search finds the first live hooked slot, or reports that there is none |
| FishingGame.Game.HandleCatch | src/main.c:606-685 | nothing happens unless the player reels; beyond distance 8 the lure takes a ReelStep; within it the cast ends and the interest flag clears, and the first hooked fish, if any, scores (size class + 1) × 100, is counted, updates the largest fish, and is respawned; with none on the hook the fish and score stay |
| FishingGame.Game.ReelIn | src/main.c:665-683 | the reeling move, as ReelStep toward the rod tip |
| FishingGame.Game.LandCatch | src/main.c:619-657 | the catch once the lure is back, as in HandleCatch |
| FishingGame.Game.EndCast | src/main.c:621-624 | no line out, not reeling, charging phase, standing pose |
| FishingGame.Game.ScoreCatch | src/main.c:629-651 | the score, catch count and largest fish are updated, and the slot is respawned |
| FishingGame.Game.AddRegion | src/main.c:964-980 | the region count grows unless the list is full, and the slot gets the layout |
| FishingGame.Game.ClearRegions | src/main.c:982-984 | the region list is empty |
| FishingGame.Game.PaintRow | src/main.c:958 | set_bkg_tiles with a one-row buffer: exactly the cells of that row span get the tile |
| FishingGame.Game.DisplayTitle | src/main.c:791-834 | the five title regions, and the whole screen painted with sky over rows 0–9 and alternating water below |
| FishingGame.Game.TitleScenery | src/main.c:792-811 | the sky and the animated water |
| FishingGame.Game.TitleTexts | src/main.c:824-826 | the three text regions, completing the title set |
| FishingGame.Game.PaintTitle | src/main.c:813-821 | every cell gets TitleBackdrop of its row |
| FishingGame.Game.InitBackground | src/main.c:346-381 | every cell gets GameplayBackdrop |
| FishingGame.Game.PaintSky | src/main.c:351-361 | rows 0–8 get sky and clouds |
| FishingGame.Game.PaintSkyRow | src/main.c:352-360 | one sky row |
| FishingGame.Game.PaintPier | src/main.c:365-372 | the pier top and the posts of columns 0 and 5 |
| FishingGame.Game.PierColumn | src/main.c:366-371 | one pier column |
| FishingGame.Game.PaintWater | src/main.c:375-380 | rows 10–17 get water except the pier's cells of row 10 |
| FishingGame.Game.PaintWaterRow | src/main.c:376-379 | one water row |
| FishingGame.Game.DisplayGameplay | src/main.c:836-865 | the three gameplay regions, and the background as init_background draws it |
| FishingGame.Game.GameplayList | src/main.c:837-857 | the gameplay region set |
| FishingGame.Game.DisplayPause | src/main.c:878-886 | the pause text region is added |
| FishingGame.Game.RemovePause | src/main.c:888-900 | the last region is dropped, and cells 6–14 of row 8 get sky |
| FishingGame.Game.RowHasText | src/main.c:945-954 | the row test is true exactly when some listed text region covers the row |
| FishingGame.Game.UpdateAnimatedRegion | src/main.c:926-962 | an animated region advances the animation, and on a frame change exactly its cells on rows without text get the new tile |
| FishingGame.Game.RepaintRows | src/main.c:944-960 | exactly the region's cells on rows without text get the tile |
| FishingGame.Game.UpdateRegions | src/main.c:868-876 | the animation advances once per animated region; every cell ends as RepaintFrom gives it; only cells of animated regions on rows without text change, and only to animation tiles; with one animated region, as on every screen, it advances once and its cells on rows without text show the new frame's tile whenever the frame turns |
| FishingGame.Game.RepaintAll | src/main.c:870-875 | the loop over the region list leaves the animation advanced once per animated region and every cell as RepaintFrom gives it |
| FishingGame.Game.UpdateSlot | src/main.c:871-874 | region i's callback runs exactly when the region is updatable and animated, advancing the animation and repainting its rows without text on a frame change |
| FishingGame.Game.UpdateGame | src/main.c:986-1001 | keeps Valid; with no line out, the lure, angler and line stay and the fish follow FishRound |
| FishingGame.Game.Frame | src/main.c:1029-1061 | keeps Valid; the screen changes as ModeAfter; the catch state is never reached; the frame counter wraps at 256; the high score never changes; a frame spent on the title or pause screen leaves the angler, lure, fish and line as they were |
| FishingGame.Game.CheckHighScore | src/main.c:1057-1059 | only on the catch screen does a higher score become the high score |
| FishingGame.Game.ReadControls | src/main.c:1030-1031 | update_input then handle_input: the input fields take the new joypad state and its rising edges; the screen follows ModeAfter on that mask; the transition flag, regions, background, angler and lure end as HandleInput states, with the joypad as the held buttons |
| FishingGame.Game.RunScreen | src/main.c:1033-1053 | the screen's work: the catch state returns to play; on the title and pause screens the angler, lure, fish and line stay; during play with no line out, the lure, angler and line stay and the fish follow FishRound; the animation advances once per animated region |
| FishingGame.Game.CatchFrame | src/main.c:1047-1052 | the catch case runs the play work and a second catch check, keeps Valid, advances the animation once per animated region, and returns to play |
| FishingGame.Game.PlayFrame | src/main.c:1039-1040 | update_game then update_regions keep Valid; with no line out the lure, angler and line stay and the fish follow FishRound; the animation advances once per animated region |

## Left out

- Sprite moves, sprite tiles and props, `set_bkg_data`, font loading and
  `printf` text are display output and are not recorded. This covers
  `update_player_position`, `init_sprites`, `draw_score`, the sprite side
  of `animate_player` and `update_power_meter`, and `wait_vbl_done`.
  `PlayerSprites` (with `PlayerMirror`) and `MeterFill` state the tiles,
  flips and segment counts those routines compute.
- `joypad()` is the parameter of `Frame` and `UpdateInput`. Every `rand()`
  result is an injected `Uint8`, one per call site (`FishDraws`,
  `SpawnDraws`, `FrameDraws`), so `rand() % n` is never negative.
- `init` (`initrand`, `SPRITES_8x8`, `SHOW_*`) and the `while(1)` loop
  itself are left out. `Frame` models one pass of the loop.
- `reel_speed` is only ever written, and it is a float. `bite_timer`,
  `active_fish` and `has_bite` are never used. None of the four is a field
  of `Game`.
- The bite look of the lure (`lure_state` 2) exists in `LureLook` but is
  never assigned, as in the source.
- `bkg` records only the visible 20×18 cells. Writes outside them are not
  recorded: the tile map's wrap-around in `set_bkg_tiles` and
  `set_bkg_tile_xy` is not modelled.
- `update_animated_region`'s `row_tiles` buffer is folded into `PaintRow`,
  which writes the tile directly.
- FishingGame.Game.AddRegion: its precondition (an animated region must fit
  the 20-cell row buffer and end before row 255) excludes layouts the C
  accepts. Every call in the game passes a constant layout that meets it.
- FishingGame.Game.UpdateGame: it states the whole new state only when no
  line is out. With a line out it states only `Valid`; the lure, line and
  catch steps are specified by `UpdateLure`, `UpdateLine` and `HandleCatch`.
- FishingGame.Game.Frame: during play it does not compose the controls'
  result with the play work; `ReadControls` and `RunScreen` state each half.
- FishingGame.Game.RunScreen: during play with a line out, and in the catch
  state, it states only `Valid` and the animation step. The lure, line and
  catch steps are specified by `UpdateLure`, `UpdateLine` and `HandleCatch`.
- FishingGame.Game.CatchFrame: it states only `Valid`, the animation step
  and the return to play. The catch state is never entered.
- FishingGame.Game.PlayFrame: with a line out it states only `Valid` and the
  animation step, for the reason given for `UpdateGame`.
- `check_high_score` can run only in `STATE_CATCH`, which nothing assigns.
  It is modelled (`CheckHighScore`), and `Frame` proves it never fires.
