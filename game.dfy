/** The Space-Invaders session of `GameCanvas.js`: the closure state of one
    Phaser scene (score, lives, alien speed and direction, the alien-fire clock,
    the game-over flag) and the alien, bullet and player entities it drives.
    Phaser's overlap callbacks are the events `HitAlien` and `HitPlayer`, the
    scene clock is an integer number of milliseconds, and the random shooter is
    an index chosen by the caller. */
module Game {
  import opened Wrappers

  const InitialLives := 3
  const InitialSpeed := 50
  const DropDistance := 30
  const BounceSpeedUp := 10
  const WaveSpeedUp := 20
  const AlienPoints := 10
  const WaveBonus := 100
  const LeftBound := 30
  const RightBound := 770
  const LoseLine := 500
  const FireInterval := 1000
  const GridRows := 5
  const GridCols := 10
  const PlayerStartX := 400
  const PlayerY := 550
  const PlayerSpeed := 300
  const PlayerBulletVy := -400
  const AlienBulletVy := 200
  /** The playfield is 800 pixels wide and the player sprite 40: with
      `setCollideWorldBounds` its centre stays within [20, 780]. */
  const PlayerMinX := 20
  const PlayerMaxX := 780

  datatype Alien = Alien(x: int, y: int, vx: int)
  datatype Bullet = Bullet(x: int, y: int, vy: int)

  /** What touched the player: an alien bullet (the overlap at line 107) or
      an alien of the flock (the overlap at line 108), by index. */
  datatype Contact = BulletContact(bullet: nat) | AlienContact(alien: nat)

  /** Keys held down and whether SPACE was pressed since the last frame. */
  datatype Input = Input(left: bool, right: bool, fire: bool)

  /** What the player sees after `endGame`: the toast of the score upload. */
  datatype Notice = NoNotice | ScoreSaved(score: int) | SaveFailed

  /** The effects of `endGame`: the score handed to the uploader, if any, the
      notice shown, and the score later reported through `onGameOver`. */
  datatype Ending = Ending(upload: Option<int>, notice: Notice, reported: int)

  // ---------------------------------------------------------------------------
  // The alien grid

  /** Row `y` of `createAlienGrid`: ten aliens 60 pixels apart. */
  function Row(y: nat, vx: int): seq<Alien> {
    seq(GridCols, x => Alien(x * 60 + 100, y * 50 + 50, vx))
  }

  /** The first `n` rows, in creation order. */
  function Rows(n: nat, vx: int): seq<Alien> {
    if n == 0 then [] else Rows(n - 1, vx) + Row(n - 1, vx)
  }

  /** The aliens one call of `createAlienGrid` adds, all moving at `vx`. */
  function Grid(vx: int): seq<Alien> {
    Rows(GridRows, vx)
  }

  lemma {:induction false} RowsAt(n: nat, vx: int, x: nat, y: nat)
    requires x < GridCols && y < n
    ensures |Rows(n, vx)| == GridCols * n
    ensures Rows(n, vx)[y * GridCols + x] == Alien(x * 60 + 100, y * 50 + 50, vx)
  {
    if y < n - 1 {
      RowsAt(n - 1, vx, x, y);
    } else if n > 1 {
      RowsAt(n - 1, vx, 0, 0);
    }
  }

  /** The grid holds exactly 50 aliens, the one in column x and row y at
      (x*60+100, y*50+50), each with velocity `vx`. */
  lemma GridLayout(vx: int, x: nat, y: nat)
    requires x < GridCols && y < GridRows
    ensures |Grid(vx)| == 50
    ensures Grid(vx)[y * GridCols + x] == Alien(x * 60 + 100, y * 50 + 50, vx)
  {
    RowsAt(GridRows, vx, x, y);
  }

  lemma {:induction false} RowsInside(n: nat, vx: int)
    requires n <= GridRows
    ensures forall i :: 0 <= i < |Rows(n, vx)| ==>
      100 <= Rows(n, vx)[i].x <= 640 && 50 <= Rows(n, vx)[i].y <= 250 && Rows(n, vx)[i].vx == vx
  {
    if n > 0 {
      RowsInside(n - 1, vx);
    }
  }

  /** A fresh grid neither touches a side bound nor crosses the lose line. */
  lemma GridInside(vx: int)
    ensures !AtBounds(Grid(vx)) && !Crossed(Grid(vx))
    ensures forall i :: 0 <= i < |Grid(vx)| ==> Grid(vx)[i].vx == vx
  {
    RowsInside(GridRows, vx);
  }

  // ---------------------------------------------------------------------------
  // Predicates the frame update tests

  predicate OutOfLane(a: Alien) { a.x <= LeftBound || a.x >= RightBound }

  /** Some alien has reached a side: the flock must bounce. */
  predicate AtBounds(s: seq<Alien>) {
    exists i :: 0 <= i < |s| && OutOfLane(s[i])
  }

  /** Some alien is below the lose line. */
  predicate Crossed(s: seq<Alien>) {
    exists i :: 0 <= i < |s| && s[i].y > LoseLine
  }

  /** The flock after a bounce: every alien one drop lower, moving at `vx`. */
  function Dropped(s: seq<Alien>, vx: int): (r: seq<Alien>)
    ensures |r| == |s|
  {
    seq(|s|, i requires 0 <= i < |s| => Alien(s[i].x, s[i].y + DropDistance, vx))
  }

  /** The flock after `dtMs` milliseconds of Phaser's integration. */
  function Drifted(s: seq<Alien>, dtMs: nat): (r: seq<Alien>)
    ensures |r| == |s|
  {
    seq(|s|, i requires 0 <= i < |s| => Alien(s[i].x + s[i].vx * dtMs / 1000, s[i].y, s[i].vx))
  }

  /** The bullet an alien fires: 20 pixels below it, falling at 200. */
  function Shot(a: Alien): Bullet {
    Bullet(a.x, a.y + 20, AlienBulletVy)
  }

  function Remove<T>(s: seq<T>, i: nat): (r: seq<T>)
    requires i < |s|
    ensures |r| == |s| - 1
  {
    s[..i] + s[i + 1..]
  }

  predicate Uniform(s: seq<Alien>, vx: int) {
    forall i :: 0 <= i < |s| ==> s[i].vx == vx
  }

  /** The scan of `moveAliens` for an alien at a side bound. */
  method AnyAtBounds(aliens: seq<Alien>) returns (hit: bool)
    ensures hit <==> AtBounds(aliens)
  {
    hit := false;
    for i := 0 to |aliens|
      invariant hit <==> exists j :: 0 <= j < i && OutOfLane(aliens[j])
    {
      if OutOfLane(aliens[i]) {
        hit := true;
      }
    }
  }

  /** The `bottomAlien` scan of `update`: the first alien of greatest y, or
      none for an empty flock. */
  method Lowest(aliens: seq<Alien>) returns (bottom: Option<nat>)
    ensures bottom.None? <==> aliens == []
    ensures bottom.Some? ==> bottom.value < |aliens|
    ensures bottom.Some? ==> forall j :: 0 <= j < |aliens| ==> aliens[j].y <= aliens[bottom.value].y
    ensures bottom.Some? ==> forall j :: 0 <= j < bottom.value ==> aliens[j].y < aliens[bottom.value].y
  {
    bottom := None;
    for i := 0 to |aliens|
      invariant bottom.None? <==> i == 0
      invariant bottom.Some? ==> bottom.value < i
      invariant bottom.Some? ==> forall j :: 0 <= j < i ==> aliens[j].y <= aliens[bottom.value].y
      invariant bottom.Some? ==> forall j :: 0 <= j < bottom.value ==> aliens[j].y < aliens[bottom.value].y
    {
      if bottom.None? || aliens[i].y > aliens[bottom.value].y {
        bottom := Some(i);
      }
    }
  }

  /** `endGame`'s upload gate and what follows it: the score is uploaded iff a
      wallet is connected and the score is positive; the outcome is caught and
      shown; `onGameOver(score)` is scheduled in every case. */
  function GameEnding(wallet: string, score: int, uploadOk: bool): (e: Ending)
    ensures e.upload.Some? <==> wallet != "" && score > 0
    ensures e.upload.Some? ==> e.upload.value == score
    ensures e.notice == NoNotice <==> e.upload.None?
    ensures e.notice == ScoreSaved(score) <==> e.upload.Some? && uploadOk
    ensures e.upload.Some? && !uploadOk ==> e.notice == SaveFailed
    ensures e.reported == score
  {
    var attempt := wallet != "" && score > 0;
    Ending(if attempt then Some(score) else None,
           if !attempt then NoNotice else if uploadOk then ScoreSaved(score) else SaveFailed,
           score)
  }

  /** Which way the player moves: LEFT wins over RIGHT. */
  function PlayerVelocity(input: Input): (vx: int)
    ensures input.left ==> vx == -PlayerSpeed
    ensures !input.left && input.right ==> vx == PlayerSpeed
    ensures !input.left && !input.right ==> vx == 0
  {
    if input.left then -PlayerSpeed else if input.right then PlayerSpeed else 0
  }

  function Clamp(x: int, lo: int, hi: int): int
    requires lo <= hi
  {
    if x < lo then lo else if x > hi then hi else x
  }

  // ---------------------------------------------------------------------------
  // The session

  class Session {
    /** `walletAddress` as the scene's closure captured it. */
    const wallet: string
    var score: int
    var lives: int
    var alienSpeed: int
    var alienDirection: int
    var lastAlienShot: int
    var gameOver: bool
    var aliens: seq<Alien>
    var bullets: seq<Bullet>
    var alienBullets: seq<Bullet>
    var playerX: int
    var playerVx: int
    /** Whether `hitPlayer` has destroyed the player sprite. */
    var playerDestroyed: bool

    /** History: direction bounces, waves cleared, aliens shot, player hits. */
    ghost var bounces: nat
    ghost var waves: nat
    ghost var kills: nat
    ghost var hits: nat
    /** The velocity every alien of the flock shares. */
    ghost var flockVx: int

    ghost predicate Valid()
      reads this
    {
      && alienSpeed == InitialSpeed + BounceSpeedUp * bounces + WaveSpeedUp * waves
      && alienDirection == (if bounces % 2 == 0 then 1 else -1)
      && score == AlienPoints * kills + WaveBonus * waves
      && hits <= InitialLives && lives == InitialLives - hits
      && (!gameOver ==> lives > 0)
      && Uniform(aliens, flockVx)
      && 0 < flockVx * alienDirection <= alienSpeed
      && PlayerMinX <= playerX <= PlayerMaxX
    }

    /** The closure variables at lines 42-49 and `create`'s player and grid. */
    constructor (wallet: string)
      ensures Valid()
      ensures this.wallet == wallet
      ensures score == 0 && lives == InitialLives && !gameOver
      ensures alienSpeed == InitialSpeed && alienDirection == 1 && lastAlienShot == 0
      ensures aliens == Grid(InitialSpeed)
      ensures bullets == [] && alienBullets == []
      ensures playerX == PlayerStartX && playerVx == 0 && !playerDestroyed
      ensures bounces == 0 && waves == 0 && kills == 0 && hits == 0
    {
      this.wallet := wallet;
      score, lives, gameOver := 0, InitialLives, false;
      alienSpeed, alienDirection, lastAlienShot := InitialSpeed, 1, 0;
      aliens, bullets, alienBullets := [], [], [];
      playerX, playerVx, playerDestroyed := PlayerStartX, 0, false;
      bounces, waves, kills, hits := 0, 0, 0, 0;
      flockVx := InitialSpeed;
      new;
      CreateAlienGrid();
      GridInside(InitialSpeed);
    }

    /** `createAlienGrid`: appends five rows of ten aliens moving at
        `alienSpeed * alienDirection`. */
    method CreateAlienGrid()
      modifies this`aliens
      ensures aliens == old(aliens) + Grid(alienSpeed * alienDirection)
    {
      var vx := alienSpeed * alienDirection;
      for y := 0 to GridRows
        invariant aliens == old(aliens) + Rows(y, vx)
      {
        for x := 0 to GridCols
          invariant aliens == old(aliens) + Rows(y, vx) + Row(y, vx)[..x]
        {
          assert Row(y, vx)[..x + 1] == Row(y, vx)[..x] + [Alien(x * 60 + 100, y * 50 + 50, vx)];
          aliens := aliens + [Alien(x * 60 + 100, y * 50 + 50, vx)];
        }
        assert Row(y, vx)[..GridCols] == Row(y, vx);
      }
    }

    /** `moveAliens`: when some alien is at a side bound the direction flips,
        every alien drops by 30 and takes the velocity of the pre-increment
        speed in the new direction, and then the speed grows by 10; otherwise
        nothing changes. */
    method MoveAliens()
      requires Valid()
      modifies this`alienDirection, this`aliens, this`alienSpeed, this`bounces, this`flockVx
      ensures Valid()
      ensures AtBounds(old(aliens)) ==>
        && alienDirection == -old(alienDirection)
        && aliens == Dropped(old(aliens), old(alienSpeed) * alienDirection)
        && alienSpeed == old(alienSpeed) + BounceSpeedUp
        && bounces == old(bounces) + 1
      ensures !AtBounds(old(aliens)) ==>
        alienDirection == old(alienDirection) && aliens == old(aliens) &&
        alienSpeed == old(alienSpeed) && bounces == old(bounces)
    {
      var hitBounds := AnyAtBounds(aliens);
      if hitBounds {
        alienDirection := -alienDirection;
        var vx := alienSpeed * alienDirection;
        var next := aliens;
        var i := 0;
        while i < |next|
          invariant 0 <= i <= |next| == |aliens|
          invariant next[..i] == Dropped(aliens, vx)[..i]
          invariant next[i..] == aliens[i..]
        {
          next := next[i := Alien(next[i].x, next[i].y + DropDistance, vx)];
          i := i + 1;
        }
        assert next == next[..i];
        aliens := next;
        alienSpeed := alienSpeed + BounceSpeedUp;
        bounces := bounces + 1;
        flockVx := vx;
      }
    }

    /** `shoot`: a bullet 20 pixels above the player, flying up at 400. */
    method Shoot()
      modifies this`bullets
      ensures bullets == old(bullets) + [Bullet(playerX, PlayerY - 20, PlayerBulletVy)]
    {
      bullets := bullets + [Bullet(playerX, PlayerY - 20, PlayerBulletVy)];
    }

    /** `alienShoot`: with no alien nothing happens; otherwise the chosen
        alien fires a bullet 20 pixels below it, falling at 200. */
    method AlienShoot(shooter: nat)
      requires shooter < |aliens| || aliens == []
      modifies this`alienBullets
      ensures aliens == [] ==> alienBullets == old(alienBullets)
      ensures aliens != [] ==> alienBullets == old(alienBullets) + [Shot(aliens[shooter])]
    {
      if aliens == [] {
        return;
      }
      alienBullets := alienBullets + [Shot(aliens[shooter])];
    }

    /** `nextWave`: 100 bonus points, a fresh grid at the current speed, and
        then the speed grows by 20. */
    method NextWave()
      requires Valid() && aliens == []
      modifies this`score, this`aliens, this`alienSpeed, this`waves, this`flockVx
      ensures Valid()
      ensures score == old(score) + WaveBonus
      ensures aliens == Grid(old(alienSpeed) * alienDirection)
      ensures alienSpeed == old(alienSpeed) + WaveSpeedUp
      ensures waves == old(waves) + 1
    {
      score := score + WaveBonus;
      CreateAlienGrid();
      GridInside(alienSpeed * alienDirection);
      flockVx := alienSpeed * alienDirection;
      alienSpeed := alienSpeed + WaveSpeedUp;
      waves := waves + 1;
    }

    /** `endGame`: the session is over for good; see `GameEnding`. */
    method EndGame(uploadOk: bool) returns (e: Ending)
      modifies this`gameOver
      ensures gameOver
      ensures e == GameEnding(wallet, score, uploadOk)
    {
      gameOver := true;
      e := GameEnding(wallet, score, uploadOk);
    }

    /** `hitAlien(bullet, alien)`: both are removed and the score grows by 10.
        After the game has ended the paused physics reports no overlap. */
    method HitAlien(bullet: nat, alien: nat)
      requires Valid() && bullet < |bullets| && alien < |aliens|
      modifies this
      ensures Valid()
      ensures old(gameOver) ==> unchanged(this)
      ensures !old(gameOver) ==>
        && bullets == Remove(old(bullets), bullet)
        && aliens == Remove(old(aliens), alien)
        && score == old(score) + AlienPoints
        && kills == old(kills) + 1
      ensures !old(gameOver) ==>
        && lives == old(lives) && gameOver == old(gameOver)
        && alienSpeed == old(alienSpeed) && alienDirection == old(alienDirection)
        && lastAlienShot == old(lastAlienShot) && alienBullets == old(alienBullets)
        && playerX == old(playerX) && playerVx == old(playerVx) && playerDestroyed == old(playerDestroyed)
        && bounces == old(bounces) && waves == old(waves) && hits == old(hits)
    {
      if gameOver {
        return;
      }
      bullets := Remove(bullets, bullet);
      aliens := Remove(aliens, alien);
      score := score + AlienPoints;
      kills := kills + 1;
    }

    /** `hitPlayer(alienBullet, player)`: the callback destroys its first
        argument, which is always a sprite; one life is lost; with no life
        left the game ends.  Which sprite comes first is Phaser's argument
        order for a group-versus-sprite overlap, given as `groupFirst`: the
        touching bullet or alien when true, the player sprite when false. */
    method HitPlayer(hit: Contact, groupFirst: bool, uploadOk: bool) returns (ending: Option<Ending>)
      requires Valid()
      requires hit.BulletContact? ==> hit.bullet < |alienBullets|
      requires hit.AlienContact? ==> hit.alien < |aliens|
      modifies this
      ensures Valid()
      ensures old(gameOver) ==> unchanged(this) && ending == None
      ensures !old(gameOver) ==>
        && alienBullets == (if groupFirst && hit.BulletContact? then Remove(old(alienBullets), hit.bullet) else old(alienBullets))
        && aliens == (if groupFirst && hit.AlienContact? then Remove(old(aliens), hit.alien) else old(aliens))
        && playerDestroyed == (old(playerDestroyed) || !groupFirst)
      ensures !old(gameOver) ==>
        && lives == old(lives) - 1
        && hits == old(hits) + 1
        && gameOver == (lives <= 0)
        && ending == (if lives <= 0 then Some(GameEnding(wallet, score, uploadOk)) else None)
      ensures !old(gameOver) ==>
        && score == old(score) && bullets == old(bullets)
        && alienSpeed == old(alienSpeed) && alienDirection == old(alienDirection)
        && lastAlienShot == old(lastAlienShot) && playerX == old(playerX) && playerVx == old(playerVx)
        && bounces == old(bounces) && waves == old(waves) && kills == old(kills)
    {
      ending := None;
      if gameOver {
        return;
      }
      if !groupFirst {
        playerDestroyed := true;
      } else if hit.BulletContact? {
        alienBullets := Remove(alienBullets, hit.bullet);
      } else {
        aliens := Remove(aliens, hit.alien);
      }
      lives := lives - 1;
      hits := hits + 1;
      if lives <= 0 {
        var e := EndGame(uploadOk);
        ending := Some(e);
      }
    }

    /** Phaser's arcade step between frames, which is not code of the game:
        aliens and the player move by velocity times elapsed time (whole
        pixels), the player held inside the playfield. */
    method Advance(dtMs: nat)
      requires Valid()
      modifies this
      ensures Valid()
      ensures old(gameOver) ==> unchanged(this)
      ensures !old(gameOver) ==>
        && aliens == Drifted(old(aliens), dtMs)
        && playerX == Clamp(old(playerX) + old(playerVx) * dtMs / 1000, PlayerMinX, PlayerMaxX)
      ensures !old(gameOver) ==>
        && score == old(score) && lives == old(lives) && gameOver == old(gameOver)
        && alienSpeed == old(alienSpeed) && alienDirection == old(alienDirection)
        && lastAlienShot == old(lastAlienShot) && bullets == old(bullets)
        && alienBullets == old(alienBullets) && playerVx == old(playerVx) && playerDestroyed == old(playerDestroyed)
        && bounces == old(bounces) && waves == old(waves) && kills == old(kills) && hits == old(hits)
    {
      if gameOver {
        return;
      }
      aliens := Drifted(aliens, dtMs);
      playerX := Clamp(playerX + playerVx * dtMs / 1000, PlayerMinX, PlayerMaxX);
    }

    /** The alien-fire timer of `update`: more than 1000 ms after the last
        alien shot an alien fires, and the clock is reset even when no alien
        is left to fire. */
    method FireAliens(now: int, shooter: nat)
      requires shooter < |aliens| || aliens == []
      modifies this`alienBullets, this`lastAlienShot
      ensures now > old(lastAlienShot) + FireInterval ==>
        && lastAlienShot == now
        && alienBullets == old(alienBullets) + (if aliens != [] then [Shot(aliens[shooter])] else [])
      ensures now <= old(lastAlienShot) + FireInterval ==>
        lastAlienShot == old(lastAlienShot) && alienBullets == old(alienBullets)
    {
      if now > lastAlienShot + FireInterval {
        AlienShoot(shooter);
        lastAlienShot := now;
      }
    }

    /** The lose check of `update`: the game ends when the lowest alien is
        below the lose line. */
    method CheckLoss(uploadOk: bool) returns (ending: Option<Ending>)
      requires !gameOver
      modifies this`gameOver
      ensures gameOver == Crossed(aliens)
      ensures ending == (if gameOver then Some(GameEnding(wallet, score, uploadOk)) else None)
    {
      ending := None;
      var bottom := Lowest(aliens);
      if bottom.Some? && aliens[bottom.value].y > LoseLine {
        var e := EndGame(uploadOk);
        ending := Some(e);
      }
    }

    /** The start of `update`: LEFT, RIGHT or neither sets the player's
        velocity, and SPACE pressed since the last frame fires. */
    method Steer(input: Input)
      requires Valid()
      modifies this`playerVx, this`bullets
      ensures Valid()
      ensures playerVx == PlayerVelocity(input)
      ensures bullets == old(bullets) + (if input.fire then [Bullet(playerX, PlayerY - 20, PlayerBulletVy)] else [])
    {
      playerVx := PlayerVelocity(input);
      if input.fire {
        Shoot();
      }
    }

    /** The middle of `update`: `moveAliens`, the alien-fire timer, and the
        next wave when no alien is left. */
    method March(now: int, shooter: nat)
      requires Valid()
      requires shooter < |aliens| || aliens == []
      modifies this`alienDirection, this`aliens, this`alienSpeed, this`bounces, this`flockVx
      modifies this`alienBullets, this`lastAlienShot, this`score, this`waves
      ensures Valid()
      ensures
        var bounced := AtBounds(old(aliens));
        && alienDirection == (if bounced then -old(alienDirection) else old(alienDirection))
        && bounces == old(bounces) + (if bounced then 1 else 0)
      ensures
        var bounced := AtBounds(old(aliens));
        var marched := if bounced then Dropped(old(aliens), old(alienSpeed) * alienDirection) else old(aliens);
        var fires := now > old(lastAlienShot) + FireInterval;
        && lastAlienShot == (if fires then now else old(lastAlienShot))
        && alienBullets == old(alienBullets) +
             (if fires && marched != [] then [Shot(marched[shooter])] else [])
      ensures
        var bounced := AtBounds(old(aliens));
        var marched := if bounced then Dropped(old(aliens), old(alienSpeed) * alienDirection) else old(aliens);
        var speed := old(alienSpeed) + (if bounced then BounceSpeedUp else 0);
        var cleared := old(aliens) == [];
        && aliens == (if cleared then Grid(speed * alienDirection) else marched)
        && alienSpeed == speed + (if cleared then WaveSpeedUp else 0)
        && score == old(score) + (if cleared then WaveBonus else 0)
        && waves == old(waves) + (if cleared then 1 else 0)
    {
      MoveAliens();
      FireAliens(now, shooter);
      if aliens == [] {
        NextWave();
      }
    }

    /** `update`, one frame at scene time `now`: nothing once the game is
        over; otherwise steer, maybe shoot, `moveAliens`, let an alien fire
        when more than 1000 ms have passed since the last alien shot (the
        clock is reset even with no alien left), start the next wave when no
        alien is left, and end the game when the lowest alien is below 500. */
    method Update(now: int, input: Input, shooter: nat, uploadOk: bool) returns (ending: Option<Ending>)
      requires Valid()
      requires shooter < |aliens| || aliens == []
      modifies this`playerVx, this`bullets, this`alienDirection, this`aliens, this`alienSpeed
      modifies this`bounces, this`flockVx, this`alienBullets, this`lastAlienShot
      modifies this`score, this`waves, this`gameOver
      ensures Valid()
      ensures old(gameOver) ==> unchanged(this) && ending == None
      ensures !old(gameOver) ==>
        && playerVx == PlayerVelocity(input)
        && playerX == old(playerX)
        && bullets == old(bullets) + (if input.fire then [Bullet(playerX, PlayerY - 20, PlayerBulletVy)] else [])
        && lives == old(lives) && hits == old(hits) && kills == old(kills)
        && playerDestroyed == old(playerDestroyed)
      ensures !old(gameOver) ==>
        var bounced := AtBounds(old(aliens));
        && alienDirection == (if bounced then -old(alienDirection) else old(alienDirection))
        && bounces == old(bounces) + (if bounced then 1 else 0)
      ensures !old(gameOver) ==>
        var bounced := AtBounds(old(aliens));
        var marched := if bounced then Dropped(old(aliens), old(alienSpeed) * alienDirection) else old(aliens);
        var fires := now > old(lastAlienShot) + FireInterval;
        && lastAlienShot == (if fires then now else old(lastAlienShot))
        && alienBullets == old(alienBullets) +
             (if fires && marched != [] then [Shot(marched[shooter])] else [])
      ensures !old(gameOver) ==>
        var bounced := AtBounds(old(aliens));
        var marched := if bounced then Dropped(old(aliens), old(alienSpeed) * alienDirection) else old(aliens);
        var speed := old(alienSpeed) + (if bounced then BounceSpeedUp else 0);
        var cleared := old(aliens) == [];
        && aliens == (if cleared then Grid(speed * alienDirection) else marched)
        && alienSpeed == speed + (if cleared then WaveSpeedUp else 0)
        && score == old(score) + (if cleared then WaveBonus else 0)
        && waves == old(waves) + (if cleared then 1 else 0)
      ensures !old(gameOver) ==>
        && gameOver == Crossed(aliens)
        && ending == (if gameOver then Some(GameEnding(wallet, score, uploadOk)) else None)
    {
      ending := None;
      if gameOver {
        return;
      }
      Steer(input);
      March(now, shooter);
      ending := CheckLoss(uploadOk);
    }
  }

  /** Fifty shots that each hit an alien of a fresh session score 500; the
      next frame finds the flock empty, adds the 100-point wave bonus and a
      new grid of 50, and the session goes on. */
  method ClearFirstWave() returns (score: int, aliensLeft: nat, speed: int, over: bool)
    ensures score == 600 && aliensLeft == 50 && speed == InitialSpeed + WaveSpeedUp && !over
  {
    var s := new Session("");
    GridLayout(InitialSpeed, 0, 0);
    var k := 0;
    while k < 50
      invariant 0 <= k <= 50
      invariant s.Valid() && !s.gameOver
      invariant |s.aliens| == 50 - k
      invariant s.score == AlienPoints * k
      invariant s.alienSpeed == InitialSpeed && s.alienDirection == 1
    {
      s.Shoot();
      s.HitAlien(|s.bullets| - 1, 0);
      k := k + 1;
    }
    var e := s.Update(0, Input(false, false, false), 0, true);
    GridInside(InitialSpeed);
    GridLayout(InitialSpeed, 0, 0);
    score, aliensLeft, speed, over := s.score, |s.aliens|, s.alienSpeed, s.gameOver;
  }

  /** A fresh flock drifting right for 2.6 seconds brings its rightmost alien
      (column 9 at x 640, moving at 50) to x 770, the right bound; the next
      frame bounces the flock, reversing it and speeding it up to 60. */
  method DriftToBounds() returns (hit: bool, direction: int, speed: int)
    ensures hit && direction == -1 && speed == InitialSpeed + BounceSpeedUp
  {
    var s := new Session("");
    GridLayout(InitialSpeed, 9, 0);
    s.Advance(2600);
    assert s.aliens[9] == Alien(RightBound, 50, InitialSpeed);
    hit := AnyAtBounds(s.aliens);
    var e := s.Update(0, Input(false, false, false), 0, true);
    direction, speed := s.alienDirection, s.alienSpeed;
  }
}
