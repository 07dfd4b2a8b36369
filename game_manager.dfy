/** Session counters of the game manager: bricks left in the level, score and
    lives, the two HUD labels that show them, and the calls into the scene
    handler that a cleared level and a lost game make. The bricks container
    is a presence flag; its child count is given to OnEnable. */
module GameSession {
  import opened SceneHandling
  import opened Labels

  /** The manager's counters and labels as a value. A label without a text
      component (`hasLivesText`, `hasScoreText` false) is never written. */
  datatype Session = Session(
    hasBricksContainer: bool,
    totalBrickCount: int,
    currentBrickCount: int,
    score: int,
    maxLives: int,
    hasLivesText: bool,
    livesText: string,
    hasScoreText: bool,
    scoreText: string)

  /** The manager together with the scene handler it calls. */
  datatype Game = Game(session: Session, scenes: SceneState)

  /** Every label that exists shows the current counter. */
  predicate LabelsCurrent(g: Session) {
    && (g.hasLivesText ==> g.livesText == LivesLabel(g.maxLives))
    && (g.hasScoreText ==> g.scoreText == ScoreLabel(g.score))
  }

  /** Counters and configuration agree; only the label texts may differ. */
  predicate SameCounters(g: Session, r: Session) {
    && r.hasBricksContainer == g.hasBricksContainer
    && r.totalBrickCount == g.totalBrickCount
    && r.currentBrickCount == g.currentBrickCount
    && r.score == g.score
    && r.maxLives == g.maxLives
    && r.hasLivesText == g.hasLivesText
    && r.hasScoreText == g.hasScoreText
  }

  /** UpdateLivesUI. */
  function ShowLives(g: Session): (r: Session)
    ensures SameCounters(g, r) && r.scoreText == g.scoreText
    ensures g.hasLivesText ==> r.livesText == LivesLabel(g.maxLives)
    ensures !g.hasLivesText ==> r == g
  {
    if g.hasLivesText then g.(livesText := LivesLabel(g.maxLives)) else g
  }

  /** UpdateScoreUI. */
  function ShowScore(g: Session): (r: Session)
    ensures SameCounters(g, r) && r.livesText == g.livesText
    ensures g.hasScoreText ==> r.scoreText == ScoreLabel(g.score)
    ensures !g.hasScoreText ==> r == g
  {
    if g.hasScoreText then g.(scoreText := ScoreLabel(g.score)) else g
  }

  /** OnEnable: both brick counts become the container's child count and both
      labels are brought up to date. Without a container the read of its
      child count throws, and nothing changes. */
  function Enable(g: Session, childCount: nat): (r: Session)
    ensures !g.hasBricksContainer ==> r == g
    ensures g.hasBricksContainer ==>
      && r.totalBrickCount == childCount
      && r.currentBrickCount == childCount
      && r.score == g.score && r.maxLives == g.maxLives
      && LabelsCurrent(r)
  {
    if !g.hasBricksContainer then g
    else ShowScore(ShowLives(g.(totalBrickCount := childCount, currentBrickCount := childCount)))
  }

  /** The brick destroyed in this state is the one that empties the level:
      the decremented count is exactly 0. */
  predicate ClearsLevel(g: Session) {
    g.hasBricksContainer && g.currentBrickCount - 1 == 0
  }

  /** OnBrickDestroyed, on the counters: one brick fewer and one point more,
      with no lower bound on the count; nothing without a container. */
  function BrickDestroyed(g: Session): (r: Session)
    ensures !g.hasBricksContainer ==> r == g
    ensures g.hasBricksContainer ==>
      && r.currentBrickCount == g.currentBrickCount - 1
      && r.score == g.score + 1
      && r.totalBrickCount == g.totalBrickCount && r.maxLives == g.maxLives
      && r.livesText == g.livesText
    ensures LabelsCurrent(g) ==> LabelsCurrent(r)
  {
    if !g.hasBricksContainer then g
    else ShowScore(g.(currentBrickCount := g.currentBrickCount - 1, score := g.score + 1))
  }

  /** The ball lost in this state ends the game: the decremented lives are at most 0. */
  predicate EndsGame(g: Session) {
    g.maxLives - 1 <= 0
  }

  /** KillBall, on the counters: one life fewer, lives label refreshed. */
  function BallKilled(g: Session): (r: Session)
    ensures r.maxLives == g.maxLives - 1
    ensures r.currentBrickCount == g.currentBrickCount && r.totalBrickCount == g.totalBrickCount
    ensures r.score == g.score && r.scoreText == g.scoreText
    ensures LabelsCurrent(g) ==> LabelsCurrent(r)
  {
    ShowLives(g.(maxLives := g.maxLives - 1))
  }

  /** OnBrickDestroyed on manager and scene handler: LoadNextScene is called
      exactly when the brick clears the level. */
  function BrickEvent(w: Game): (r: Game)
    requires WellFormed(w.scenes)
    ensures WellFormed(r.scenes) && r.session == BrickDestroyed(w.session)
    ensures w.session.hasBricksContainer && r.session.currentBrickCount == 0 ==>
      r.scenes == NextStep(w.scenes)
    ensures !(w.session.hasBricksContainer && r.session.currentBrickCount == 0) ==>
      r.scenes == w.scenes
  {
    Game(BrickDestroyed(w.session), if ClearsLevel(w.session) then NextStep(w.scenes) else w.scenes)
  }

  /** KillBall on manager and scene handler: the game-over path, which ends in
      LoadMenuScene, is taken exactly when the ball loss ends the game. */
  function KillEvent(w: Game): (r: Game)
    requires WellFormed(w.scenes)
    ensures WellFormed(r.scenes) && r.session == BallKilled(w.session)
    ensures r.session.maxLives <= 0 ==> r.scenes == MenuStep(w.scenes)
    ensures r.session.maxLives > 0 ==> r.scenes == w.scenes
  {
    Game(BallKilled(w.session), if EndsGame(w.session) then MenuStep(w.scenes) else w.scenes)
  }

  /** n bricks destroyed in a row. */
  function DestroyBricks(w: Game, n: nat): (r: Game)
    requires WellFormed(w.scenes)
    ensures WellFormed(r.scenes)
    decreases n
  {
    if n == 0 then w else DestroyBricks(BrickEvent(w), n - 1)
  }

  /** n balls lost in a row. */
  function KillBalls(w: Game, n: nat): (r: Game)
    requires WellFormed(w.scenes)
    ensures WellFormed(r.scenes)
    decreases n
  {
    if n == 0 then w else KillBalls(KillEvent(w), n - 1)
  }

  /** How many of n successive ball losses, starting from `lives`, take the
      game-over path: the k-th loss does when lives - k <= 0. */
  function GameOverCount(lives: int, n: nat): nat {
    if lives <= 0 then n else if n < lives then 0 else n - lives + 1
  }

  /** After n destroyed bricks the count is n lower and the score n higher,
      and the scene handler has seen LoadNextScene exactly once if the count
      passed through 0 on the way (from a count between 1 and n), and never
      otherwise: a count driven below 0 does not advance again. Without a
      container nothing changes at all. */
  lemma {:induction false} DestroyBricksEffect(w: Game, n: nat)
    requires WellFormed(w.scenes)
    ensures var g, r := w.session, DestroyBricks(w, n);
      && (g.hasBricksContainer ==>
            && r.session.currentBrickCount == g.currentBrickCount - n
            && r.session.score == g.score + n
            && r.session.totalBrickCount == g.totalBrickCount
            && r.session.maxLives == g.maxLives)
      && (!g.hasBricksContainer ==> r.session == g)
      && r.scenes == (if g.hasBricksContainer && 1 <= g.currentBrickCount <= n
                      then NextStep(w.scenes) else w.scenes)
    decreases n
  {
    if n > 0 {
      DestroyBricksEffect(BrickEvent(w), n - 1);
    }
  }

  /** After n lost balls the lives are n lower, and the scene handler has
      seen LoadMenuScene once for every loss that left the lives at or below 0. */
  lemma {:induction false} KillBallsEffect(w: Game, n: nat)
    requires WellFormed(w.scenes)
    ensures var g, r := w.session, KillBalls(w, n);
      && r.session.maxLives == g.maxLives - n
      && r.session.score == g.score
      && r.session.currentBrickCount == g.currentBrickCount
      && r.scenes == MenuSteps(w.scenes, GameOverCount(g.maxLives, n))
    decreases n
  {
    if n > 0 {
      KillBallsEffect(KillEvent(w), n - 1);
    }
  }

  /** The game manager. It calls the scene handler it holds; which text
      components and whether a bricks container are assigned is fixed. */
  class GameManager {
    const scenes: SceneHandler
    const hasBricksContainer: bool
    const hasLivesText: bool
    const hasScoreText: bool
    var totalBrickCount: int
    var currentBrickCount: int
    var score: int
    var maxLives: int
    var livesText: string
    var scoreText: string

    function State(): Session
      reads this
    {
      Session(hasBricksContainer, totalBrickCount, currentBrickCount, score, maxLives,
              hasLivesText, livesText, hasScoreText, scoreText)
    }

    ghost function World(): Game
      reads this, scenes
    {
      Game(State(), scenes.State())
    }

    ghost predicate Valid()
      reads this, scenes
    {
      scenes.Valid()
    }

    /** `maxLives` is the configured number of lives (3 unless set otherwise);
        the label texts start empty. */
    constructor (scenes: SceneHandler, hasBricksContainer: bool, hasLivesText: bool,
                 hasScoreText: bool, maxLives: int)
      ensures this.scenes == scenes
      ensures State() == Session(hasBricksContainer, 0, 0, 0, maxLives, hasLivesText, "", hasScoreText, "")
    {
      this.scenes := scenes;
      this.hasBricksContainer := hasBricksContainer;
      this.hasLivesText := hasLivesText;
      this.hasScoreText := hasScoreText;
      totalBrickCount := 0;
      currentBrickCount := 0;
      score := 0;
      this.maxLives := maxLives;
      livesText := "";
      scoreText := "";
    }

    method UpdateLivesUI()
      modifies this
      ensures State() == ShowLives(old(State()))
    {
      if hasLivesText {
        livesText := LivesLabel(maxLives);
      }
    }

    method UpdateScoreUI()
      modifies this
      ensures State() == ShowScore(old(State()))
    {
      if hasScoreText {
        scoreText := ScoreLabel(score);
      }
    }

    method OnEnable(childCount: nat)
      requires Valid()
      modifies this
      ensures Valid() && State() == Enable(old(State()), childCount)
    {
      if !hasBricksContainer {
        return;
      }
      totalBrickCount := childCount;
      currentBrickCount := childCount;
      UpdateLivesUI();
      UpdateScoreUI();
    }

    method OnBrickDestroyed()
      requires Valid()
      modifies this, scenes
      ensures World() == BrickEvent(old(World())) && Valid()
    {
      if !hasBricksContainer {
        return;
      }
      currentBrickCount := currentBrickCount - 1;
      score := score + 1;
      UpdateScoreUI();
      if currentBrickCount == 0 {
        scenes.LoadNextScene();
      }
    }

    method KillBall()
      requires Valid()
      modifies this, scenes
      ensures World() == KillEvent(old(World())) && Valid()
    {
      maxLives := maxLives - 1;
      UpdateLivesUI();
      if maxLives <= 0 {
        ShowGameOverScreen();
      }
    }

    /** The game-over path. ReturnToMainMenu, which the source delays with a
        timer when a game-over canvas is shown, runs at once here. */
    method ShowGameOverScreen()
      requires Valid()
      modifies scenes
      ensures scenes.State() == MenuStep(old(scenes.State())) && Valid()
    {
      ReturnToMainMenu();
    }

    method ReturnToMainMenu()
      requires Valid()
      modifies scenes
      ensures scenes.State() == MenuStep(old(scenes.State())) && Valid()
    {
      scenes.LoadMenuScene();
    }
  }
}
