# Breakout-3D: level sequencing and session counters in Dafny

This project models the two state machines under the game's engine glue.

- **SceneHandler** is the level sequencer. It holds an ordered list of level scenes and a menu scene. It keeps a cursor `nextLevelIndex` on the next level and an `isTransitioning` flag that rejects a second transition while one is in flight. `LoadNextScene` asks for the next level and moves the cursor on. Once the list is used up it falls through to `LoadMenuScene`, which asks for the menu and puts the cursor back to 0. When a transition canvas is assigned, the load waits on a coroutine timer. `OnSceneLoad` clears the flag.
- **GameManager** keeps the session counters: bricks left, score and lives. Destroying a brick lowers the count and raises the score. The brick that brings the count to exactly 0 calls `LoadNextScene`. Losing a ball lowers the lives. Every loss that leaves them at or below 0 takes the game-over path, which ends in `LoadMenuScene`. The two labels read `"Lives: n"` (never negative) and `"Score: n"`.

Engine calls are replaced by recorded events. A scene load becomes an append to the ghost log `requested` of the scene handler. A load waiting on its transition coroutine sits in the queue `pending`, and the method `TimerFires` issues the oldest one. Each class is specified by a value type (`SceneState`, `Session`, `Game`) and by step functions on it. Every method ensures that its new state is the step function applied to its old state. The lemmas about those functions state what the source promises over one call and over many.

Files:
- `labels.dfy` (module `Labels`): decimal formatting of C# `int`, its parser partner, and the two label texts.
- `scene_handler.dfy` (module `SceneHandling`): the `SceneState` value, its step functions and invariant, and the class `SceneHandler`.
- `game_manager.dfy` (module `GameSession`): the `Session` and `Game` values, their step functions, multi-call lemmas, and the class `GameManager`, which holds a `SceneHandler`.

Behaviour of the code worth knowing, each fact proved in the model:
- `OnBrickDestroyed` has no lower-bound guard on `currentBrickCount`. Further calls after the count reaches 0 drive it below 0, and they do not advance the level a second time (`DestroyBricksEffect`).
- A game over neither resets the score nor restores the lives. Once the lives are at or below 0, every further `KillBall` takes the game-over path again (`KillBallsEffect`, `GameOverCount`). With a canvas, only the first of those menu requests gets past the transition guard (`MenuStepsEffect`).
- The game-over test is `maxLives <= 0`, made after the decrement. With the default 3 lives, the third loss ends the game.
- The brick counters are set only in `OnEnable`. `OnEnable` does not reset the score.

## Model

| member | source | states |
|---|---|---|
| Labels.NatToString | Assets/_Scripts/GameManager.cs:93 | the decimal form of a non-negative int is a nonempty string of digits with a leading '0' only for 0 |
| Labels.IntToString | Assets/_Scripts/GameManager.cs:93 | the decimal form of an int starts with '-' exactly for a negative number, and every other character is a digit |
| Labels.ParseNatToString | Assets/_Scripts/GameManager.cs:93 | reading the digits of a non-negative int back gives the same number |
| Labels.IntToStringRoundTrip | Assets/_Scripts/GameManager.cs:93 | parsing the decimal form of any int gives that int back, so the label loses no information |
| Labels.IntToStringInjective | Assets/_Scripts/GameManager.cs:93 | two different ints never give the same label text |
| Labels.LivesLabel | Assets/_Scripts/GameManager.cs:85 | the lives label is "Lives: " followed only by digits, so it never shows a negative number |
| Labels.ScoreLabel | Assets/_Scripts/GameManager.cs:93 | the score label is "Score: " followed by the decimal score, with a minus sign exactly when the score is negative and digits after it |
| Labels.LivesLabelNeverNegative | Assets/_Scripts/GameManager.cs:85 | the lives label is "Lives: " followed only by digits, never a minus sign, and those digits read back as max(lives, 0) |
| Labels.ScoreLabelShowsScore | Assets/_Scripts/GameManager.cs:93 | the score label is "Score: " followed by a decimal form that reads back as the score |
| SceneHandling.Initial | Assets/_Scripts/SceneHandler.cs:17-19 | the initial handler has cursor 0 and no flag set, satisfies the invariant, and has committed to no load |
| SceneHandling.Load | Assets/_Scripts/SceneHandler.cs:71-83 | a non-rejected load is the next committed load; with a canvas it is deferred and the flag is set, and without one it is issued at once |
| SceneHandling.MenuStep | Assets/_Scripts/SceneHandler.cs:87-108 | while transitioning nothing changes; otherwise the menu becomes the next committed load, the cursor becomes 0, and the flag is set exactly when there is a canvas; the invariant is kept |
| SceneHandling.NextStep | Assets/_Scripts/SceneHandler.cs:57-85 | while transitioning nothing changes; with the cursor at or past the end it is exactly MenuStep; otherwise levels[cursor] (in bounds) becomes the next committed load and the cursor goes up by exactly 1; 0 <= cursor <= |levels| is kept |
| SceneHandling.TimerStep | Assets/_Scripts/SceneHandler.cs:110-114 | the oldest deferred scene is issued to the engine; the committed loads, the cursor and the flag are unchanged; with nothing deferred nothing changes |
| SceneHandling.LoadedStep | Assets/_Scripts/SceneHandler.cs:48-55 | the flag is false afterwards whatever it was, and the cursor, the level list and the loads are unchanged |
| SceneHandling.Step | Assets/_Scripts/SceneHandler.cs:48-114 | every event the handler reacts to keeps the invariant: cursor in 0..|levels|, nothing in flight without a canvas, only configured scenes scheduled or loaded |
| SceneHandling.Cycle | Assets/_Scripts/SceneHandler.cs:48-114 | an advance followed by the timer and the scene-loaded callback keeps the invariant |
| SceneHandling.RunKeepsInvariant | Assets/_Scripts/SceneHandler.cs:17-114 | over any sequence of events the invariant holds, the configuration stays, and the issued and committed loads only grow at their end |
| SceneHandling.DeferredUntilTimer | Assets/_Scripts/SceneHandler.cs:71-77 | with a canvas an accepted advance sets the flag and issues nothing; the timer step that follows issues the level |
| SceneHandling.PlayThrough | Assets/_Scripts/SceneHandler.cs:65-100 | with levels [l1, l2] and cursor 0, three advance/timer/loaded cycles request l1, l2 and then the menu, and end with cursor 0, idle, with or without a canvas |
| SceneHandling.SceneHandler.constructor | Assets/_Scripts/SceneHandler.cs:10-19 | a new handler is in the initial state with the given levels, menu scene and canvas presence |
| SceneHandling.SceneHandler.OnSceneLoad | Assets/_Scripts/SceneHandler.cs:48-55 | the new state is LoadedStep of the old one, and the invariant is kept |
| SceneHandling.SceneHandler.LoadNextScene | Assets/_Scripts/SceneHandler.cs:57-85 | the new state is NextStep of the old one, and the invariant is kept |
| SceneHandling.SceneHandler.LoadMenuScene | Assets/_Scripts/SceneHandler.cs:87-108 | the new state is MenuStep of the old one, and the invariant is kept |
| SceneHandling.SceneHandler.TimerFires | Assets/_Scripts/SceneHandler.cs:110-114 | the new state is TimerStep of the old one, and the invariant is kept |
| GameSession.ShowLives | Assets/_Scripts/GameManager.cs:81-87 | an assigned lives label shows LivesLabel of the lives; the counters and the score label are untouched |
| GameSession.ShowScore | Assets/_Scripts/GameManager.cs:89-95 | an assigned score label shows ScoreLabel of the score; the counters and the lives label are untouched |
| GameSession.Enable | Assets/_Scripts/GameManager.cs:17-26 | with a container both brick counts become its child count, score and lives stay, and both labels are current; without one nothing changes |
| GameSession.BrickDestroyed | Assets/_Scripts/GameManager.cs:38-45 | with a container the count drops by exactly 1 and the score rises by exactly 1, with no lower bound; without one nothing changes; current labels stay current |
| GameSession.BallKilled | Assets/_Scripts/GameManager.cs:52-55 | the lives drop by exactly 1, bricks and score stay, and current labels stay current |
| GameSession.BrickEvent | Assets/_Scripts/GameManager.cs:38-50 | LoadNextScene reaches the scene handler exactly when there is a container and the decremented count is 0 |
| GameSession.KillEvent | Assets/_Scripts/GameManager.cs:52-66 | LoadMenuScene reaches the scene handler exactly when the decremented lives are at most 0 |
| GameSession.DestroyBricksEffect | Assets/_Scripts/GameManager.cs:38-50 | after n destroyed bricks the count is C - n and the score is score + n; the handler sees exactly one LoadNextScene if 1 <= C <= n and none otherwise |
| GameSession.KillBallsEffect | Assets/_Scripts/GameManager.cs:52-66 | after n lost balls the lives are L - n, and the handler sees one LoadMenuScene for every loss that left the lives at or below 0 |
| SceneHandling.MenuStepsEffect | Assets/_Scripts/SceneHandler.cs:87-108 | k menu requests from an idle handler leave cursor 0 and commit one menu load with a canvas, and k menu loads without one |
| SceneHandling.MenuStepsRejected | Assets/_Scripts/SceneHandler.cs:89-93 | while a transition is in flight any number of menu requests leave the state unchanged |
| GameSession.GameManager.constructor | Assets/_Scripts/GameManager.cs:6-15 | a new manager has zero counts and score, the configured lives and the given scene handler |
| GameSession.GameManager.UpdateLivesUI | Assets/_Scripts/GameManager.cs:81-87 | the new state is ShowLives of the old one |
| GameSession.GameManager.UpdateScoreUI | Assets/_Scripts/GameManager.cs:89-95 | the new state is ShowScore of the old one |
| GameSession.GameManager.OnEnable | Assets/_Scripts/GameManager.cs:17-26 | the new state is Enable of the old one with the container's child count, and the scene handler is untouched |
| GameSession.GameManager.OnBrickDestroyed | Assets/_Scripts/GameManager.cs:38-50 | manager and scene handler together move by BrickEvent, and the scene handler's invariant is kept |
| GameSession.GameManager.KillBall | Assets/_Scripts/GameManager.cs:52-66 | manager and scene handler together move by KillEvent, and the scene handler's invariant is kept |
| GameSession.GameManager.ShowGameOverScreen | Assets/_Scripts/GameManager.cs:68-79 | the scene handler moves by MenuStep, through ReturnToMainMenu |
| GameSession.GameManager.ReturnToMainMenu | Assets/_Scripts/GameManager.cs:97-104 | the scene handler moves by MenuStep |

## Left out

- Scene loading itself (`SceneManager.LoadScene`) is modelled only as an append to the ghost log `requested`. The subscription to the engine's scene-loaded signal is replaced by the method `OnSceneLoad`.
- `Awake` is not modelled. That covers `DontDestroyOnLoad`, the subscription, and the bootstrap load of the menu when the active build index is 0. Nor is `OnDestroy`.
- The coroutine `LoadSceneAfterTransition` is a FIFO queue `pending` plus the method `TimerFires`; the duration of the wait is not modelled. It is a queue, not a single slot, because `OnSceneLoad` clears the flag even while a coroutine still waits, so a second one can start. Coroutines with the same duration finish in the order they started.
- Transition animation: `DOLocalMoveX`, the easing, `animationDuration`, `initXPosition` and `rect.width`. These are floating-point presentation values. The canvas is a presence flag.
- GameSession.GameManager.ShowGameOverScreen: the 1.5-second `Invoke` of `ReturnToMainMenu` and `gameOverCanvas.SetActive` are not modelled. The menu request is made at once, so a ball lost during that delay is seen before, not after, the menu request.
- The ball (`ResetBall`, `FireBall`) and the input handler's fire event are collaborators not part of this model. `FireBall` only passes the call on. `OnDisable` only removes the listener and is left out too.
- GameSession.GameManager.OnEnable: the throw on a missing bricks container is modelled as "no field changes", which is what the abort leaves behind. The throw on a missing ball or input handler earlier in the method is not modelled.
- GameSession.GameManager.KillBall: the ball is assumed assigned. With no ball, the `ball.ResetBall()` call before the game-over test throws, and the source then never reaches `ShowGameOverScreen` or `LoadMenuScene`. The model drops that abort and always takes the game-over path once the lives are at or below 0.
- The `position` argument of `OnBrickDestroyed` is unused by the source and is dropped.
- GameSession.BrickDestroyed: counters are unbounded integers, so the 32-bit wrap-around of C# `int` is not modelled. It would take about 2^31 events.
- Labels.IntToString: C# formats with the current culture. The model uses the invariant form, with '-' for negative numbers and ASCII digits.
- The `Debug.Log*` diagnostics, the singleton `Instance` mechanism and the presentation script `UIScript.cs` are not part of this model.
