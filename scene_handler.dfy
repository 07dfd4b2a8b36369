/** Level sequencing of the scene handler: an ordered list of level scenes, a
    menu scene, a cursor on the next level and a flag that rejects a second
    transition while one is in flight. Engine scene loads are recorded as an
    append to the log `requested`; a load deferred behind the transition canvas
    waits in `pending` until its timer fires. */
module SceneHandling {

  /** The handler's whole state as a value. `pending` holds, oldest first, the
      scenes whose load waits on a running transition coroutine; `requested`
      is every load issued to the engine, oldest first. */
  datatype SceneState = SceneState(
    levels: seq<string>,
    menuScene: string,
    hasCanvas: bool,
    nextLevelIndex: int,
    isTransitioning: bool,
    pending: seq<string>,
    requested: seq<string>)

  /** The events the handler reacts to. */
  datatype Event = NextScene | MenuScene | TimerFires | SceneLoaded

  /** A scene the handler was configured with. */
  predicate Configured(s: SceneState, scene: string) {
    scene in s.levels || scene == s.menuScene
  }

  /** The invariant every operation keeps: the cursor stays within
      0..|levels|, without a canvas nothing is ever deferred or in flight,
      and only configured scenes are ever scheduled or loaded. */
  predicate WellFormed(s: SceneState) {
    && 0 <= s.nextLevelIndex <= |s.levels|
    && (!s.hasCanvas ==> !s.isTransitioning && s.pending == [])
    && (forall x :: x in s.pending ==> Configured(s, x))
    && (forall x :: x in s.requested ==> Configured(s, x))
  }

  /** Every load the handler has committed to, in the order the engine gets
      them: those issued, then those still waiting on their timer. */
  function Committed(s: SceneState): seq<string> {
    s.requested + s.pending
  }

  /** The configuration (level list, menu, canvas presence) is the same. */
  predicate SameConfig(s: SceneState, r: SceneState) {
    r.levels == s.levels && r.menuScene == s.menuScene && r.hasCanvas == s.hasCanvas
  }

  /** The state right after construction: cursor 0, nothing in flight. */
  function Initial(levels: seq<string>, menuScene: string, hasCanvas: bool): (s: SceneState)
    ensures WellFormed(s) && Committed(s) == []
  {
    SceneState(levels, menuScene, hasCanvas, 0, false, [], [])
  }

  /** How a load of `scene` is issued by a non-rejected call: with a canvas the
      flag is set and the load waits on the transition timer; without one it
      is issued at once. Either way it is the next committed load. */
  function Load(s: SceneState, scene: string): (r: SceneState)
    requires WellFormed(s) && Configured(s, scene)
    ensures WellFormed(r)
    ensures SameConfig(s, r) && r.nextLevelIndex == s.nextLevelIndex
    ensures Committed(r) == Committed(s) + [scene]
    ensures r.isTransitioning == (s.isTransitioning || s.hasCanvas)
    ensures s.hasCanvas ==> r.requested == s.requested
    ensures !s.hasCanvas ==> r.pending == s.pending
  {
    if s.hasCanvas then s.(isTransitioning := true, pending := s.pending + [scene])
    else s.(requested := s.requested + [scene])
  }

  /** LoadMenuScene. */
  function MenuStep(s: SceneState): (r: SceneState)
    requires WellFormed(s)
    ensures WellFormed(r) && SameConfig(s, r)
    ensures s.isTransitioning ==> r == s
    ensures !s.isTransitioning ==>
      && r.nextLevelIndex == 0
      && Committed(r) == Committed(s) + [s.menuScene]
      && r.isTransitioning == s.hasCanvas
  {
    if s.isTransitioning then s
    else Load(s, s.menuScene).(nextLevelIndex := 0)
  }

  /** LoadNextScene. */
  function NextStep(s: SceneState): (r: SceneState)
    requires WellFormed(s)
    ensures WellFormed(r) && SameConfig(s, r)
    ensures s.isTransitioning ==> r == s
    ensures !s.isTransitioning && s.nextLevelIndex >= |s.levels| ==> r == MenuStep(s)
    ensures !s.isTransitioning && s.nextLevelIndex < |s.levels| ==>
      && r.nextLevelIndex == s.nextLevelIndex + 1
      && Committed(r) == Committed(s) + [s.levels[s.nextLevelIndex]]
      && r.isTransitioning == s.hasCanvas
  {
    if s.isTransitioning then s
    else if s.nextLevelIndex >= |s.levels| then MenuStep(s)
    else Load(s, s.levels[s.nextLevelIndex]).(nextLevelIndex := s.nextLevelIndex + 1)
  }

  /** The transition coroutine finishes its wait: the oldest deferred load is
      issued. With no coroutine waiting nothing happens. */
  function TimerStep(s: SceneState): (r: SceneState)
    requires WellFormed(s)
    ensures WellFormed(r) && SameConfig(s, r)
    ensures Committed(r) == Committed(s)
    ensures r.nextLevelIndex == s.nextLevelIndex && r.isTransitioning == s.isTransitioning
    ensures s.pending != [] ==> r.requested == s.requested + [s.pending[0]]
    ensures s.pending == [] ==> r == s
  {
    if s.pending == [] then s
    else
      assert forall x :: x in s.pending[1..] ==> x in s.pending;
      assert Configured(s, s.pending[0]);
      s.(pending := s.pending[1..], requested := s.requested + [s.pending[0]])
  }

  /** OnSceneLoad: the flag is cleared whatever it was; nothing else changes. */
  function LoadedStep(s: SceneState): (r: SceneState)
    requires WellFormed(s)
    ensures WellFormed(r) && !r.isTransitioning && SameConfig(s, r)
    ensures r.nextLevelIndex == s.nextLevelIndex
    ensures r.pending == s.pending && r.requested == s.requested
  {
    s.(isTransitioning := false)
  }

  function Step(s: SceneState, e: Event): (r: SceneState)
    requires WellFormed(s)
    ensures WellFormed(r)
  {
    match e
    case NextScene => NextStep(s)
    case MenuScene => MenuStep(s)
    case TimerFires => TimerStep(s)
    case SceneLoaded => LoadedStep(s)
  }

  /** The state after a sequence of events, oldest first. */
  function Run(s: SceneState, events: seq<Event>): SceneState
    requires WellFormed(s)
    decreases |events|
  {
    if events == [] then s else Run(Step(s, events[0]), events[1..])
  }

  /** Over any sequence of events the invariant holds, the configuration
      stays, and the log of issued loads only grows at its end; the
      committed loads only grow too. */
  lemma {:induction false} RunKeepsInvariant(s: SceneState, events: seq<Event>)
    requires WellFormed(s)
    ensures var r := Run(s, events);
      && WellFormed(r) && SameConfig(s, r)
      && s.requested <= r.requested
      && Committed(s) <= Committed(r)
    decreases |events|
  {
    if events != [] {
      var t := Step(s, events[0]);
      assert SameConfig(s, t) && s.requested <= t.requested && Committed(s) <= Committed(t);
      RunKeepsInvariant(t, events[1..]);
    }
  }

  /** With a canvas a non-rejected advance issues nothing yet; only the timer
      step that follows issues the level load. */
  lemma DeferredUntilTimer(s: SceneState)
    requires WellFormed(s) && s.hasCanvas && !s.isTransitioning && s.pending == []
    requires s.nextLevelIndex < |s.levels|
    ensures NextStep(s).requested == s.requested
    ensures NextStep(s).isTransitioning
    ensures TimerStep(NextStep(s)).requested == s.requested + [s.levels[s.nextLevelIndex]]
  {
  }

  /** One level cycle: advance, the transition timer fires, the scene finishes loading. */
  function Cycle(s: SceneState): (r: SceneState)
    requires WellFormed(s)
    ensures WellFormed(r)
  {
    LoadedStep(TimerStep(NextStep(s)))
  }

  /** With levels [l1, l2] and the cursor at 0, three cycles request l1, l2
      and then the menu, and leave the cursor at 0 and the handler idle,
      with or without a canvas. */
  lemma PlayThrough(l1: string, l2: string, menu: string, hasCanvas: bool)
    ensures var r := Cycle(Cycle(Cycle(Initial([l1, l2], menu, hasCanvas))));
      && r.requested == [l1, l2, menu]
      && r.nextLevelIndex == 0
      && !r.isTransitioning && r.pending == []
  {
    var s0 := Initial([l1, l2], menu, hasCanvas);
    var s1 := Cycle(s0);
    assert s1.requested == [l1] && s1.nextLevelIndex == 1 && s1.pending == [];
    var s2 := Cycle(s1);
    assert s2.requested == [l1, l2] && s2.nextLevelIndex == 2 && s2.pending == [];
    var s3 := Cycle(s2);
    assert s3.requested == [l1, l2, menu];
  }

  /** k calls of LoadMenuScene in a row. */
  function MenuSteps(s: SceneState, k: nat): (r: SceneState)
    requires WellFormed(s)
    ensures WellFormed(r)
    decreases k
  {
    if k == 0 then s else MenuSteps(MenuStep(s), k - 1)
  }

  /** Repeated LoadMenuScene calls from an idle handler: the cursor is 0, and
      with a canvas only the first is accepted (the rest are rejected while it
      is in flight), while without one each issues a menu load. */
  lemma {:induction false} MenuStepsEffect(s: SceneState, k: nat)
    requires WellFormed(s) && !s.isTransitioning && k >= 1
    ensures var r := MenuSteps(s, k);
      && r.nextLevelIndex == 0
      && Committed(r) == Committed(s) + seq(if s.hasCanvas then 1 else k, _ => s.menuScene)
    decreases k
  {
    var t := MenuStep(s);
    if k > 1 {
      if s.hasCanvas {
        MenuStepsRejected(t, k - 1);
      } else {
        MenuStepsEffect(t, k - 1);
        assert Committed(s) + seq(k, _ => s.menuScene)
            == Committed(s) + [s.menuScene] + seq(k - 1, _ => s.menuScene);
      }
    }
  }

  /** While a transition is in flight every LoadMenuScene call is rejected. */
  lemma {:induction false} MenuStepsRejected(s: SceneState, k: nat)
    requires WellFormed(s) && s.isTransitioning
    ensures MenuSteps(s, k) == s
    decreases k
  {
    if k > 0 {
      MenuStepsRejected(MenuStep(s), k - 1);
    }
  }

  /** The scene handler. The level list, the menu scene and whether a
      transition canvas is assigned are fixed at construction. */
  class SceneHandler {
    const levels: seq<string>
    const menuScene: string
    const hasCanvas: bool
    var nextLevelIndex: int
    var isTransitioning: bool
    /** Scenes whose transition coroutine is still waiting, oldest first. */
    var pending: seq<string>
    /** Every scene load issued to the engine, oldest first. */
    ghost var requested: seq<string>

    ghost function State(): SceneState
      reads this
    {
      SceneState(levels, menuScene, hasCanvas, nextLevelIndex, isTransitioning, pending, requested)
    }

    ghost predicate Valid()
      reads this
    {
      WellFormed(State())
    }

    constructor (levels: seq<string>, menuScene: string, hasCanvas: bool)
      ensures Valid() && State() == Initial(levels, menuScene, hasCanvas)
    {
      this.levels := levels;
      this.menuScene := menuScene;
      this.hasCanvas := hasCanvas;
      nextLevelIndex := 0;
      isTransitioning := false;
      pending := [];
      requested := [];
    }

    method OnSceneLoad()
      requires Valid()
      modifies this
      ensures State() == LoadedStep(old(State())) && Valid()
    {
      isTransitioning := false;
    }

    method LoadNextScene()
      requires Valid()
      modifies this
      ensures State() == NextStep(old(State())) && Valid()
    {
      if isTransitioning {
        return;
      }
      if nextLevelIndex >= |levels| {
        LoadMenuScene();
      } else if hasCanvas {
        isTransitioning := true;
        pending := pending + [levels[nextLevelIndex]];
        nextLevelIndex := nextLevelIndex + 1;
      } else {
        requested := requested + [levels[nextLevelIndex]];
        nextLevelIndex := nextLevelIndex + 1;
      }
    }

    method LoadMenuScene()
      requires Valid()
      modifies this
      ensures State() == MenuStep(old(State())) && Valid()
    {
      if isTransitioning {
        return;
      }
      if hasCanvas {
        isTransitioning := true;
        pending := pending + [menuScene];
        nextLevelIndex := 0;
      } else {
        requested := requested + [menuScene];
        nextLevelIndex := 0;
      }
    }

    /** The wait in LoadSceneAfterTransition ends: its scene is loaded. */
    method TimerFires()
      requires Valid()
      modifies this
      ensures State() == TimerStep(old(State())) && Valid()
    {
      if pending != [] {
        requested := requested + [pending[0]];
        pending := pending[1..];
      }
    }
  }
}
